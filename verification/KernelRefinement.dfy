/** The heap kernel runs the transition system: one call, one step. */
module KernelRefinement {
  import opened Common
  import Spec = KernelSpec
  import opened KernelSystem
  import opened KernelTails
  import opened KernelPreservation
  import opened KernelRuns
  import opened MsgEnvQueues
  import opened ProcQueues
  import opened KernelHeap

  type System = Sys<Pcb, MsgEnv>

  /** What reaches the kernel: a trap with its arguments, a resumption, an interrupt, the end of an i-process. */
  datatype Call =
    | SendMessage(destPid: int, env: MsgEnv?)
    | ReceiveMessage
    | RequestMsgEnv
    | ReleaseMsgEnv(env: MsgEnv?)
    | ReleaseProcessor
    | ChangePriority(priority: int, pid: int)
    | ResumeReceive
    | ResumeRequest
    | Interrupt(source: int)
    | ReturnFromInterrupt

  /** What isr_handler finds for an interrupt source. */
  ghost function Handler(table: seq<Pcb>, source: int): Option<Pcb> {
    var pid := Spec.HandlerPid(source);
    if pid.None? then None else Find(table, pid.value)
  }

  function Given(env: MsgEnv?): Option<MsgEnv> {
    if env == null then None else Some(env)
  }

  /** What a call asks for; an envelope that is not NULL is one of the kernel's, and so has a message. */
  ghost function Operation(table: seq<Pcb>, call: Call): Op<Pcb, MsgEnv> {
    match call
    case SendMessage(pid, env) => SendOp(Find(table, pid), Given(env))
    case ReceiveMessage => ReceiveOp
    case RequestMsgEnv => RequestOp
    case ReleaseMsgEnv(env) => ReleaseOp(Given(env))
    case ReleaseProcessor => YieldOp
    case ChangePriority(pr, pid) => ChangePriorityOp(pr, Find(table, pid))
    case ResumeReceive => ResumeOp
    case ResumeRequest => ResumeOp
    case Interrupt(source) => InterruptOp(Handler(table, source))
    case ReturnFromInterrupt => ReturnOp
  }

  /** The call can happen in s, and a resumption is of the primitive the process waits in. */
  ghost predicate Fits(table: seq<Pcb>, s: System, call: Call)
    requires Inv(s)
  {
    && Enabled(s, Operation(table, call))
    && (call.ResumeReceive? ==> s.k.current in s.cont && s.cont[s.k.current] == InReceive)
    && (call.ResumeRequest? ==> s.k.current in s.cont && s.cont[s.k.current] == InRequest)
  }

  /** The heap kernel stands for the kernel state of s. */
  ghost predicate Represents(kern: Kernel, s: System)
    reads kern, kern.readyPq, kern.blockedPq, kern.readyPq.queueSet, kern.blockedPq.queueSet, kern.procs,
          kern.envQueues, kern.envs
  {
    && kern.Linked() && kern.K() == s.k && s.place.Keys == kern.envs
    && forall e | e in kern.envs :: e.hasMsg
  }

  lemma HeldIsUnlisted(s: System, e: MsgEnv)
    requires Conserved(s) && e in s.place && s.place[e].Hands?
    ensures e !in s.k.free && e !in s.k.sysFree && forall p | p in s.k.procs :: e !in s.k.procs[p].mail
  {
  }

  /** An envelope in a process's hands is chained into no queue. */
  lemma HeldIsLoose(kern: Kernel, s: System, e: MsgEnv)
    requires Represents(kern, s) && Conserved(s)
    requires e in s.place && s.place[e].Hands?
    ensures kern.Loose(e)
  {
    hide Conserved;
    HeldIsUnlisted(s, e);
    forall p | p in kern.procs
      ensures e !in p.recvMsgs.items
    {
      assert s.k.procs[p] == kern.BlockValue(p);
    }
  }

  lemma StateFacts(kern: Kernel, s: System)
    requires Represents(kern, s) && Inv(s)
    ensures Filed(kern.K()) && kern.Levelled()
    ensures kern.current == s.k.current && (kern.interrupted != null) == s.k.interrupted.Some?
    ensures s.k.current in s.k.procs && s.k.procs[s.k.current] == kern.BlockValue(kern.current)
    ensures !kern.current.isIProcess ==>
      kern.current.state == Executing && 0 <= kern.current.priority < |kern.readyPq.levels|
    ensures kern.current.isIProcess == s.k.interrupted.Some?
    ensures s.k.current != s.idle ==> kern.current.isIProcess || Spec.SomeoneReady(kern.K())
    ensures kern.freeEnvQ in kern.envQueues && kern.sysFreeEnvQ in kern.envQueues && kern.mailboxes <= kern.envQueues
  {
    hide Conserved, Counted, NoLostWakeUp;
    FiledAndLevelled(kern, s);
    if s.k.current != s.idle {
      RunsUnlessIdle(s);
    }
    hide Filed, Kernel.Levelled, Placed;
  }

  lemma FiledAndLevelled(kern: Kernel, s: System)
    requires Represents(kern, s) && Inv(s)
    ensures Filed(kern.K()) && kern.Levelled()
  {
    hide Conserved, Counted, NoLostWakeUp, Continuations, Dispatch;
  }

  /** Everything a call can change. */
  ghost function Footprint(kern: Kernel): set<object> {
    {kern, kern.readyPq, kern.blockedPq} + kern.readyPq.queueSet + kern.blockedPq.queueSet
    + kern.procs + kern.envQueues + kern.envs
  }

  /** The heap stands for s, in which op can happen. */
  ghost predicate Prepared(kern: Kernel, s: System, op: Op<Pcb, MsgEnv>)
    reads kern, kern.readyPq, kern.blockedPq, kern.readyPq.queueSet, kern.blockedPq.queueSet, kern.procs,
          kern.envQueues, kern.envs
  {
    Represents(kern, s) && kern.TailsKnown() && Inv(s) && Enabled(s, op)
  }

  /** What the calls below need to know of the two sides before the call. */
  lemma Facts(kern: Kernel, s: System, op: Op<Pcb, MsgEnv>)
    requires Prepared(kern, s, op)
    ensures kern.Valid() && kern.K() == s.k && Filed(s.k) && kern.Levelled()
    ensures Inv(s) && Enabled(s, op) && Step(s, op).place.Keys == kern.envs
    ensures forall e | e in kern.envs :: e.hasMsg
    ensures !kern.current.isIProcess ==>
      kern.current.state == Executing && 0 <= kern.current.priority < |kern.readyPq.levels|
    ensures s.k.current != s.idle ==> kern.current.isIProcess || Spec.SomeoneReady(s.k)
    ensures kern.current == s.k.current && s.k.current in s.k.procs
    ensures kern.current.isIProcess == s.k.procs[s.k.current].isIProcess
    ensures (kern.interrupted != null) == s.k.interrupted.Some?
    ensures kern.freeEnvQ in kern.envQueues && kern.sysFreeEnvQ in kern.envQueues && kern.mailboxes <= kern.envQueues
  {
    hide Conserved, Counted, NoLostWakeUp;
    StateFacts(kern, s);
    StepKeepsEnvelopes(s, op);
  }

  lemma HandedIsLoose(kern: Kernel, s: System, op: Op<Pcb, MsgEnv>, e: MsgEnv)
    requires Prepared(kern, s, op) && ((op.SendOp? && op.env == Some(e)) || op == ReleaseOp(Some(e)))
    ensures kern.Loose(e)
  {
    hide Placement, Continuations, Conserved, Counted, NoLostWakeUp;
    assert s.place[e] == Hands(s.k.current);
    HeldIsLoose(kern, s, e);
  }

  lemma SendIsStep(s: System, d: Option<Pcb>, e: Option<MsgEnv>)
    requires Inv(s) && Enabled(s, SendOp(d, e))
    ensures Rooted(s.k) && (d.Some? ==> d.value in s.k.procs)
    ensures Step(s, SendOp(d, e)).k == Spec.Send(s.k, d, e).0
    ensures Queues(s, SendOp(d, e)) == SendQueues(s.k, d, e)
  {
    hide Conserved, Counted, NoLostWakeUp, Spec.Send;
  }

  lemma AfterIs(s: System, op: Op<Pcb, MsgEnv>, stale: Stale)
    requires Inv(s) && Enabled(s, op)
    ensures !op.ChangePriorityOp? ==> After(s, op, stale) == StillStale(Step(s, op).k, stale)
    ensures op.ChangePriorityOp? ==>
      && (op.target.Some? ==> op.target.value in s.k.procs)
      && After(s, op, stale) == Both(StillStale(Step(s, op).k, stale), Stranded(s.k, op.priority, op.target))
  {
    hide Step, Inv, Stranded, Both, StillStale;
  }

  /** A send, an interrupt and its end empty no level. */
  lemma NothingEmptied(s: System, op: Op<Pcb, MsgEnv>, stale: Stale)
    requires Inv(s) && Enabled(s, op) && (op.SendOp? || op.InterruptOp? || op.ReturnOp?)
    requires StillStale(s.k, stale) == stale
    ensures After(s, op, stale) == stale
  {
    hide Placed, Conserved, Counted, NoLostWakeUp, Spec.Posted;
    if op.SendOp? && op.dest.Some? && op.env.Some? {
      hide Spec.Handed, Spec.MakeReady;
      HandedQueues(s.k, op.dest.value, op.env.value);
    }
  }

  lemma HandedQueues(k: State, d: Pcb, e: MsgEnv)
    requires k.current in k.procs && d in k.procs
    ensures
      var k' := Spec.Handed(k, d, e);
      && k'.blocked == k.blocked && |k'.ready| == |k.ready|
      && forall l | 0 <= l < |k.ready| && k.ready[l] != [] :: k'.ready[l] != []
  {
  }

  lemma ReleaseIsStep(s: System, e: Option<MsgEnv>)
    requires Inv(s) && Enabled(s, ReleaseOp(e))
    ensures Rooted(s.k) && Step(s, ReleaseOp(e)).k == Spec.Release(s.k, e).0
    ensures Queues(s, ReleaseOp(e)) == ReleaseQueues(s.k, e)
  {
    hide Conserved, Counted, NoLostWakeUp, Spec.Release;
  }

  lemma ReceiveIsStep(s: System, op: Op<Pcb, MsgEnv>)
    requires Inv(s) && Enabled(s, op) && (op == ReceiveOp || (op == ResumeOp && s.cont[s.k.current] == InReceive))
    ensures Rooted(s.k) && s.k.current != s.idle
    ensures s.k.procs[s.k.current].isIProcess || Spec.SomeoneReady(s.k)
    ensures Step(s, op).k == Spec.Receive(s.k).0 && Queues(s, op) == Nowhere
  {
    RunsUnlessIdle(s);
    hide Conserved, Counted, NoLostWakeUp, Spec.Receive;
  }

  lemma RequestIsStep(s: System, op: Op<Pcb, MsgEnv>)
    requires Inv(s) && Enabled(s, op) && (op == RequestOp || (op == ResumeOp && s.cont[s.k.current] == InRequest))
    ensures Rooted(s.k) && s.k.current != s.idle
    ensures s.k.procs[s.k.current].isIProcess || Spec.SomeoneReady(s.k)
    ensures Step(s, op).k == Spec.Request(s.k).0 && Queues(s, op) == RequestQueues(s.k)
  {
    hide Conserved, Counted, NoLostWakeUp, Spec.Request;
    RunsUnlessIdle(s);
  }

  lemma YieldIsStep(s: System)
    requires Inv(s) && Enabled(s, YieldOp)
    ensures Rooted(s.k) && 0 <= s.k.procs[s.k.current].priority < |s.k.ready| && !s.k.procs[s.k.current].isIProcess
    ensures Step(s, YieldOp).k == Spec.ReleaseProcessor(s.k) && Queues(s, YieldOp) == YieldQueues(s.k)
  {
    hide Conserved, Counted, NoLostWakeUp, Spec.ReleaseProcessor;
  }

  lemma InterruptIsStep(s: System, h: Option<Pcb>)
    requires Inv(s)
    ensures Enabled(s, InterruptOp(h)) ==>
      Step(s, InterruptOp(h)).k == Spec.InterruptEnter(s.k, h) && Queues(s, InterruptOp(h)) == Nowhere
    ensures Enabled(s, ReturnOp) ==>
      && s.k.interrupted.Some? && Step(s, ReturnOp).k == Spec.InterruptExit(s.k) && Queues(s, ReturnOp) == Nowhere
  {
    hide Placed, Conserved, Counted, NoLostWakeUp;
  }

  lemma ChangePriorityIsStep(s: System, pr: int, t: Option<Pcb>)
    requires Inv(s) && Enabled(s, ChangePriorityOp(pr, t))
    ensures t.Some? ==> t.value in s.k.procs
    ensures Step(s, ChangePriorityOp(pr, t)).k == Spec.ChangePriority(s.k, pr, t).0
    ensures Queues(s, ChangePriorityOp(pr, t)) == ChangeQueues(s.k, pr, t)
  {
    hide Placed, Conserved, Counted, NoLostWakeUp, Spec.ChangePriority;
  }

  lemma StaleIsKept(kern: Kernel, s: System, op: Op<Pcb, MsgEnv>)
    requires Prepared(kern, s, op)
    ensures Inv(s) && Enabled(s, op) && StillStale(s.k, kern.Lost()) == kern.Lost()
  {
    hide Inv, Enabled;
    kern.StaleStays();
  }

  /** The call has run, in the state that the transition system says or with its block missing from its level. */
  ghost predicate Done(kern: Kernel, s: System, op: Op<Pcb, MsgEnv>, stale: Stale)
    reads kern, kern.readyPq, kern.blockedPq, kern.readyPq.queueSet, kern.blockedPq.queueSet, kern.procs,
          kern.envQueues, kern.envs
  {
    && Inv(s) && Enabled(s, op) && kern.Linked() && Step(s, op).place.Keys == kern.envs
    && (forall e | e in kern.envs :: e.hasMsg)
    && kern.Reached(Queues(s, op), stale, Step(s, op).k, After(s, op, stale))
  }

  method Send(kern: Kernel, ghost s: System, ghost op: Op<Pcb, MsgEnv>, pid: int, env: MsgEnv?)
    requires op == SendOp(Find(kern.table, pid), Envelope(env)) && Prepared(kern, s, op)
    modifies Footprint(kern)
    ensures Done(kern, s, op, old(kern.Lost()))
  {
    hide Inv, Enabled, Step, Kernel.Linked, Kernel.TailsKnown, Kernel.Loose, Kernel.K, Kernel.Lost, Kernel.Levelled;
    hide Filed, Rooted, Kernel.Reached, Queues, After, StillStale, Both, Stranded;
    hide Spec.Send, Spec.Receive, Spec.Request, Spec.Release, Spec.ReleaseProcessor, Spec.ChangePriority;
    Facts(kern, s, op);
    SendIsStep(s, Find(kern.table, pid), Envelope(env));
    if env != null && env.hasMsg {
      HandedIsLoose(kern, s, op, env);
      kern.LooseIsOurs(env);
    }
    StaleIsKept(kern, s, op);
    NothingEmptied(s, op, kern.Lost());
    var code := kern.SendMessage(pid, env);
  }

  method Release(kern: Kernel, ghost s: System, ghost op: Op<Pcb, MsgEnv>, env: MsgEnv?)
    requires op == ReleaseOp(Envelope(env)) && Prepared(kern, s, op)
    modifies Footprint(kern)
    ensures Done(kern, s, op, old(kern.Lost()))
  {
    hide Inv, Enabled, Step, Kernel.Linked, Kernel.TailsKnown, Kernel.Loose, Kernel.K, Kernel.Lost, Kernel.Levelled;
    hide Filed, Rooted, Kernel.Reached, Queues, After, StillStale, Both, Stranded;
    hide Spec.Send, Spec.Receive, Spec.Request, Spec.Release, Spec.ReleaseProcessor, Spec.ChangePriority;
    Facts(kern, s, op);
    AfterIs(s, op, kern.Lost());
    ReleaseIsStep(s, Envelope(env));
    if env != null && env.hasMsg {
      HandedIsLoose(kern, s, op, env);
    }
    var code := kern.ReleaseMsgEnv(env);
  }

  method Receive(kern: Kernel, ghost s: System, ghost op: Op<Pcb, MsgEnv>)
    requires Prepared(kern, s, op) && (op == ReceiveOp || (op == ResumeOp && s.cont[s.k.current] == InReceive))
    modifies Footprint(kern)
    ensures Done(kern, s, op, old(kern.Lost()))
  {
    hide Inv, Enabled, Step, Kernel.Linked, Kernel.TailsKnown, Kernel.Loose, Kernel.K, Kernel.Lost, Kernel.Levelled;
    hide Filed, Rooted, Kernel.Reached, Queues, After, StillStale, Both, Stranded;
    hide Spec.Send, Spec.Receive, Spec.Request, Spec.Release, Spec.ReleaseProcessor, Spec.ChangePriority;
    Facts(kern, s, op);
    AfterIs(s, op, kern.Lost());
    ReceiveIsStep(s, op);
    var a := kern.ReceiveTurn();
    kern.ReachedWithoutQueueing(old(kern.Lost()));
  }

  method Request(kern: Kernel, ghost s: System, ghost op: Op<Pcb, MsgEnv>)
    requires Prepared(kern, s, op) && (op == RequestOp || (op == ResumeOp && s.cont[s.k.current] == InRequest))
    modifies Footprint(kern)
    ensures Done(kern, s, op, old(kern.Lost()))
  {
    hide Inv, Enabled, Step, Kernel.Linked, Kernel.TailsKnown, Kernel.Loose, Kernel.K, Kernel.Lost, Kernel.Levelled;
    hide Filed, Rooted, Kernel.Reached, Queues, After, StillStale, Both, Stranded;
    hide Spec.Send, Spec.Receive, Spec.Request, Spec.Release, Spec.ReleaseProcessor, Spec.ChangePriority;
    Facts(kern, s, op);
    AfterIs(s, op, kern.Lost());
    RequestIsStep(s, op);
    var a := kern.RequestTurn();
  }

  method Yield(kern: Kernel, ghost s: System, ghost op: Op<Pcb, MsgEnv>)
    requires op == YieldOp && Prepared(kern, s, op)
    modifies Footprint(kern)
    ensures Done(kern, s, op, old(kern.Lost()))
  {
    hide Inv, Enabled, Step, Kernel.Linked, Kernel.TailsKnown, Kernel.Loose, Kernel.K, Kernel.Lost, Kernel.Levelled;
    hide Filed, Rooted, Kernel.Reached, Queues, After, StillStale, Both, Stranded;
    hide Spec.Send, Spec.Receive, Spec.Request, Spec.Release, Spec.ReleaseProcessor, Spec.ChangePriority;
    Facts(kern, s, op);
    AfterIs(s, op, kern.Lost());
    YieldIsStep(s);
    kern.ReleaseProcessor();
  }

  method ChangePriority(kern: Kernel, ghost s: System, ghost op: Op<Pcb, MsgEnv>, pr: int, pid: int)
    requires op == ChangePriorityOp(pr, Find(kern.table, pid)) && Prepared(kern, s, op)
    modifies Footprint(kern)
    ensures Done(kern, s, op, old(kern.Lost()))
  {
    hide Inv, Enabled, Step, Kernel.Linked, Kernel.TailsKnown, Kernel.Loose, Kernel.K, Kernel.Lost, Kernel.Levelled;
    hide Filed, Rooted, Kernel.Reached, Queues, After, StillStale, Both, Stranded;
    hide Spec.Send, Spec.Receive, Spec.Request, Spec.Release, Spec.ReleaseProcessor, Spec.ChangePriority;
    Facts(kern, s, op);
    AfterIs(s, op, kern.Lost());
    ChangePriorityIsStep(s, pr, Find(kern.table, pid));
    var r := kern.ChangePriority(pr, pid);
  }

  method Interrupt(kern: Kernel, ghost s: System, ghost op: Op<Pcb, MsgEnv>, source: int)
    requires op == InterruptOp(Handler(kern.table, source)) && Prepared(kern, s, op)
    modifies Footprint(kern)
    ensures Done(kern, s, op, old(kern.Lost()))
  {
    hide Inv, Enabled, Step, Kernel.Linked, Kernel.TailsKnown, Kernel.Loose, Kernel.K, Kernel.Lost, Kernel.Levelled;
    hide Filed, Rooted, Kernel.Reached, Queues, After, StillStale, Both, Stranded;
    hide Spec.Send, Spec.Receive, Spec.Request, Spec.Release, Spec.ReleaseProcessor, Spec.ChangePriority;
    Facts(kern, s, op);
    InterruptIsStep(s, Handler(kern.table, source));
    StaleIsKept(kern, s, op);
    NothingEmptied(s, op, kern.Lost());
    var runs := kern.IsrEnter(source);
    kern.ReachedWithoutQueueing(kern.Lost());
  }

  method Return(kern: Kernel, ghost s: System, ghost op: Op<Pcb, MsgEnv>)
    requires op == ReturnOp && Prepared(kern, s, op)
    modifies Footprint(kern)
    ensures Done(kern, s, op, old(kern.Lost()))
  {
    hide Inv, Enabled, Step, Kernel.Linked, Kernel.TailsKnown, Kernel.Loose, Kernel.K, Kernel.Lost, Kernel.Levelled;
    hide Filed, Rooted, Kernel.Reached, Queues, After, StillStale, Both, Stranded;
    hide Spec.Send, Spec.Receive, Spec.Request, Spec.Release, Spec.ReleaseProcessor, Spec.ChangePriority;
    Facts(kern, s, op);
    InterruptIsStep(s, None);
    StaleIsKept(kern, s, op);
    NothingEmptied(s, op, kern.Lost());
    kern.IsrExit();
    kern.ReachedWithoutQueueing(kern.Lost());
  }

  lemma DoneIs(kern: Kernel, s: System, op: Op<Pcb, MsgEnv>, stale: Stale)
    requires Done(kern, s, op, stale) && StillStale(s.k, stale) == stale
    ensures Represents(kern, Step(s, op)) <==> !Misses(Queues(s, op), stale)
    ensures !Misses(Queues(s, op), stale) ==> kern.TailsKnown() && kern.Lost() == After(s, op, stale)
  {
    hide Inv, Enabled, Step, Kernel.Linked, Kernel.TailsKnown, Kernel.K, Kernel.Lost, Queues, After, StillStale, Listed;
    if Misses(Queues(s, op), stale) {
      StepLists(s, op, stale);
    }
  }

  lemma HandedIsKernels(s: System, op: Op<Pcb, MsgEnv>, e: MsgEnv)
    requires Inv(s) && Enabled(s, op) && ((op.SendOp? && op.env == Some(e)) || op == ReleaseOp(Some(e)))
    ensures e in s.place
  {
  }

  /** The envelope that comes with a call has a message. */
  lemma GivenIsEnvelope(kern: Kernel, s: System, call: Call)
    requires Represents(kern, s) && Inv(s) && Fits(kern.table, s, call)
    ensures call.SendMessage? || call.ReleaseMsgEnv? ==> Given(call.env) == Envelope(call.env)
  {
    hide Inv;
    if (call.SendMessage? || call.ReleaseMsgEnv?) && call.env != null {
      HandedIsKernels(s, Operation(kern.table, call), call.env);
    }
  }

  lemma PreparedFor(kern: Kernel, s: System, call: Call)
    requires Represents(kern, s) && kern.TailsKnown() && Inv(s) && Fits(kern.table, s, call)
    ensures Prepared(kern, s, Operation(kern.table, call))
    ensures call.ResumeReceive? ==> s.k.current in s.cont && s.cont[s.k.current] == InReceive
    ensures call.ResumeRequest? ==> s.k.current in s.cont && s.cont[s.k.current] == InRequest
  {
  }

  /**
   One call on the heap is one step of the transition system, unless it enqueues at a level whose tail is on a block
   outside; then, and only then, the heap does not stand for the state after the step.
   */
  method Execute(kern: Kernel, ghost s: System, call: Call)
    requires Represents(kern, s) && kern.TailsKnown() && Inv(s) && Fits(kern.table, s, call)
    modifies Footprint(kern)
    ensures
      var (op, stale) := (Operation(kern.table, call), old(kern.Lost()));
      && Enabled(s, op)
      && (Represents(kern, Step(s, op)) <==> !Misses(Queues(s, op), stale))
      && (!Misses(Queues(s, op), stale) ==> kern.TailsKnown() && kern.Lost() == After(s, op, stale))
  {
    hide Inv, Enabled, Step, Represents, Prepared, Footprint, Fits, Done, Kernel.TailsKnown, Kernel.Lost, Queues, After;
    hide StillStale;
    PreparedFor(kern, s, call);
    GivenIsEnvelope(kern, s, call);
    ghost var op := Operation(kern.table, call);
    StaleIsKept(kern, s, op);
    match call {
      case SendMessage(pid, env) => Send(kern, s, op, pid, env);
      case ReceiveMessage => Receive(kern, s, op);
      case RequestMsgEnv => Request(kern, s, op);
      case ReleaseMsgEnv(env) => Release(kern, s, op, env);
      case ReleaseProcessor => Yield(kern, s, op);
      case ChangePriority(pr, pid) => ChangePriority(kern, s, op, pr, pid);
      case ResumeReceive => Receive(kern, s, op);
      case ResumeRequest => Request(kern, s, op);
      case Interrupt(source) => Interrupt(kern, s, op, source);
      case ReturnFromInterrupt => Return(kern, s, op);
    }
    DoneIs(kern, s, op, old(kern.Lost()));
  }

  // ---- whole runs on the heap ----

  ghost function Operations(table: seq<Pcb>, calls: seq<Call>): seq<Op<Pcb, MsgEnv>> {
    seq(|calls|, i requires 0 <= i < |calls| => Operation(table, calls[i]))
  }

  /** Every call fits the state that the calls before it lead to. */
  ghost predicate AllFit(table: seq<Pcb>, s: System, calls: seq<Call>)
    requires Inv(s)
    decreases |calls|
  {
    calls == []
    || (Fits(table, s, calls[0])
        && (StepKeepsInv(s, Operation(table, calls[0]));
            AllFit(table, Step(s, Operation(table, calls[0])), calls[1..])))
  }

  /** How many calls come before the first that enqueues at a level that is stale by then. */
  ghost function Reach(table: seq<Pcb>, s: System, stale: Stale, calls: seq<Call>): (n: nat)
    requires Inv(s) && AllFit(table, s, calls)
    ensures n <= |calls|
    decreases |calls|
  {
    if calls == [] then 0
    else
      var op := Operation(table, calls[0]);
      StepKeepsInv(s, op);
      if Misses(Queues(s, op), stale) then 0 else 1 + Reach(table, Step(s, op), After(s, op, stale), calls[1..])
  }

  /** The levels that are stale at the end. */
  ghost function StaleAfter(table: seq<Pcb>, s: System, stale: Stale, calls: seq<Call>): Stale
    requires Inv(s) && AllFit(table, s, calls)
    decreases |calls|
  {
    if calls == [] then stale
    else
      var op := Operation(table, calls[0]);
      StepKeepsInv(s, op);
      StaleAfter(table, Step(s, op), After(s, op, stale), calls[1..])
  }

  /**
   A run of calls on the heap is a run of the transition system, so everything proved about runs holds of the heap,
   up to the first call that enqueues at a stale level; after that call it is not.
   */
  method RunCalls(kern: Kernel, ghost s: System, calls: seq<Call>)
    requires Represents(kern, s) && kern.TailsKnown() && Inv(s) && AllFit(kern.table, s, calls)
    requires |calls| <= Reach(kern.table, s, kern.Lost(), calls) + 1
    modifies Footprint(kern)
    ensures Runnable(s, Operations(kern.table, calls))
    ensures Represents(kern, Run(s, Operations(kern.table, calls)))
      <==> Reach(kern.table, s, old(kern.Lost()), calls) == |calls|
    ensures Reach(kern.table, s, old(kern.Lost()), calls) == |calls| ==>
      kern.TailsKnown() && kern.Lost() == StaleAfter(kern.table, s, old(kern.Lost()), calls)
    decreases |calls|
  {
    hide Inv, Enabled, Step, Represents, Kernel.TailsKnown, Kernel.Lost, Fits, Queues, Misses, After, Footprint;
    if calls == [] {
      return;
    }
    ghost var op := Operation(kern.table, calls[0]);
    Execute(kern, s, calls[0]);
    StepKeepsInv(s, op);
    if |calls| > 1 {
      RunCalls(kern, Step(s, op), calls[1..]);
    }
    assert Operations(kern.table, calls)[0] == op
      && Operations(kern.table, calls)[1..] == Operations(kern.table, calls[1..]);
  }

  /** The two pools of the heap and the counts of its blocks add up to its envelopes. */
  lemma HeapAddsUp(kern: Kernel, s: System)
    requires Represents(kern, s) && Inv(s)
    ensures s.k.procs.Keys == kern.procs
    ensures |kern.freeEnvQ.items| + |kern.sysFreeEnvQ.items| + TotalOwned(kern.K().procs, kern.procs) == |kern.envs|
  {
    EnvelopesAddUp(s);
    assert |s.place| == |s.place.Keys|;
    hide Inv;
  }
}
