/**
 The kernel as a transition system: every primitive, every resumption of a blocked
 primitive and every interrupt is one step, and Inv is what all of them keep.
 */
module KernelSystem {
  import opened Common
  import opened KernelSpec

  /** Where a process goes on when it is given the processor again. */
  datatype Cont = User | InReceive | InRequest

  datatype Place<P> = FreePool | SysPool | Mailbox(owner: P) | Hands(owner: P)

  /** place says where every envelope of the two pools is; idle is the null process. */
  datatype Sys<P, E> = Sys(k: KState<P, E>, cont: map<P, Cont>, place: map<E, Place<P>>, idle: P)

  datatype Op<P, E> =
    | SendOp(dest: Option<P>, env: Option<E>)
    | ReceiveOp
    | RequestOp
    | ReleaseOp(env: Option<E>)
    | YieldOp
    | ChangePriorityOp(priority: int, target: Option<P>)
    | ResumeOp
    | InterruptOp(handler: Option<P>)
    | ReturnOp

  // ---- the invariant ----

  ghost predicate Table<P, E>(s: Sys<P, E>) {
    && |s.k.ready| == NUM_PRIORITIES + 1 && |s.k.blocked| == NUM_PRIORITIES
    && s.idle in s.k.procs && !s.k.procs[s.idle].isIProcess
    && s.cont.Keys == s.k.procs.Keys
    && (forall p | p in s.k.procs ::
          && (s.k.procs[p].pid == NULL_PID <==> p == s.idle)
          && (!s.k.procs[p].isIProcess ==>
                if p == s.idle then s.k.procs[p].priority == NULL_PRIORITY
                else 0 <= s.k.procs[p].priority < NUM_PRIORITIES))
  }

  predicate AtLevel<E>(pcb: Proc<E>, st: ProcState, level: int) {
    !pcb.isIProcess && pcb.state == st && pcb.priority == level
  }

  /** The queues q hold exactly the user processes in state st, each once, at the level of its priority. */
  ghost predicate Placed<P, E>(procs: map<P, Proc<E>>, q: seq<seq<P>>, st: ProcState) {
    && (forall l, p | 0 <= l < |q| && p in q[l] :: p in procs)
    && (forall l, p | 0 <= l < |q| && p in procs :: p in q[l] <==> AtLevel(procs[p], st, l))
    && (forall l | 0 <= l < |q| :: NoDuplicates(q[l]))
  }

  /** The user process that has the processor, or had it when the interrupt came. */
  function Running<P, E>(k: KState<P, E>): P {
    if k.interrupted.Some? then k.interrupted.value else k.current
  }

  ghost predicate Dispatch<P, E>(s: Sys<P, E>) {
    && s.k.current in s.k.procs && Running(s.k) in s.k.procs
    && !s.k.procs[Running(s.k)].isIProcess
    && s.k.procs[s.k.current].isIProcess == s.k.interrupted.Some?
    && (forall p | p in s.k.procs && !s.k.procs[p].isIProcess ::
          s.k.procs[p].state == Executing <==> p == Running(s.k))
    && (forall p | p in s.k.procs && s.k.procs[p].isIProcess :: s.k.procs[p].state == Ready)
  }

  ghost predicate Placement<P, E>(s: Sys<P, E>) {
    && Dispatch(s)
    && Placed(s.k.procs, s.k.ready, Ready)
    && Placed(s.k.procs, s.k.blocked, BlockedOnEnvRequest)
  }

  /** What is saved of a process matches its state, and nobody waits for a message that is already there. */
  predicate ContinuationFits<E>(pcb: Proc<E>, cont: Cont) {
    match pcb.state
    case BlockedOnReceive => cont == InReceive && pcb.mail == []
    case BlockedOnEnvRequest => cont == InRequest
    case _ => cont == InReceive ==> pcb.mail != []
  }

  ghost predicate Continuations<P, E>(s: Sys<P, E>)
    requires s.cont.Keys == s.k.procs.Keys
  {
    && (forall p | p in s.k.procs :: ContinuationFits(s.k.procs[p], s.cont[p]))
    && (forall p | p in s.k.procs && (s.k.procs[p].isIProcess || p == s.idle) :: s.cont[p] == User)
    && (s.k.interrupted.Some? && Running(s.k) in s.k.procs ==> s.cont[Running(s.k)] == User)
  }

  ghost predicate PoolsAgree<P, E>(k: KState<P, E>, place: map<E, Place<P>>) {
    && k.sysEnvs <= place.Keys
    && NoDuplicates(k.free) && NoDuplicates(k.sysFree)
    && (forall e :: e in k.free ==> e in place)
    && (forall e :: e in k.sysFree ==> e in place)
    && (forall e | e in place :: e in k.free <==> place[e] == FreePool)
    && (forall e | e in place :: e in k.sysFree <==> place[e] == SysPool)
    && (forall e | e in place && place[e] == FreePool :: e !in k.sysEnvs)
    && (forall e | e in place && place[e] == SysPool :: e in k.sysEnvs)
  }

  ghost predicate MailAgrees<P, E>(k: KState<P, E>, place: map<E, Place<P>>) {
    && (forall p | p in k.procs :: NoDuplicates(k.procs[p].mail))
    && (forall p, e | p in k.procs && e in k.procs[p].mail :: e in place)
    && (forall p, e | p in k.procs && e in place :: e in k.procs[p].mail <==> place[e] == Mailbox(p))
    && (forall e | e in place && (place[e].Mailbox? || place[e].Hands?) :: place[e].owner in k.procs)
  }

  /** The lists agree with place, which gives every envelope exactly one place. */
  ghost predicate Conserved<P, E>(s: Sys<P, E>) {
    PoolsAgree(s.k, s.place) && MailAgrees(s.k, s.place)
  }

  ghost function Owned<P, E>(place: map<E, Place<P>>, p: P): set<E> {
    set e | e in place && place[e] in {Mailbox(p), Hands(p)}
  }

  ghost predicate Counted<P, E>(s: Sys<P, E>) {
    forall p | p in s.k.procs :: s.k.procs[p].envOwned == |Owned(s.place, p)|
  }

  /** Processes taken off the envelope queue by a release that have not been given the processor since. */
  ghost function Woken<P, E>(s: Sys<P, E>): set<P>
    requires s.cont.Keys == s.k.procs.Keys
  {
    set p | p in s.k.procs && s.cont[p] == InRequest && s.k.procs[p].state in {Ready, Executing}
  }

  ghost predicate SomeoneBlocked<P, E>(k: KState<P, E>) {
    exists l | 0 <= l < |k.blocked| :: k.blocked[l] != []
  }

  ghost predicate NoLostWakeUp<P, E>(s: Sys<P, E>)
    requires s.cont.Keys == s.k.procs.Keys
  {
    SomeoneBlocked(s.k) ==> |s.k.free| <= |Woken(s)|
  }

  ghost predicate Inv<P, E>(s: Sys<P, E>) {
    Table(s) && Placement(s) && Continuations(s) && Conserved(s) && Counted(s) && NoLostWakeUp(s)
  }

  // ---- steps ----

  /** What callers do: only the idle rule, the ownership rule and the i-process rules are theirs to keep. */
  ghost predicate Enabled<P, E>(s: Sys<P, E>, op: Op<P, E>)
    requires Inv(s)
  {
    var cur := s.k.current;
    if s.cont[cur] != User then op == ResumeOp
    else
      match op
      case SendOp(d, e) =>
        && cur != s.idle
        && (d.Some? ==> d.value in s.k.procs)
        && (e.Some? ==> e.value in s.place && s.place[e.value] == Hands(cur))
      case ReceiveOp => cur != s.idle
      case RequestOp => cur != s.idle
      case ReleaseOp(e) =>
        && cur != s.idle
        && (e.Some? ==> e.value in s.place && s.place[e.value] == Hands(cur))
      case YieldOp => s.k.interrupted.None?
      case ChangePriorityOp(pr, t) =>
        && cur != s.idle
        && (t.Some? ==> t.value in s.k.procs)
        && (t.None? ==> pr < 0 || pr >= NUM_PRIORITIES)
      case ResumeOp => false
      case InterruptOp(h) =>
        && s.k.interrupted.None?
        && (h.Some? ==> h.value in s.k.procs && s.k.procs[h.value].isIProcess)
      case ReturnOp => s.k.interrupted.Some?
  }

  lemma IdleIsQueuedOrRunning<P, E>(s: Sys<P, E>)
    requires Table(s) && Placement(s) && Continuations(s)
    ensures SomeoneReady(s.k) || Running(s.k) == s.idle
  {
    var idle := s.k.procs[s.idle];
    if idle.state == Ready {
      assert AtLevel(idle, Ready, NULL_PRIORITY);
      assert s.idle in s.k.ready[NULL_PRIORITY];
    }
  }

  /** What the primitives need in order to run at all. */
  ghost predicate CanRun<P, E>(s: Sys<P, E>) {
    && s.k.current in s.k.procs
    && (s.k.procs[s.k.current].isIProcess || SomeoneReady(s.k))
    && (forall l, p | 0 <= l < |s.k.ready| && p in s.k.ready[l] :: p in s.k.procs)
    && (forall l, p | 0 <= l < |s.k.blocked| && p in s.k.blocked[l] :: p in s.k.procs)
  }

  lemma RunsUnlessIdle<P, E>(s: Sys<P, E>)
    requires Table(s) && Placement(s) && Continuations(s) && s.k.current != s.idle
    ensures CanRun(s)
  {
    IdleIsQueuedOrRunning(s);
  }

  ghost function SendStep<P, E>(s: Sys<P, E>, d: Option<P>, e: Option<E>): Sys<P, E>
    requires s.k.current in s.k.procs && (d.Some? ==> d.value in s.k.procs)
  {
    var (k', code) := Send(s.k, d, e);
    s.(k := k', place := if code == CODE_SUCCESS then s.place[e.value := Mailbox(d.value)] else s.place)
  }

  ghost function ReleaseStep<P, E>(s: Sys<P, E>, e: Option<E>): Sys<P, E>
    requires CanRun(s)
  {
    s.(k := Release(s.k, e).0,
       place := if e.None? then s.place
                else s.place[e.value := if e.value in s.k.sysEnvs then SysPool else FreePool])
  }

  /** One turn of a blocking loop, with the place and the continuation of the caller kept up. */
  ghost function AfterAttempt<P, E>(s: Sys<P, E>, k': KState<P, E>, a: Attempt<E>, waiting: Cont): Sys<P, E> {
    match a
    case Got(e) => s.(k := k', place := s.place[e := Hands(s.k.current)], cont := s.cont[s.k.current := User])
    case GotNull => s.(k := k')
    case Switched => s.(k := k', cont := s.cont[s.k.current := waiting])
  }

  ghost function ReceiveStep<P, E>(s: Sys<P, E>): Sys<P, E>
    requires CanRun(s)
  {
    var (k', a) := Receive(s.k);
    AfterAttempt(s, k', a, InReceive)
  }

  ghost function RequestStep<P, E>(s: Sys<P, E>): Sys<P, E>
    requires CanRun(s)
  {
    var (k', a) := Request(s.k);
    AfterAttempt(s, k', a, InRequest)
  }

  ghost function Step<P, E>(s: Sys<P, E>, op: Op<P, E>): Sys<P, E>
    requires Inv(s) && Enabled(s, op)
  {
    assert s.k.current != s.idle ==> CanRun(s) by { if s.k.current != s.idle { RunsUnlessIdle(s); } }
    match op
    case SendOp(d, e) => SendStep(s, d, e)
    case ReceiveOp => ReceiveStep(s)
    case RequestOp => RequestStep(s)
    case ReleaseOp(e) => ReleaseStep(s, e)
    case YieldOp => s.(k := ReleaseProcessor(s.k))
    case ChangePriorityOp(pr, t) => s.(k := ChangePriority(s.k, pr, t).0)
    case ResumeOp => if s.cont[s.k.current] == InReceive then ReceiveStep(s) else RequestStep(s)
    case InterruptOp(h) => s.(k := InterruptEnter(s.k, h))
    case ReturnOp => s.(k := InterruptExit(s.k))
  }
}
