/**
 What each step does, field by field: written out over the tables before and after, and not in terms of the functions
 that compute it.
 */
module KernelEffects {
  import opened Common
  import opened KernelSpec
  import opened KernelSystem
  import opened KernelQueues
  import opened KernelDispatch

  /** No process gets another pid, another priority or becomes an i-process. */
  ghost predicate SameProcesses<P, E>(k: KState<P, E>, k': KState<P, E>) {
    && k'.procs.Keys == k.procs.Keys
    && forall p | p in k.procs ::
         && k'.procs[p].pid == k.procs[p].pid && k'.procs[p].priority == k.procs[p].priority
         && k'.procs[p].isIProcess == k.procs[p].isIProcess
  }

  ghost predicate SamePools<P, E>(k: KState<P, E>, k': KState<P, E>) {
    k'.free == k.free && k'.sysFree == k.sysFree && k'.sysEnvs == k.sysEnvs
  }

  /** The levels of q, and of q' with p added at the end of level l. */
  ghost predicate Joined<P>(q: seq<seq<P>>, q': seq<seq<P>>, l: int, p: P) {
    && |q'| == |q| && 0 <= l < |q| && q'[l] == q[l] + [p]
    && forall m | 0 <= m < |q| && m != l :: q'[m] == q[m]
  }

  /** The levels of q, and of q' with p taken out of level l. */
  ghost predicate TakenOut<P>(q: seq<seq<P>>, q': seq<seq<P>>, l: int, p: P) {
    && |q'| == |q| && 0 <= l < |q|
    && (exists i | 0 <= i < |q[l]| :: q[l][i] == p && q'[l] == q[l][..i] + q[l][i + 1..])
    && forall m | 0 <= m < |q| && m != l :: q'[m] == q[m]
  }

  // ---- send ----

  /** The result codes of k_send_message: 0, -1 without an envelope, -2 without a process. */
  lemma SendCode<P, E>(k: KState<P, E>, d: Option<P>, e: Option<E>)
    requires k.current in k.procs && (d.Some? ==> d.value in k.procs)
    ensures Send(k, d, e).1 == if e.None? then -1 else if d.None? then -2 else 0
  {
  }

  lemma RefusedSend<P, E>(s: Sys<P, E>, d: Option<P>, e: Option<E>)
    requires Inv(s) && Enabled(s, SendOp(d, e)) && (d.None? || e.None?)
    ensures Step(s, SendOp(d, e)) == s
  {
  }

  /** The envelope bears the pids of its sender and of its receiver, and no other envelope's pids change. */
  lemma SendAddresses<P, E>(s: Sys<P, E>, d: P, e: E)
    requires Inv(s) && Enabled(s, SendOp(Some(d), Some(e)))
    ensures
      var (old', new') := (s.k.headers, Step(s, SendOp(Some(d), Some(e))).k.headers);
      && new'.Keys == old'.Keys + {e}
      && new'[e].sendPid == s.k.procs[s.k.current].pid && new'[e].destPid == s.k.procs[d].pid
      && forall x | x in old' && x != e :: new'[x] == old'[x]
  {
    hide Placed, Conserved, Counted, NoLostWakeUp;
  }

  /** Every process's mailbox, count and state after e has gone from k.current to d. */
  ghost predicate HandedOver<P, E>(k: KState<P, E>, k': KState<P, E>, d: P, e: E) {
    && SameProcesses(k, k') && SamePools(k, k')
    && k'.blocked == k.blocked && k'.current == k.current && k'.interrupted == k.interrupted
    && forall p | p in k.procs ::
         && k'.procs[p].mail == (if p == d then k.procs[p].mail + [e] else k.procs[p].mail)
         && k'.procs[p].envOwned
              == k.procs[p].envOwned + (if p == d then 1 else 0) - (if p == k.current then 1 else 0)
         && k'.procs[p].state == if p == d && k.procs[p].state == BlockedOnReceive then Ready else k.procs[p].state
  }

  lemma PostedIs<P, E>(k: KState<P, E>, d: P, e: E)
    requires k.current in k.procs && d in k.procs
    ensures SameProcesses(k, Posted(k, d, e))
    ensures forall p | p in k.procs ::
      && Posted(k, d, e).procs[p].mail == (if p == d then k.procs[p].mail + [e] else k.procs[p].mail)
      && Posted(k, d, e).procs[p].state == k.procs[p].state
    ensures forall p | p in k.procs ::
      Posted(k, d, e).procs[p].envOwned
        == k.procs[p].envOwned + (if p == d then 1 else 0) - (if p == k.current then 1 else 0)
    ensures var k' := Posted(k, d, e); k' == k.(procs := k'.procs, headers := k'.headers)
  {
  }

  lemma HandedIs<P, E>(k: KState<P, E>, d: P, e: E)
    requires k.current in k.procs && d in k.procs
    ensures HandedOver(k, Handed(k, d, e), d, e)
    ensures Handed(k, d, e).ready
      == if k.procs[d].state == BlockedOnReceive then PqEnqueue(k.ready, k.procs[d].priority, d) else k.ready
  {
    hide PqEnqueue, Posted;
    PostedIs(k, d, e);
  }

  /** It is the last in the receiver's mailbox, the receiver's, and a receiver that waited is the last at its level. */
  lemma SendDelivers<P, E>(s: Sys<P, E>, d: P, e: E)
    requires Inv(s) && Enabled(s, SendOp(Some(d), Some(e)))
    ensures
      var (k, s') := (s.k, Step(s, SendOp(Some(d), Some(e))));
      && HandedOver(k, s'.k, d, e) && s'.cont == s.cont && s'.place == s.place[e := Mailbox(d)]
      && if k.procs[d].state == BlockedOnReceive then Joined(k.ready, s'.k.ready, k.procs[d].priority, d)
         else s'.k.ready == k.ready
  {
    hide Placed, Conserved, Counted, NoLostWakeUp, Handed, HandedOver;
    HandedIs(s.k, d, e);
  }

  // ---- receive ----

  /** A mailbox that is not empty: its first envelope goes into the receiver's hands and nothing else changes. */
  lemma ReceiveTakes<P, E>(s: Sys<P, E>, op: Op<P, E>)
    requires Inv(s) && Enabled(s, op) && s.k.procs[s.k.current].mail != []
    requires op == ReceiveOp || (op == ResumeOp && s.cont[s.k.current] == InReceive)
    ensures
      var (s', me) := (Step(s, op), s.k.procs[s.k.current]);
      && CanRun(s) && Receive(s.k).1 == Got(me.mail[0])
      && s'.k == s.k.(procs := s.k.procs[s.k.current := me.(mail := me.mail[1..])])
      && s'.place == s.place[me.mail[0] := Hands(s.k.current)] && s'.cont == s.cont[s.k.current := User]
  {
    hide Placed, Conserved, Counted, NoLostWakeUp;
    RunsUnlessIdle(s);
  }

  /** An i-process with an empty mailbox gets NULL and goes on. */
  lemma IProcessReceivesNull<P, E>(s: Sys<P, E>)
    requires Inv(s) && Enabled(s, ReceiveOp) && s.k.procs[s.k.current].mail == [] && s.k.procs[s.k.current].isIProcess
    ensures CanRun(s) && Receive(s.k).1 == GotNull && Step(s, ReceiveOp) == s
  {
    hide Placed, Conserved, Counted, NoLostWakeUp;
    RunsUnlessIdle(s);
  }

  // ---- request ----

  /** What a request takes, if it need not wait: a free envelope, and one of the system's only for an i-process. */
  lemma RequestTakes<P, E>(s: Sys<P, E>, op: Op<P, E>)
    requires Inv(s) && Enabled(s, op) && !IsSwitch(s, op)
    requires op == RequestOp || (op == ResumeOp && s.cont[s.k.current] == InRequest)
    ensures
      var (k, s', me) := (s.k, Step(s, op), s.k.procs[s.k.current]);
      var more := k.procs[k.current := me.(envOwned := me.envOwned + 1)];
      CanRun(s) &&
      if k.free != [] then
        && Request(k).1 == Got(k.free[0]) && s'.k == k.(procs := more, free := k.free[1..])
        && s'.place == s.place[k.free[0] := Hands(k.current)] && s'.cont == s.cont[k.current := User]
      else if k.sysFree != [] then
        && me.isIProcess
        && Request(k).1 == Got(k.sysFree[0]) && s'.k == k.(procs := more, sysFree := k.sysFree[1..])
        && s'.place == s.place[k.sysFree[0] := Hands(k.current)] && s'.cont == s.cont[k.current := User]
      else me.isIProcess && Request(k).1 == GotNull && s' == s
  {
    hide Placed, Conserved, Counted, NoLostWakeUp;
    RunsUnlessIdle(s);
  }

  // ---- giving the processor up ----

  /** The state the caller is left in. */
  function StateAfter<P, E>(op: Op<P, E>): ProcState {
    match op
    case ReceiveOp => BlockedOnReceive
    case YieldOp => Ready
    case _ => BlockedOnEnvRequest
  }

  /** Of the processes' fields only the states of two change. */
  ghost predicate OnlyStates<P, E>(k: KState<P, E>, k': KState<P, E>, me: P, to: ProcState) {
    && SameProcesses(k, k') && SamePools(k, k') && k'.headers == k.headers && k'.interrupted == k.interrupted
    && forall p | p in k.procs ::
         && k'.procs[p].mail == k.procs[p].mail && k'.procs[p].envOwned == k.procs[p].envOwned
         && k'.procs[p].state == if p == k'.current then Executing else if p == me then to else k.procs[p].state
  }

  lemma SwitchStates<P, E>(k: KState<P, E>, to: ProcState)
    requires k.current in k.procs && SomeoneReady(k)
    requires forall l, p | 0 <= l < |k.ready| && p in k.ready[l] :: p in k.procs
    ensures OnlyStates(k, ProcessSwitch(k, to), k.current, to) && ProcessSwitch(k, to).blocked == k.blocked
  {
    DequeueFinds(k.ready);
    var l := FirstNonEmpty(k.ready);
    assert k.ready[l][0] in k.ready[l];
  }

  /**
   The caller waits as its call says, at the end of its level if it waits for an envelope, and where it goes on is
   recorded; the process that is dequeued (see SwitchDequeues) executes; nothing else changes.
   */
  lemma SwitchLeaves<P, E>(s: Sys<P, E>, op: Op<P, E>)
    requires Inv(s) && Enabled(s, op) && IsSwitch(s, op)
    ensures
      var (k, s', me) := (s.k, Step(s, op), s.k.current);
      && OnlyStates(k, s'.k, me, StateAfter(op)) && s'.place == s.place
      && (if op == YieldOp || op == ReceiveOp then s'.k.blocked == k.blocked
          else Joined(k.blocked, s'.k.blocked, k.procs[me].priority, me))
      && s'.cont == s.cont[me := if op == YieldOp then s.cont[me] else if op == ReceiveOp then InReceive else InRequest]
  {
    hide Conserved, Counted, NoLostWakeUp, ProcessSwitch, OnlyStates;
    var k, me := s.k, s.k.current;
    if op == YieldOp {
      var k1 := k.(ready := PqEnqueue(k.ready, k.procs[me].priority, me));
      assert k1.ready[k.procs[me].priority] != [];
      SwitchStates(k1, Ready);
      OnlyStatesFrom(k, k1, Step(s, op).k, Ready);
    } else {
      RunsUnlessIdle(s);
      if op == ReceiveOp {
        SwitchStates(k, BlockedOnReceive);
      } else {
        var k1 := k.(blocked := PqEnqueue(k.blocked, k.procs[me].priority, me));
        assert SomeoneReady(k1) by { var l :| 0 <= l < |k.ready| && k.ready[l] != []; assert k1.ready[l] != []; }
        SwitchStates(k1, BlockedOnEnvRequest);
        OnlyStatesFrom(k, k1, Step(s, op).k, BlockedOnEnvRequest);
      }
    }
  }

  lemma OnlyStatesFrom<P, E>(k: KState<P, E>, k1: KState<P, E>, k': KState<P, E>, to: ProcState)
    requires k1 == k.(ready := k1.ready, blocked := k1.blocked) && OnlyStates(k1, k', k.current, to)
    ensures OnlyStates(k, k', k.current, to)
  {
  }

  /** A process that yields joins the end of its level before the switch. */
  lemma YieldJoins<P, E>(s: Sys<P, E>)
    requires Inv(s) && Enabled(s, YieldOp)
    ensures Joined(s.k.ready, QueuesAtSwitch(s, YieldOp), s.k.procs[s.k.current].priority, s.k.current)
  {
    hide Placed, Conserved, Counted, NoLostWakeUp;
  }

  // ---- release ----

  lemma ReleaseCode<P, E>(k: KState<P, E>, e: Option<E>)
    requires k.current in k.procs && forall l, p | 0 <= l < |k.blocked| && p in k.blocked[l] :: p in k.procs
    ensures Release(k, e).1 == if e.None? then -1 else 0
    ensures e.None? ==> Release(k, e).0 == k
  {
  }

  /** An envelope of the system's goes to the end of its pool, and nobody is woken. */
  lemma SystemRelease<P, E>(s: Sys<P, E>, e: E)
    requires Inv(s) && Enabled(s, ReleaseOp(Some(e))) && e in s.k.sysEnvs
    ensures
      var (k, s', me) := (s.k, Step(s, ReleaseOp(Some(e))), s.k.procs[s.k.current]);
      && s'.k == k.(sysFree := k.sysFree + [e],
                    procs := k.procs[k.current := me.(envOwned := me.envOwned - 1)])
      && s'.place == s.place[e := SysPool] && s'.cont == s.cont
  {
    hide Placed, Conserved, Counted, NoLostWakeUp;
    RunsUnlessIdle(s);
  }

  /** Nobody waits before w: w is first at its level, and no better level is occupied. */
  ghost predicate FirstOf<P>(q: seq<seq<P>>, l: int, w: P) {
    0 <= l < |q| && q[l] != [] && q[l][0] == w && forall m | 0 <= m < l :: q[m] == []
  }

  lemma ReplenishedIs<P, E>(k: KState<P, E>, e: E)
    requires forall l, p | 0 <= l < |k.blocked| && p in k.blocked[l] :: p in k.procs
    ensures
      var (k', woken) := (Replenished(k, e), PqDequeue(k.blocked).0);
      && k' == k.(free := k.free + [e], procs := k'.procs, ready := k'.ready, blocked := PqDequeue(k.blocked).1)
      && (woken.Some? ==> woken.value in k.procs)
      && k'.procs == (if woken.None? then k.procs
                      else k.procs[woken.value := k.procs[woken.value].(state := Ready)])
      && k'.ready == if woken.None? then k.ready
                     else PqEnqueue(k.ready, k.procs[woken.value].priority, woken.value)
  {
    DequeueFinds(k.blocked);
    var l := FirstNonEmpty(k.blocked);
    if l < |k.blocked| {
      assert k.blocked[l][0] in k.blocked[l];
    }
    hide PqEnqueue;
  }

  lemma ReleasedIs<P, E>(k: KState<P, E>, e: E)
    requires k.current in k.procs && forall l, p | 0 <= l < |k.blocked| && p in k.blocked[l] :: p in k.procs
    requires e !in k.sysEnvs
    ensures
      var k' := Release(k, Some(e)).0;
      && k' == k.(free := k.free + [e], procs := k'.procs, ready := k'.ready, blocked := k'.blocked)
      && SameProcesses(k, k')
      && forall p | p in k.procs ::
           && k'.procs[p].mail == k.procs[p].mail
           && k'.procs[p].envOwned == k.procs[p].envOwned - if p == k.current then 1 else 0
  {
    hide Replenished, PqDequeue, PqEnqueue;
    ReplenishedIs(k, e);
  }

  /** Any other goes to the end of the free pool, and is no longer the caller's. */
  lemma OrdinaryRelease<P, E>(s: Sys<P, E>, e: E)
    requires Inv(s) && Enabled(s, ReleaseOp(Some(e))) && e !in s.k.sysEnvs
    ensures
      var (k, s') := (s.k, Step(s, ReleaseOp(Some(e))));
      var k' := s'.k;
      && k' == k.(free := k.free + [e], procs := k'.procs, ready := k'.ready, blocked := k'.blocked)
      && SameProcesses(k, k') && s'.place == s.place[e := FreePool] && s'.cont == s.cont
      && forall p | p in k.procs ::
           && k'.procs[p].mail == k.procs[p].mail
           && k'.procs[p].envOwned == k.procs[p].envOwned - if p == k.current then 1 else 0
  {
    hide Placed, Conserved, Counted, NoLostWakeUp, Release;
    RunsUnlessIdle(s);
    ReleasedIs(s.k, e);
  }

  /** The first process waiting for an envelope is ready, and last at its level. */
  lemma ReleaseWakes<P, E>(s: Sys<P, E>, e: E, l: int, w: P)
    requires Inv(s) && Enabled(s, ReleaseOp(Some(e))) && e !in s.k.sysEnvs && FirstOf(s.k.blocked, l, w)
    ensures
      var (k, k') := (s.k, Step(s, ReleaseOp(Some(e))).k);
      && w in k.procs && TakenOut(k.blocked, k'.blocked, l, w) && Joined(k.ready, k'.ready, k.procs[w].priority, w)
      && forall p | p in k.procs :: p in k'.procs && k'.procs[p].state == if p == w then Ready else k.procs[p].state
  {
    hide Placed, Conserved, Counted, NoLostWakeUp, Replenished, PqDequeue, PqEnqueue, Joined, TakenOut, FirstOf;
    RunsUnlessIdle(s);
    ReplenishedIs(s.k, e);
    DequeueIsFirst(s.k.blocked, l, w);
    WaitsAtLevel(s, w);
    EnqueueJoins(s.k.ready, s.k.procs[w].priority, w);
  }

  lemma ReleaseWakesNobody<P, E>(s: Sys<P, E>, e: E)
    requires Inv(s) && Enabled(s, ReleaseOp(Some(e))) && e !in s.k.sysEnvs && !SomeoneBlocked(s.k)
    ensures
      var (k, k') := (s.k, Step(s, ReleaseOp(Some(e))).k);
      && k'.blocked == k.blocked && k'.ready == k.ready
      && forall p | p in k.procs :: p in k'.procs && k'.procs[p].state == k.procs[p].state
  {
    hide Placed, Conserved, Counted, NoLostWakeUp, Replenished, PqDequeue, PqEnqueue;
    RunsUnlessIdle(s);
    ReplenishedIs(s.k, e);
    DequeueFinds(s.k.blocked);
  }

  lemma DequeueIsFirst<P>(q: seq<seq<P>>, l: int, w: P)
    requires FirstOf(q, l, w)
    ensures PqDequeue(q).0 == Some(w) && TakenOut(q, PqDequeue(q).1, l, w)
  {
    assert q[l][..0] + q[l][0 + 1..] == q[l][1..];
  }

  lemma EnqueueJoins<P>(q: seq<seq<P>>, l: int, p: P)
    requires 0 <= l < |q|
    ensures Joined(q, PqEnqueue(q, l, p), l, p)
  {
  }

  lemma WaitsAtLevel<P, E>(s: Sys<P, E>, w: P)
    requires Inv(s) && PqDequeue(s.k.blocked).0 == Some(w)
    ensures w in s.k.procs && 0 <= s.k.procs[w].priority < |s.k.ready|
  {
    hide Conserved, Counted, NoLostWakeUp, PqDequeue;
    DequeueTakes(s.k.procs, s.k.blocked, BlockedOnEnvRequest);
  }

  // ---- change of priority ----

  /** The calls that k_change_priority carries out: a legal priority for a process that is not the system's. */
  predicate Changes<P, E>(k: KState<P, E>, pr: int, t: P)
    requires t in k.procs
  {
    0 <= pr < NUM_PRIORITIES && !k.procs[t].isIProcess && k.procs[t].pid > NULL_PID
  }

  /** 0 or -2; the only call without a result is the one with a legal priority and an unknown process. */
  lemma ChangePriorityCode<P, E>(k: KState<P, E>, pr: int, t: Option<P>)
    requires t.Some? ==> t.value in k.procs
    ensures ChangePriority(k, pr, t).1 ==
      if t.Some? then Code(if Changes(k, pr, t.value) then 0 else -2)
      else if 0 <= pr < NUM_PRIORITIES then NullDereference
      else Code(-2)
    ensures t.None? ==> ChangePriority(k, pr, t).0 == k
  {
  }

  /** Whatever state t is in, it gets the priority, and no other field of it or of another process changes. */
  lemma ChangePrioritySets<P, E>(s: Sys<P, E>, pr: int, t: P)
    requires Inv(s) && Enabled(s, ChangePriorityOp(pr, Some(t)))
    ensures
      var (k, s') := (s.k, Step(s, ChangePriorityOp(pr, Some(t))));
      && s'.k == k.(procs := s'.k.procs, ready := s'.k.ready, blocked := s'.k.blocked)
      && s'.cont == s.cont && s'.place == s.place
      && (if Changes(k, pr, t) then s'.k.procs == k.procs[t := k.procs[t].(priority := pr)]
          else s' == s)
  {
    hide Placed, Conserved, Counted, NoLostWakeUp;
  }

  /** From its place at one level to the end of another, the others as they were. */
  ghost predicate MovedToEnd<P>(q: seq<seq<P>>, q': seq<seq<P>>, source: int, target: int, t: P) {
    && |q'| == |q| && 0 <= source < |q| && 0 <= target < |q| && source != target
    && (exists i | 0 <= i < |q[source]| :: q[source][i] == t && q'[source] == q[source][..i] + q[source][i + 1..])
    && q'[target] == q[target] + [t]
    && forall m | 0 <= m < |q| && m != source && m != target :: q'[m] == q[m]
  }

  /** The queue that t is in has it at the end of its new level; the other queue, or both, are as they were. */
  lemma ChangePriorityMoves<P, E>(s: Sys<P, E>, pr: int, t: P)
    requires Inv(s) && Enabled(s, ChangePriorityOp(pr, Some(t)))
    ensures
      var (k, k') := (s.k, Step(s, ChangePriorityOp(pr, Some(t))).k);
      var (pcb, moves) := (k.procs[t], Changes(k, pr, t) && pr != k.procs[t].priority);
      && (if moves && pcb.state == Ready then MovedToEnd(k.ready, k'.ready, pcb.priority, pr, t)
          else k'.ready == k.ready)
      && (if moves && pcb.state == BlockedOnEnvRequest then MovedToEnd(k.blocked, k'.blocked, pcb.priority, pr, t)
          else k'.blocked == k.blocked)
  {
    hide Placed, Conserved, Counted, NoLostWakeUp, PqRemove, PqEnqueue, MovedToEnd;
    var (k, pcb) := (s.k, s.k.procs[t]);
    if Changes(k, pr, t) && pr != pcb.priority && pcb.state in {Ready, BlockedOnEnvRequest} {
      InItsLevel(s, t);
      if pcb.state == Ready {
        RemoveThenEnqueue(k.ready, pcb.priority, pr, t);
      } else {
        RemoveThenEnqueue(k.blocked, pcb.priority, pr, t);
      }
    }
  }

  lemma InItsLevel<P, E>(s: Sys<P, E>, t: P)
    requires Inv(s) && t in s.k.procs && !s.k.procs[t].isIProcess
    requires s.k.procs[t].state == Ready || s.k.procs[t].state == BlockedOnEnvRequest
    requires t != s.idle
    ensures
      var (k, pcb) := (s.k, s.k.procs[t]);
      && 0 <= pcb.priority < |k.blocked| < |k.ready|
      && (pcb.state == Ready ==> t in k.ready[pcb.priority])
      && (pcb.state == BlockedOnEnvRequest ==> t in k.blocked[pcb.priority])
  {
    hide Conserved, Counted, NoLostWakeUp;
    assert AtLevel(s.k.procs[t], s.k.procs[t].state, s.k.procs[t].priority);
  }

  lemma {:induction false} WithoutTakesOut<P>(q: seq<P>, p: P) returns (i: nat)
    requires p in q
    ensures i < |q| && q[i] == p && Without(q, p) == q[..i] + q[i + 1..]
  {
    if q[0] == p {
      i := 0;
    } else {
      i := WithoutTakesOut(q[1..], p);
      i := i + 1;
      assert q == [q[0]] + q[1..];
    }
  }

  lemma RemoveThenEnqueue<P>(q: seq<seq<P>>, source: int, target: int, p: P)
    requires 0 <= source < |q| && 0 <= target < |q| && source != target && p in q[source]
    ensures MovedToEnd(q, PqEnqueue(PqRemove(q, source, p), target, p), source, target, p)
  {
    var i := WithoutTakesOut(q[source], p);
  }

  // ---- interrupts ----

  /** The i-process runs in place of the current process, which is kept; without one nothing happens. */
  lemma InterruptRuns<P, E>(s: Sys<P, E>, h: Option<P>)
    requires Inv(s) && Enabled(s, InterruptOp(h))
    ensures
      if h.None? then Step(s, InterruptOp(h)) == s
      else Step(s, InterruptOp(h)) == s.(k := s.k.(current := h.value, interrupted := Some(s.k.current)))
  {
    hide Placed, Conserved, Counted, NoLostWakeUp;
  }

  lemma ReturnGoesBack<P, E>(s: Sys<P, E>)
    requires Inv(s) && Enabled(s, ReturnOp)
    ensures s.k.interrupted.Some?
    ensures Step(s, ReturnOp) == s.(k := s.k.(current := s.k.interrupted.value, interrupted := None))
  {
    hide Placed, Conserved, Counted, NoLostWakeUp;
  }
}
