/** Every step of the kernel keeps Inv. */
module KernelPreservation {
  import opened Common
  import opened KernelSpec
  import opened KernelSystem
  import opened KernelQueues

  // ---- envelopes: one moves, the rest stay ----

  function Share<P(==)>(at: Place<P>, p: P): nat {
    if at in {Mailbox(p), Hands(p)} then 1 else 0
  }

  /** q after e left its front, joined its end, or neither. */
  ghost function Shifted<E>(q: seq<E>, leaves: bool, joins: bool, e: E): seq<E>
    requires leaves ==> q != []
  {
    (if leaves then q[1..] else q) + (if joins then [e] else [])
  }

  ghost predicate Moves<P, E>(k: KState<P, E>, k': KState<P, E>, e: E, from: Place<P>, to: Place<P>) {
    && from != to && k'.sysEnvs == k.sysEnvs && k'.procs.Keys == k.procs.Keys
    && (to.Mailbox? || to.Hands? ==> to.owner in k.procs)
    && (to == FreePool ==> e !in k.sysEnvs) && (to == SysPool ==> e in k.sysEnvs)
    && (from == FreePool ==> k.free != [] && k.free[0] == e)
    && (from == SysPool ==> k.sysFree != [] && k.sysFree[0] == e)
    && k'.free == Shifted(k.free, from == FreePool, to == FreePool, e)
    && k'.sysFree == Shifted(k.sysFree, from == SysPool, to == SysPool, e)
    && (forall p | p in k.procs ::
          && (from == Mailbox(p) ==> k.procs[p].mail != [] && k.procs[p].mail[0] == e)
          && k'.procs[p].mail == Shifted(k.procs[p].mail, from == Mailbox(p), to == Mailbox(p), e)
          && k'.procs[p].envOwned == k.procs[p].envOwned - Share(from, p) + Share(to, p))
  }

  ghost predicate NoMoves<P, E>(k: KState<P, E>, k': KState<P, E>) {
    && k'.sysEnvs == k.sysEnvs && k'.procs.Keys == k.procs.Keys
    && k'.free == k.free && k'.sysFree == k.sysFree
    && (forall p | p in k.procs ::
          k'.procs[p].mail == k.procs[p].mail && k'.procs[p].envOwned == k.procs[p].envOwned)
  }

  lemma OwnedApartFrom<P, E>(place: map<E, Place<P>>, e: E, p: P)
    requires e in place
    ensures |Owned(place, p)| == |Owned(place, p) - {e}| + Share(place[e], p)
  {
    if Share(place[e], p) == 1 {
      assert Owned(place, p) == (Owned(place, p) - {e}) + {e};
    } else {
      assert Owned(place, p) == Owned(place, p) - {e};
    }
  }

  lemma OwnedAfterMove<P, E>(place: map<E, Place<P>>, e: E, to: Place<P>, p: P)
    requires e in place
    ensures |Owned(place[e := to], p)| == |Owned(place, p)| - Share(place[e], p) + Share(to, p)
  {
    OwnedApartFrom(place, e, p);
    OwnedApartFrom(place[e := to], e, p);
    assert Owned(place, p) - {e} == Owned(place[e := to], p) - {e};
  }

  lemma ShiftedMembers<E>(q: seq<E>, leaves: bool, joins: bool, e: E)
    requires NoDuplicates(q)
    requires leaves ==> q != [] && q[0] == e
    requires joins ==> e !in q
    ensures NoDuplicates(Shifted(q, leaves, joins, e))
    ensures forall x :: x in Shifted(q, leaves, joins, e) <==> if x == e then joins || (e in q && !leaves) else x in q
  {
    if leaves {
      assert q == [e] + q[1..];
    }
  }

  lemma MovePools<P, E>(k: KState<P, E>, k': KState<P, E>, place: map<E, Place<P>>, e: E, to: Place<P>)
    requires PoolsAgree(k, place) && e in place && Moves(k, k', e, place[e], to)
    ensures PoolsAgree(k', place[e := to])
  {
    ShiftedMembers(k.free, place[e] == FreePool, to == FreePool, e);
    ShiftedMembers(k.sysFree, place[e] == SysPool, to == SysPool, e);
  }

  lemma MoveMail<P, E>(k: KState<P, E>, k': KState<P, E>, place: map<E, Place<P>>, e: E, to: Place<P>)
    requires MailAgrees(k, place) && e in place && Moves(k, k', e, place[e], to)
    ensures MailAgrees(k', place[e := to])
  {
    hide NoDuplicates, Shifted, Share;
    forall p | p in k.procs
      ensures NoDuplicates(k'.procs[p].mail)
      ensures forall x :: x in k'.procs[p].mail <==> if x == e then to == Mailbox(p) else x in k.procs[p].mail
    {
      ShiftedMembers(k.procs[p].mail, place[e] == Mailbox(p), to == Mailbox(p), e);
    }
  }

  lemma MoveCounts<P, E>(s: Sys<P, E>, s': Sys<P, E>, e: E, to: Place<P>)
    requires Counted(s) && e in s.place && s'.place == s.place[e := to]
    requires Moves(s.k, s'.k, e, s.place[e], to)
    ensures Counted(s')
  {
    forall p | p in s.k.procs
      ensures s'.k.procs[p].envOwned == |Owned(s'.place, p)|
    {
      OwnedAfterMove(s.place, e, to, p);
    }
  }

  lemma MoveConserves<P, E>(s: Sys<P, E>, s': Sys<P, E>, e: E, to: Place<P>)
    requires Conserved(s) && Counted(s)
    requires e in s.place && s'.place == s.place[e := to]
    requires Moves(s.k, s'.k, e, s.place[e], to)
    ensures Conserved(s') && Counted(s')
  {
    MovePools(s.k, s'.k, s.place, e, to);
    MoveMail(s.k, s'.k, s.place, e, to);
    MoveCounts(s, s', e, to);
  }

  lemma NoMoveConserves<P, E>(s: Sys<P, E>, s': Sys<P, E>)
    requires Conserved(s) && Counted(s) && s'.place == s.place && NoMoves(s.k, s'.k)
    ensures Conserved(s') && Counted(s')
  {
  }

  // ---- where processes are ----

  /** Both sets of queues, for a process table. */
  ghost predicate QueuesFit<P, E>(procs: map<P, Proc<E>>, ready: seq<seq<P>>, blocked: seq<seq<P>>) {
    Placed(procs, ready, Ready) && Placed(procs, blocked, BlockedOnEnvRequest)
  }

  lemma QueuesFitElsewhere<P, E>(
    procs: map<P, Proc<E>>, p: P, pcb: Proc<E>, ready: seq<seq<P>>, blocked: seq<seq<P>>)
    requires QueuesFit(procs, ready, blocked) && p in procs
    requires pcb.isIProcess == procs[p].isIProcess && pcb.priority == procs[p].priority
    requires pcb.state == procs[p].state
      || (pcb.state !in {Ready, BlockedOnEnvRequest} && procs[p].state !in {Ready, BlockedOnEnvRequest})
    ensures QueuesFit(procs[p := pcb], ready, blocked)
  {
    PlacedElsewhere(procs, p, pcb, ready, Ready);
    PlacedElsewhere(procs, p, pcb, blocked, BlockedOnEnvRequest);
  }

  lemma MakeReadyFits<P, E>(k: KState<P, E>, p: P)
    requires QueuesFit(k.procs, k.ready, k.blocked)
    requires p in k.procs && !k.procs[p].isIProcess && 0 <= k.procs[p].priority < |k.ready|
    requires k.procs[p].state !in {Ready, BlockedOnEnvRequest}
    ensures QueuesFit(MakeReady(k, p).procs, MakeReady(k, p).ready, k.blocked)
  {
    EnqueuePlaced(k.procs, p, k.procs[p].(state := Ready), k.ready, Ready);
    PlacedElsewhere(k.procs, p, k.procs[p].(state := Ready), k.blocked, BlockedOnEnvRequest);
  }

  /** A caller about to give the processor up with new state `to`; the queues of k already account for it. */
  ghost predicate ReadyToSwitch<P, E>(s: Sys<P, E>, k: KState<P, E>, to: ProcState) {
    && Dispatch(s) && s.k.interrupted.None? && to != Executing
    && k.procs == s.k.procs && k.current == s.k.current && k.interrupted == s.k.interrupted
    && SomeoneReady(k)
    && QueuesFit(k.procs[k.current := k.procs[k.current].(state := to)], k.ready, k.blocked)
  }

  /** The processor goes from the caller, now in state `to`, to a process that was ready. */
  ghost predicate Switches<P, E>(k: KState<P, E>, k': KState<P, E>, to: ProcState)
    requires k.current in k.procs
  {
    var mid := k.procs[k.current := k.procs[k.current].(state := to)];
    && k'.current in mid && mid[k'.current].state == Ready && !mid[k'.current].isIProcess
    && k' == k.(procs := mid[k'.current := mid[k'.current].(state := Executing)],
                current := k'.current, ready := k'.ready)
    && |k'.ready| == |k.ready|
  }

  lemma SwitchPlacement<P, E>(s: Sys<P, E>, k: KState<P, E>, to: ProcState, cont': map<P, Cont>)
    requires ReadyToSwitch(s, k, to)
    ensures k.current in k.procs && forall l, p | 0 <= l < |k.ready| && p in k.ready[l] :: p in k.procs
    ensures Placement(s.(k := ProcessSwitch(k, to), cont := cont'))
    ensures Switches(k, ProcessSwitch(k, to), to)
  {
    var mid := k.procs[k.current := k.procs[k.current].(state := to)];
    assert mid.Keys == k.procs.Keys;
    DequeueTakes(mid, k.ready, Ready);
    var next := PqDequeue(k.ready).0.value;
    assert ProcessSwitch(k, to).procs == mid[next := mid[next].(state := Executing)];
    DequeuePlaced(mid, next, mid[next].(state := Executing), k.ready, Ready);
    PlacedElsewhere(mid, next, mid[next].(state := Executing), k.blocked, BlockedOnEnvRequest);
  }

  function EnvOwnedAfter<P(==), E>(k: KState<P, E>, d: P, p: P): int
    requires p in k.procs
  {
    k.procs[p].envOwned + (if p == d then 1 else 0) - (if p == k.current then 1 else 0)
  }

  /** What posting an envelope to d does to each block. */
  lemma PostedEffect<P, E>(k: KState<P, E>, d: P, e: E)
    requires k.current in k.procs && d in k.procs
    ensures
      var k' := Posted(k, d, e);
      && k'.procs.Keys == k.procs.Keys && k' == k.(procs := k'.procs, headers := k'.headers)
      && forall p | p in k.procs ::
           k'.procs[p] == k.procs[p].(mail := if p == d then k.procs[p].mail + [e] else k.procs[p].mail,
                                      envOwned := EnvOwnedAfter(k, d, p))
  {
  }

  /** What a send to d does to each block. */
  lemma HandedEffect<P, E>(k: KState<P, E>, d: P, e: E)
    requires k.current in k.procs && d in k.procs
    ensures
      var k' := Handed(k, d, e);
      && k'.procs.Keys == k.procs.Keys && |k'.ready| == |k.ready|
      && k' == k.(procs := k'.procs, headers := k'.headers, ready := k'.ready)
      && forall p | p in k.procs ::
           k'.procs[p] == k.procs[p].(
             state := if p == d && k.procs[d].state == BlockedOnReceive then Ready else k.procs[p].state,
             mail := if p == d then k.procs[p].mail + [e] else k.procs[p].mail,
             envOwned := EnvOwnedAfter(k, d, p))
  {
    hide Posted, EnvOwnedAfter;
    PostedEffect(k, d, e);
  }

  /** Blocks that differ in mailbox and count only have the same places. */
  lemma SamePlaces<P, E>(procs: map<P, Proc<E>>, procs': map<P, Proc<E>>, q: seq<seq<P>>, st: ProcState)
    requires Placed(procs, q, st) && procs'.Keys == procs.Keys
    requires forall p | p in procs :: procs'[p] == procs[p].(mail := procs'[p].mail, envOwned := procs'[p].envOwned)
    ensures Placed(procs', q, st)
  {
  }

  lemma HandedFits<P, E>(k: KState<P, E>, d: P, e: E)
    requires QueuesFit(k.procs, k.ready, k.blocked) && k.current in k.procs && d in k.procs
    requires k.procs[d].state == BlockedOnReceive ==> !k.procs[d].isIProcess && 0 <= k.procs[d].priority < |k.ready|
    ensures var k' := Handed(k, d, e); QueuesFit(k'.procs, k'.ready, k'.blocked)
  {
    hide Placed, Posted, MakeReady, EnvOwnedAfter;
    PostedEffect(k, d, e);
    var k1 := Posted(k, d, e);
    SamePlaces(k.procs, k1.procs, k.ready, Ready);
    SamePlaces(k.procs, k1.procs, k.blocked, BlockedOnEnvRequest);
    if k1.procs[d].state == BlockedOnReceive {
      MakeReadyFits(k1, d);
      assert MakeReady(k1, d).blocked == k1.blocked by { MakeReadyLeaves(k1, d); }
    }
  }

  lemma MakeReadyLeaves<P, E>(k: KState<P, E>, p: P)
    requires p in k.procs
    ensures MakeReady(k, p).blocked == k.blocked
  {
  }

  lemma SendDispatch<P, E>(s: Sys<P, E>, d: P, e: E)
    requires Dispatch(s) && d in s.k.procs
    ensures Dispatch(SendStep(s, Some(d), Some(e)))
  {
    hide Handed, EnvOwnedAfter;
    HandedEffect(s.k, d, e);
  }

  lemma SendPlacement<P, E>(s: Sys<P, E>, d: P, e: E)
    requires Table(s) && Placement(s) && d in s.k.procs
    ensures Placement(SendStep(s, Some(d), Some(e)))
  {
    SendDispatch(s, d, e);
    HandedFits(s.k, d, e);
    hide Placed, Dispatch, Handed;
  }

  /** k_release_msg_env after it took p, a process waiting for an envelope, from its queue. */
  lemma WakeFits<P, E>(k: KState<P, E>, p: P)
    requires QueuesFit(k.procs, k.ready, k.blocked)
    requires PqDequeue(k.blocked).0 == Some(p) && p in k.procs && k.procs[p].state == BlockedOnEnvRequest
    requires !k.procs[p].isIProcess && 0 <= k.procs[p].priority < |k.ready|
    ensures QueuesFit(MakeReady(k, p).procs, MakeReady(k, p).ready, PqDequeue(k.blocked).1)
  {
    EnqueuePlaced(k.procs, p, k.procs[p].(state := Ready), k.ready, Ready);
    DequeuePlaced(k.procs, p, k.procs[p].(state := Ready), k.blocked, BlockedOnEnvRequest);
  }

  lemma ReleaseFits<P, E>(k: KState<P, E>, e: E)
    requires QueuesFit(k.procs, k.ready, k.blocked) && k.current in k.procs && |k.blocked| < |k.ready|
    ensures QueuesFit(Release(k, Some(e)).0.procs, Release(k, Some(e)).0.ready, Release(k, Some(e)).0.blocked)
  {
    DequeueTakes(k.procs, k.blocked, BlockedOnEnvRequest);
    if e in k.sysEnvs {
      OwnedFits(k.(sysFree := k.sysFree + [e]));
    } else {
      ReplenishedFits(k, e);
      OwnedFits(Replenished(k, e));
    }
  }

  lemma OwnedFits<P, E>(k: KState<P, E>)
    requires QueuesFit(k.procs, k.ready, k.blocked) && k.current in k.procs
    ensures QueuesFit(WithOwned(k, k.current, -1).procs, k.ready, k.blocked)
  {
    var pcb := k.procs[k.current];
    QueuesFitElsewhere(k.procs, k.current, pcb.(envOwned := pcb.envOwned + -1), k.ready, k.blocked);
  }

  lemma ReplenishedFits<P, E>(k: KState<P, E>, e: E)
    requires QueuesFit(k.procs, k.ready, k.blocked) && k.current in k.procs && |k.blocked| < |k.ready|
    ensures forall l, p | 0 <= l < |k.blocked| && p in k.blocked[l] :: p in k.procs
    ensures var k' := Replenished(k, e); QueuesFit(k'.procs, k'.ready, k'.blocked) && k'.current in k'.procs
  {
    DequeueTakes(k.procs, k.blocked, BlockedOnEnvRequest);
    var woken := PqDequeue(k.blocked).0;
    if woken.Some? {
      WakeFits(k, woken.value);
    }
  }

  /** A release wakes the first waiter, if it puts back an ordinary envelope and there is one. */
  function WokenBy<P, E>(k: KState<P, E>, e: E): Option<P> {
    if e in k.sysEnvs then None else PqDequeue(k.blocked).0
  }

  lemma ReleaseWakes<P, E>(k: KState<P, E>, e: E)
    requires Placed(k.procs, k.blocked, BlockedOnEnvRequest) && k.current in k.procs
    ensures WokenBy(k, e).Some? ==>
      var p := WokenBy(k, e).value;
      p in k.procs && k.procs[p].state == BlockedOnEnvRequest && !k.procs[p].isIProcess
    ensures WokenBy(k, e).None? && e !in k.sysEnvs ==> forall l | 0 <= l < |k.blocked| :: k.blocked[l] == []
    ensures
      var k' := Release(k, Some(e)).0;
      && k'.procs.Keys == k.procs.Keys && |k'.ready| == |k.ready| && |k'.blocked| == |k.blocked|
      && k'.current == k.current && k'.interrupted == k.interrupted
      && k'.free == (if e in k.sysEnvs then k.free else k.free + [e])
      && (WokenBy(k, e).None? ==> k'.blocked == k.blocked)
      && forall p | p in k.procs ::
           k'.procs[p] == k.procs[p].(state := if WokenBy(k, e) == Some(p) then Ready else k.procs[p].state,
                                      envOwned := k'.procs[p].envOwned)
  {
    DequeueTakes(k.procs, k.blocked, BlockedOnEnvRequest);
  }

  lemma ReleasePlacement<P, E>(s: Sys<P, E>, e: E)
    requires Table(s) && Placement(s) && CanRun(s)
    ensures Placement(ReleaseStep(s, Some(e)))
  {
    ReleaseFits(s.k, e);
    ReleaseWakes(s.k, e);
  }

  lemma ReceivePlacement<P, E>(s: Sys<P, E>)
    requires Placement(s) && CanRun(s)
    ensures Placement(ReceiveStep(s))
    ensures s.k.procs[s.k.current].mail == [] && !s.k.procs[s.k.current].isIProcess ==>
      Switches(s.k, ReceiveStep(s).k, BlockedOnReceive)
  {
    var k, me := s.k, s.k.current;
    if k.procs[me].mail != [] {
      QueuesFitElsewhere(k.procs, me, k.procs[me].(mail := k.procs[me].mail[1..]), k.ready, k.blocked);
    } else if !k.procs[me].isIProcess {
      QueuesFitElsewhere(k.procs, me, k.procs[me].(state := BlockedOnReceive), k.ready, k.blocked);
      SwitchPlacement(s, k, BlockedOnReceive, ReceiveStep(s).cont);
    }
  }

  /** The caller queued among the processes waiting for an envelope. */
  function WithBlocked<P, E>(k: KState<P, E>): KState<P, E>
    requires k.current in k.procs
  {
    k.(blocked := PqEnqueue(k.blocked, k.procs[k.current].priority, k.current))
  }

  lemma BlockedFits<P, E>(s: Sys<P, E>)
    requires Table(s) && Placement(s) && CanRun(s) && s.k.current != s.idle
    requires !s.k.procs[s.k.current].isIProcess
    ensures ReadyToSwitch(s, WithBlocked(s.k), BlockedOnEnvRequest)
  {
    var k, me := s.k, s.k.current;
    var pcb := k.procs[me].(state := BlockedOnEnvRequest);
    PlacedElsewhere(k.procs, me, pcb, k.ready, Ready);
    EnqueuePlaced(k.procs, me, pcb, k.blocked, BlockedOnEnvRequest);
    var l :| 0 <= l < |k.ready| && k.ready[l] != [];
    assert WithBlocked(k).ready[l] != [];
  }

  lemma RequestPlacement<P, E>(s: Sys<P, E>)
    requires Table(s) && Placement(s) && CanRun(s) && s.k.current != s.idle
    ensures Placement(RequestStep(s))
    ensures s.k.free == [] && !s.k.procs[s.k.current].isIProcess ==>
      Switches(WithBlocked(s.k), RequestStep(s).k, BlockedOnEnvRequest)
  {
    hide Placed;
    var k, me := s.k, s.k.current;
    if k.free != [] || (k.procs[me].isIProcess && k.sysFree != []) {
      QueuesFitElsewhere(k.procs, me, k.procs[me].(envOwned := k.procs[me].envOwned + 1), k.ready, k.blocked);
    } else if !k.procs[me].isIProcess {
      BlockedFits(s);
      SwitchPlacement(s, WithBlocked(k), BlockedOnEnvRequest, RequestStep(s).cont);
    }
  }

  /** The caller queued among the ready processes. */
  function WithReady<P, E>(k: KState<P, E>): KState<P, E>
    requires k.current in k.procs
  {
    k.(ready := PqEnqueue(k.ready, k.procs[k.current].priority, k.current))
  }

  lemma YieldPlacement<P, E>(s: Sys<P, E>)
    requires Table(s) && Placement(s) && s.k.interrupted.None?
    ensures forall l, p | 0 <= l < |s.k.ready| && p in s.k.ready[l] :: p in s.k.procs
    ensures Placement(s.(k := ReleaseProcessor(s.k)))
    ensures Switches(WithReady(s.k), ReleaseProcessor(s.k), Ready)
  {
    var k, me := s.k, s.k.current;
    EnqueuePlaced(k.procs, me, k.procs[me].(state := Ready), k.ready, Ready);
    PlacedElsewhere(k.procs, me, k.procs[me].(state := Ready), k.blocked, BlockedOnEnvRequest);
    assert WithReady(k).ready[k.procs[me].priority] != [];
    SwitchPlacement(s, WithReady(k), Ready, s.cont);
  }

  lemma ChangePriorityPlacement<P, E>(s: Sys<P, E>, pr: int, t: P)
    requires Table(s) && Placement(s) && t in s.k.procs
    ensures Placement(s.(k := ChangePriority(s.k, pr, Some(t)).0))
  {
    hide Placed;
    var k, k' := s.k, ChangePriority(s.k, pr, Some(t)).0;
    ChangePriorityEffect(k, pr, t);
    if k' != k {
      RegradedFits(k, t, pr);
    }
    hide ChangePriority;
  }

  lemma RegradedFits<P, E>(k: KState<P, E>, t: P, pr: int)
    requires QueuesFit(k.procs, k.ready, k.blocked) && t in k.procs && !k.procs[t].isIProcess
    requires 0 <= pr < |k.ready| && pr < |k.blocked| && pr != k.procs[t].priority
    requires 0 <= k.procs[t].priority < |k.ready| && k.procs[t].priority < |k.blocked|
    ensures var k' := Regraded(k, t, pr); QueuesFit(k'.procs, k'.ready, k'.blocked)
  {
    hide Placed, PqEnqueue, PqRemove;
    var pcb := k.procs[t].(priority := pr);
    if k.procs[t].state == Ready {
      MovePlaced(k.procs, t, pcb, k.ready, Ready);
    } else {
      PlacedElsewhere(k.procs, t, pcb, k.ready, Ready);
    }
    if k.procs[t].state == BlockedOnEnvRequest {
      MovePlaced(k.procs, t, pcb, k.blocked, BlockedOnEnvRequest);
    } else {
      PlacedElsewhere(k.procs, t, pcb, k.blocked, BlockedOnEnvRequest);
    }
  }

  // ---- what waits for what ----

  ghost predicate Waiting<P, E>(s: Sys<P, E>) {
    Table(s) && Dispatch(s) && Continuations(s)
  }

  /** s' comes from s by switching from the caller, whose new state and continuation are recorded. */
  ghost predicate SwitchedAway<P, E>(s: Sys<P, E>, k: KState<P, E>, to: ProcState, s': Sys<P, E>)
    requires Table(s) && Dispatch(s)
  {
    var me := s.k.current;
    && s.k.interrupted.None?
    && k.procs == s.k.procs && k.current == me && k.interrupted == None
    && |k.ready| == |s.k.ready| && |k.blocked| == |s.k.blocked|
    && Switches(k, s'.k, to) && s'.idle == s.idle
    && s'.cont.Keys == s.cont.Keys && s'.cont == s.cont[me := s'.cont[me]]
    && match to
       case Ready => s'.cont == s.cont && s.cont[me] == User
       case BlockedOnReceive =>
         me != s.idle && s.k.procs[me].mail == [] && s'.cont[me] == InReceive && s.cont[me] != InRequest
       case BlockedOnEnvRequest => me != s.idle && s'.cont[me] == InRequest && s.cont[me] in {User, InRequest}
       case Executing => false
  }

  lemma SwitchTable<P, E>(s: Sys<P, E>, k: KState<P, E>, to: ProcState, s': Sys<P, E>)
    requires Table(s) && Dispatch(s) && SwitchedAway(s, k, to, s')
    ensures Table(s')
  {
  }

  lemma SwitchContinuations<P, E>(s: Sys<P, E>, k: KState<P, E>, to: ProcState, s': Sys<P, E>)
    requires Waiting(s) && SwitchedAway(s, k, to, s')
    ensures s'.cont.Keys == s'.k.procs.Keys && Continuations(s')
  {
  }

  lemma SwitchWoken<P, E>(s: Sys<P, E>, k: KState<P, E>, to: ProcState, s': Sys<P, E>)
    requires Waiting(s) && SwitchedAway(s, k, to, s')
    ensures s'.cont.Keys == s'.k.procs.Keys
    ensures Woken(s') == Woken(s) - (if to == BlockedOnEnvRequest then {s.k.current} else {})
  {
  }

  lemma YieldKeeps<P, E>(s: Sys<P, E>)
    requires Inv(s) && s.k.interrupted.None? && s.cont[s.k.current] == User
    ensures forall l, p | 0 <= l < |s.k.ready| && p in s.k.ready[l] :: p in s.k.procs
    ensures Inv(s.(k := ReleaseProcessor(s.k)))
  {
    hide Placed, PoolsAgree, MailAgrees, Counted, Owned;
    YieldPlacement(s);
    var s' := s.(k := ReleaseProcessor(s.k));
    SwitchTable(s, WithReady(s.k), Ready, s');
    SwitchContinuations(s, WithReady(s.k), Ready, s');
    SwitchWoken(s, WithReady(s.k), Ready, s');
    NoMoveConserves(s, s');
  }

  lemma ReceiveSwitches<P, E>(s: Sys<P, E>)
    requires Inv(s) && CanRun(s) && s.k.current != s.idle && s.cont[s.k.current] in {User, InReceive}
    requires s.k.procs[s.k.current].mail == [] && !s.k.procs[s.k.current].isIProcess
    ensures Inv(ReceiveStep(s))
  {
    hide Placed, PoolsAgree, MailAgrees, Counted, Owned;
    var s' := ReceiveStep(s);
    ReceivePlacement(s);
    SwitchTable(s, s.k, BlockedOnReceive, s');
    SwitchContinuations(s, s.k, BlockedOnReceive, s');
    SwitchWoken(s, s.k, BlockedOnReceive, s');
    NoMoveConserves(s, s');
  }

  lemma RequestSwitches<P, E>(s: Sys<P, E>)
    requires Inv(s) && CanRun(s) && s.k.current != s.idle && s.cont[s.k.current] in {User, InRequest}
    requires s.k.free == [] && !s.k.procs[s.k.current].isIProcess
    ensures Inv(RequestStep(s))
  {
    hide Placed, PoolsAgree, MailAgrees, Counted, Owned;
    var s' := RequestStep(s);
    RequestPlacement(s);
    SwitchTable(s, WithBlocked(s.k), BlockedOnEnvRequest, s');
    SwitchContinuations(s, WithBlocked(s.k), BlockedOnEnvRequest, s');
    SwitchWoken(s, WithBlocked(s.k), BlockedOnEnvRequest, s');
    NoMoveConserves(s, s');
  }

  /** The caller went on in its own name: only its mailbox, its count and its continuation changed. */
  lemma TakeWaiting<P, E>(s: Sys<P, E>, s': Sys<P, E>)
    requires Waiting(s) && s'.idle == s.idle
    requires s.k.current in s'.k.procs && s'.k.procs == s.k.procs[s.k.current := s'.k.procs[s.k.current]]
    requires var was := s.k.procs[s.k.current];
      s'.k.procs[s.k.current]
        == was.(mail := s'.k.procs[s.k.current].mail, envOwned := s'.k.procs[s.k.current].envOwned)
    requires s'.cont == s.cont[s.k.current := User]
    requires |s'.k.ready| == |s.k.ready| && s'.k.blocked == s.k.blocked
    requires s'.k.current == s.k.current && s'.k.interrupted == s.k.interrupted
    ensures Table(s') && Continuations(s')
    ensures Woken(s') == Woken(s) - {s.k.current}
  {
    TakeContinuations(s, s');
    hide Continuations;
    assert Table(s');
    assert Woken(s') == Woken(s) - {s.k.current};
  }

  lemma TakeContinuations<P, E>(s: Sys<P, E>, s': Sys<P, E>)
    requires Waiting(s) && s'.idle == s.idle
    requires s.k.current in s'.k.procs && s'.k.procs == s.k.procs[s.k.current := s'.k.procs[s.k.current]]
    requires s'.k.procs[s.k.current].state == s.k.procs[s.k.current].state
    requires s'.k.procs[s.k.current].isIProcess == s.k.procs[s.k.current].isIProcess
    requires s'.cont == s.cont[s.k.current := User]
    requires s'.k.current == s.k.current && s'.k.interrupted == s.k.interrupted
    ensures s'.cont.Keys == s'.k.procs.Keys && Continuations(s')
  {
  }

  lemma ReceiveMoves<P, E>(s: Sys<P, E>)
    requires CanRun(s) && MailAgrees(s.k, s.place) && s.k.procs[s.k.current].mail != []
    ensures
      var e := s.k.procs[s.k.current].mail[0];
      e in s.place && Moves(s.k, ReceiveStep(s).k, e, s.place[e], Hands(s.k.current))
  {
    var e := s.k.procs[s.k.current].mail[0];
    assert e in s.k.procs[s.k.current].mail;
    forall p | p in s.k.procs && p != s.k.current
      ensures s.place[e] != Mailbox(p)
    {
    }
  }

  lemma ReceiveGets<P, E>(s: Sys<P, E>)
    requires Inv(s) && CanRun(s) && s.cont[s.k.current] in {User, InReceive}
    requires s.k.procs[s.k.current].mail != []
    ensures Inv(ReceiveStep(s))
  {
    hide Placed, PoolsAgree, MailAgrees, Counted, Owned, Moves;
    var s' := ReceiveStep(s);
    ReceivePlacement(s);
    TakeWaiting(s, s');
    ReceiveMoves(s);
    MoveConserves(s, s', s.k.procs[s.k.current].mail[0], Hands(s.k.current));
  }

  /** The pool k_request_msg_env takes from. */
  function Pool<P, E>(k: KState<P, E>): seq<E> {
    if k.free != [] then k.free else k.sysFree
  }

  lemma RequestMoves<P, E>(s: Sys<P, E>)
    requires CanRun(s) && PoolsAgree(s.k, s.place)
    requires s.k.free != [] || (s.k.procs[s.k.current].isIProcess && s.k.sysFree != [])
    ensures
      var e := Pool(s.k)[0];
      e in s.place && Moves(s.k, RequestStep(s).k, e, s.place[e], Hands(s.k.current))
  {
    assert Pool(s.k)[0] in Pool(s.k);
  }

  lemma RequestGets<P, E>(s: Sys<P, E>)
    requires Inv(s) && CanRun(s) && s.k.current != s.idle && s.cont[s.k.current] in {User, InRequest}
    requires s.k.free != [] || (s.k.procs[s.k.current].isIProcess && s.k.sysFree != [])
    ensures Inv(RequestStep(s))
  {
    hide Placed, PoolsAgree, MailAgrees, Counted, Owned, Moves;
    var s' := RequestStep(s);
    RequestPlacement(s);
    TakeWaiting(s, s');
    RequestMoves(s);
    MoveConserves(s, s', Pool(s.k)[0], Hands(s.k.current));
  }

  // ---- sending and releasing ----

  /** Nobody was switched to or from; at most p became ready, out of a state it waited in. */
  ghost predicate Wakes<P, E>(k: KState<P, E>, k': KState<P, E>, woken: Option<P>) {
    && k'.procs.Keys == k.procs.Keys && |k'.ready| == |k.ready| && |k'.blocked| == |k.blocked|
    && k'.current == k.current && k'.interrupted == k.interrupted
    && (forall p | p in k.procs ::
          && k'.procs[p].pid == k.procs[p].pid && k'.procs[p].priority == k.procs[p].priority
          && k'.procs[p].isIProcess == k.procs[p].isIProcess
          && k'.procs[p].state == if woken == Some(p) then Ready else k.procs[p].state)
  }

  lemma WakesTable<P, E>(s: Sys<P, E>, s': Sys<P, E>, woken: Option<P>)
    requires Table(s) && Wakes(s.k, s'.k, woken) && s'.cont == s.cont && s'.idle == s.idle
    ensures Table(s')
  {
  }

  /** The woken process waited for an envelope, or for the message it now has; mailboxes grew at most. */
  ghost predicate WakesRightly<P, E>(k: KState<P, E>, k': KState<P, E>, woken: Option<P>) {
    && Wakes(k, k', woken)
    && (forall p | p in k.procs && k'.procs[p].state == BlockedOnReceive :: k'.procs[p].mail == k.procs[p].mail)
    && (forall p | p in k.procs && k.procs[p].mail != [] :: k'.procs[p].mail != [])
    && (woken.Some? && woken.value in k.procs ==>
          || k.procs[woken.value].state == BlockedOnEnvRequest
          || (k.procs[woken.value].state == BlockedOnReceive && k'.procs[woken.value].mail != []))
  }

  lemma WakesContinuations<P, E>(s: Sys<P, E>, s': Sys<P, E>, woken: Option<P>)
    requires Waiting(s) && WakesRightly(s.k, s'.k, woken) && s'.cont == s.cont && s'.idle == s.idle
    ensures Continuations(s')
  {
  }

  lemma WakesWoken<P, E>(s: Sys<P, E>, s': Sys<P, E>, woken: Option<P>)
    requires Waiting(s) && WakesRightly(s.k, s'.k, woken) && s'.cont == s.cont
    requires woken.Some? ==> woken.value in s.k.procs
    ensures Woken(s') ==
      Woken(s) + if woken.Some? && s.k.procs[woken.value].state == BlockedOnEnvRequest then {woken.value} else {}
    ensures woken.Some? ==> woken.value !in Woken(s)
  {
    var added := if woken.Some? && s.k.procs[woken.value].state == BlockedOnEnvRequest then {woken.value} else {};
    forall p | p in s.k.procs
      ensures p in Woken(s') <==> p in Woken(s) || p in added
    {
      assert ContinuationFits(s.k.procs[p], s.cont[p]);
    }
  }

  lemma SendMoves<P, E>(s: Sys<P, E>, d: P, e: E)
    requires s.k.current in s.k.procs && d in s.k.procs
    ensures Moves(s.k, SendStep(s, Some(d), Some(e)).k, e, Hands(s.k.current), Mailbox(d))
  {
    hide Handed;
    HandedEffect(s.k, d, e);
  }

  lemma SendWakes<P, E>(s: Sys<P, E>, d: P, e: E)
    requires s.k.current in s.k.procs && d in s.k.procs
    ensures WakesRightly(s.k, SendStep(s, Some(d), Some(e)).k,
                         if s.k.procs[d].state == BlockedOnReceive then Some(d) else None)
    ensures SendStep(s, Some(d), Some(e)).k.blocked == s.k.blocked
  {
    hide Handed, EnvOwnedAfter;
    HandedEffect(s.k, d, e);
  }

  /** A receiver that was woken, or nobody, and the envelopes that processes wait for are as they were. */
  lemma ReceiverWoken<P, E>(s: Sys<P, E>, s': Sys<P, E>, woken: Option<P>)
    requires Waiting(s) && NoLostWakeUp(s) && WakesRightly(s.k, s'.k, woken) && s'.cont == s.cont && s'.idle == s.idle
    requires woken.Some? ==> woken.value in s.k.procs && s.k.procs[woken.value].state == BlockedOnReceive
    requires s'.k.free == s.k.free && s'.k.blocked == s.k.blocked
    ensures Table(s') && Continuations(s') && NoLostWakeUp(s')
  {
    assert Wakes(s.k, s'.k, woken);
    hide Continuations, Dispatch, WakesRightly, Wakes, Woken;
    WakesTable(s, s', woken);
    WakesContinuations(s, s', woken);
    WakesWoken(s, s', woken);
  }

  lemma CurrentIsListed<P, E>(s: Sys<P, E>)
    requires Dispatch(s)
    ensures s.k.current in s.k.procs
  {
  }

  lemma SendKeeps<P, E>(s: Sys<P, E>, d: P, e: E)
    requires Inv(s) && s.k.current != s.idle && s.cont[s.k.current] == User
    requires d in s.k.procs && e in s.place && s.place[e] == Hands(s.k.current)
    ensures Inv(SendStep(s, Some(d), Some(e)))
  {
    hide Placed, Conserved, Counted, Continuations, NoLostWakeUp, Dispatch, WakesRightly, Moves, Handed, Table, CanRun;
    CurrentIsListed(s);
    var s' := SendStep(s, Some(d), Some(e));
    HandedEffect(s.k, d, e);
    SendPlacement(s, d, e);
    SendMoves(s, d, e);
    MoveConserves(s, s', e, Mailbox(d));
    SendWakes(s, d, e);
    ReceiverWoken(s, s', if s.k.procs[d].state == BlockedOnReceive then Some(d) else None);
  }

  lemma ReleaseMoves<P, E>(s: Sys<P, E>, e: E)
    requires CanRun(s) && Placed(s.k.procs, s.k.blocked, BlockedOnEnvRequest)
    ensures Moves(s.k, ReleaseStep(s, Some(e)).k, e, Hands(s.k.current), if e in s.k.sysEnvs then SysPool else FreePool)
  {
    hide PqDequeue, Placed, MakeReady;
    ReleaseWakes(s.k, e);
    ReleaseOwns(s.k, e);
    hide Replenished;
  }

  lemma ReleaseOwns<P, E>(k: KState<P, E>, e: E)
    requires k.current in k.procs && forall l, p | 0 <= l < |k.blocked| && p in k.blocked[l] :: p in k.procs
    ensures
      var k' := Release(k, Some(e)).0;
      && k'.procs.Keys == k.procs.Keys && k'.sysEnvs == k.sysEnvs
      && k'.sysFree == (if e in k.sysEnvs then k.sysFree + [e] else k.sysFree)
      && forall p | p in k.procs ::
           k'.procs[p].envOwned == k.procs[p].envOwned - (if p == k.current then 1 else 0)
           && k'.procs[p].mail == k.procs[p].mail
  {
    DequeueInBounds(k.blocked);
    hide PqDequeue;
  }

  lemma DequeueInBounds<P>(levels: seq<seq<P>>)
    ensures PqDequeue(levels).0.Some? ==> exists l | 0 <= l < |levels| :: PqDequeue(levels).0.value in levels[l]
  {
    var l := FirstNonEmpty(levels);
    if l < |levels| {
      assert levels[l][0] in levels[l];
    }
  }

  lemma ReleaseWakesRightly<P, E>(s: Sys<P, E>, e: E)
    requires CanRun(s) && Placed(s.k.procs, s.k.blocked, BlockedOnEnvRequest)
    ensures WakesRightly(s.k, ReleaseStep(s, Some(e)).k, WokenBy(s.k, e))
  {
    hide Placed, Release, WokenBy;
    ReleaseWakes(s.k, e);
  }

  /** One more envelope in a pool, and the first process that waits for an ordinary one woken. */
  lemma EnvelopeReleased<P, E>(s: Sys<P, E>, s': Sys<P, E>, e: E)
    requires Waiting(s) && NoLostWakeUp(s) && s'.cont == s.cont && s'.idle == s.idle
    requires WakesRightly(s.k, s'.k, WokenBy(s.k, e))
    requires WokenBy(s.k, e).Some? ==>
      WokenBy(s.k, e).value in s.k.procs && s.k.procs[WokenBy(s.k, e).value].state == BlockedOnEnvRequest
    requires WokenBy(s.k, e).None? ==> s'.k.blocked == s.k.blocked && (e in s.k.sysEnvs || !SomeoneBlocked(s.k))
    requires s'.k.free == if e in s.k.sysEnvs then s.k.free else s.k.free + [e]
    ensures Table(s') && Continuations(s') && NoLostWakeUp(s')
  {
    var woken := WokenBy(s.k, e);
    assert Wakes(s.k, s'.k, woken);
    assert woken.Some? ==> e !in s.k.sysEnvs && SomeoneBlocked(s.k) by { DequeueInBounds(s.k.blocked); }
    hide Continuations, Dispatch, WakesRightly, Wakes, Woken, WokenBy;
    WakesTable(s, s', woken);
    WakesContinuations(s, s', woken);
    WakesWoken(s, s', woken);
  }

  lemma ReleaseKeeps<P, E>(s: Sys<P, E>, e: E)
    requires Inv(s) && CanRun(s) && s.k.current != s.idle && s.cont[s.k.current] == User
    requires e in s.place && s.place[e] == Hands(s.k.current)
    ensures Inv(ReleaseStep(s, Some(e)))
  {
    hide Placed, Conserved, Counted, Continuations, NoLostWakeUp, Dispatch, WakesRightly, Moves, Release, WokenBy;
    var s' := ReleaseStep(s, Some(e));
    ReleasePlacement(s, e);
    ReleaseMoves(s, e);
    MoveConserves(s, s', e, if e in s.k.sysEnvs then SysPool else FreePool);
    ReleaseWakes(s.k, e);
    ReleaseWakesRightly(s, e);
    EnvelopeReleased(s, s', e);
  }

  lemma ChangePriorityKeeps<P, E>(s: Sys<P, E>, pr: int, t: P)
    requires Inv(s) && t in s.k.procs
    ensures Inv(s.(k := ChangePriority(s.k, pr, Some(t)).0))
  {
    hide Placed, PoolsAgree, MailAgrees, Counted, Owned, ChangePriority, Continuations, NoLostWakeUp, Dispatch;
    var s' := s.(k := ChangePriority(s.k, pr, Some(t)).0);
    ChangePriorityPlacement(s, pr, t);
    ChangePriorityEffect(s.k, pr, t);
    NoMoveConserves(s, s');
    ChangePriorityWaiting(s, pr, t);
  }

  lemma ChangePriorityEffect<P, E>(k: KState<P, E>, pr: int, t: P)
    requires t in k.procs
    ensures
      var k' := ChangePriority(k, pr, Some(t)).0;
      && k' == k.(procs := k'.procs, ready := k'.ready, blocked := k'.blocked)
      && |k'.ready| == |k.ready| && |k'.blocked| == |k.blocked|
      && t in k'.procs && k'.procs == k.procs[t := k.procs[t].(priority := k'.procs[t].priority)]
      && (k'.blocked != k.blocked ==> k.procs[t].state == BlockedOnEnvRequest)
      && (k'.procs != k.procs ==>
            k.procs[t].pid != NULL_PID && !k.procs[t].isIProcess && 0 <= k'.procs[t].priority < NUM_PRIORITIES)
  {
  }

  lemma ChangePriorityTable<P, E>(s: Sys<P, E>, pr: int, t: P)
    requires Waiting(s) && t in s.k.procs
    ensures
      var s' := s.(k := ChangePriority(s.k, pr, Some(t)).0);
      Table(s') && Continuations(s')
  {
    hide ChangePriority;
    ChangePriorityEffect(s.k, pr, t);
  }

  lemma ChangePriorityWaiting<P, E>(s: Sys<P, E>, pr: int, t: P)
    requires Waiting(s) && NoLostWakeUp(s) && t in s.k.procs && Placed(s.k.procs, s.k.blocked, BlockedOnEnvRequest)
    ensures
      var s' := s.(k := ChangePriority(s.k, pr, Some(t)).0);
      Table(s') && Continuations(s') && NoLostWakeUp(s')
  {
    hide ChangePriority;
    var s' := s.(k := ChangePriority(s.k, pr, Some(t)).0);
    ChangePriorityEffect(s.k, pr, t);
    ChangePriorityTable(s, pr, t);
    hide Continuations, Dispatch;
    assert Woken(s') == Woken(s);
    if s.k.procs[t].state == BlockedOnEnvRequest {
      WaiterIsQueued(s, t);
    }
  }

  lemma WaiterIsQueued<P, E>(s: Sys<P, E>, t: P)
    requires Table(s) && Continuations(s) && Placed(s.k.procs, s.k.blocked, BlockedOnEnvRequest)
    requires t in s.k.procs && s.k.procs[t].state == BlockedOnEnvRequest && !s.k.procs[t].isIProcess
    ensures SomeoneBlocked(s.k)
  {
    assert t != s.idle;
    assert AtLevel(s.k.procs[t], BlockedOnEnvRequest, s.k.procs[t].priority);
    assert t in s.k.blocked[s.k.procs[t].priority];
  }

  lemma InterruptKeeps<P, E>(s: Sys<P, E>, h: P)
    requires Inv(s) && s.k.interrupted.None? && s.cont[s.k.current] == User
    requires h in s.k.procs && s.k.procs[h].isIProcess
    ensures Inv(s.(k := InterruptEnter(s.k, Some(h))))
  {
    hide Placed, PoolsAgree, MailAgrees, Counted, Owned;
    var s' := s.(k := InterruptEnter(s.k, Some(h)));
    assert Placed(s'.k.procs, s'.k.ready, Ready) && Placed(s'.k.procs, s'.k.blocked, BlockedOnEnvRequest);
    NoMoveConserves(s, s');
    assert Woken(s') == Woken(s);
  }

  lemma ReturnKeeps<P, E>(s: Sys<P, E>)
    requires Inv(s) && s.k.interrupted.Some?
    ensures Inv(s.(k := InterruptExit(s.k)))
  {
    hide Placed, PoolsAgree, MailAgrees, Counted, Owned;
    var s' := s.(k := InterruptExit(s.k));
    assert Placed(s'.k.procs, s'.k.ready, Ready) && Placed(s'.k.procs, s'.k.blocked, BlockedOnEnvRequest);
    NoMoveConserves(s, s');
    assert Woken(s') == Woken(s);
  }

  lemma ReceiveKeeps<P, E>(s: Sys<P, E>)
    requires Inv(s) && CanRun(s) && s.k.current != s.idle && s.cont[s.k.current] in {User, InReceive}
    ensures Inv(ReceiveStep(s))
  {
    if s.k.procs[s.k.current].mail != [] {
      ReceiveGets(s);
    } else if !s.k.procs[s.k.current].isIProcess {
      ReceiveSwitches(s);
    }
  }

  lemma RequestKeeps<P, E>(s: Sys<P, E>)
    requires Inv(s) && CanRun(s) && s.k.current != s.idle && s.cont[s.k.current] in {User, InRequest}
    ensures Inv(RequestStep(s))
  {
    if s.k.free != [] || (s.k.procs[s.k.current].isIProcess && s.k.sysFree != []) {
      RequestGets(s);
    } else if !s.k.procs[s.k.current].isIProcess {
      RequestSwitches(s);
    }
  }

  /** Every step from a state of the invariant ends in one. */
  lemma StepKeepsInv<P, E>(s: Sys<P, E>, op: Op<P, E>)
    requires Inv(s) && Enabled(s, op)
    ensures Inv(Step(s, op))
  {
    hide Placed, CanRun, Conserved, Counted, NoLostWakeUp, Receive, Request, ReleaseProcessor;
    if s.k.current != s.idle {
      RunsUnlessIdle(s);
    }
    match op
    case SendOp(d, e) => if d.Some? && e.Some? { SendKeeps(s, d.value, e.value); }
    case ReceiveOp => ReceiveKeeps(s);
    case RequestOp => RequestKeeps(s);
    case ReleaseOp(e) => if e.Some? { ReleaseKeeps(s, e.value); }
    case YieldOp => YieldKeeps(s);
    case ChangePriorityOp(pr, t) => if t.Some? { ChangePriorityKeeps(s, pr, t.value); }
    case ResumeOp => if s.cont[s.k.current] == InReceive { ReceiveKeeps(s); } else { RequestKeeps(s); }
    case InterruptOp(h) => if h.Some? { InterruptKeeps(s, h.value); }
    case ReturnOp => ReturnKeeps(s);
  }
}
