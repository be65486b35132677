/** Which process a switch picks, and how long a ready process can be passed over. */
module KernelDispatch {
  import opened Common
  import opened KernelSpec
  import opened KernelSystem
  import opened KernelPreservation
  import opened KernelRuns

  /** The steps in which the running process gives the processor up. */
  ghost predicate IsSwitch<P, E>(s: Sys<P, E>, op: Op<P, E>)
    requires Inv(s)
  {
    var me := s.k.procs[s.k.current];
    match op
    case YieldOp => true
    case ReceiveOp => me.mail == [] && !me.isIProcess
    case RequestOp => s.k.free == [] && !me.isIProcess
    case ResumeOp => s.cont[s.k.current] == InRequest && s.k.free == []
    case _ => false
  }

  /** The ready queues a switch dequeues from: a process that only yields has joined them. */
  ghost function QueuesAtSwitch<P, E>(s: Sys<P, E>, op: Op<P, E>): seq<seq<P>>
    requires Inv(s)
  {
    if op == YieldOp then WithReady(s.k).ready else s.k.ready
  }

  lemma SwitchDequeues<P, E>(s: Sys<P, E>, op: Op<P, E>)
    requires Inv(s) && Enabled(s, op) && IsSwitch(s, op)
    ensures PqDequeue(QueuesAtSwitch(s, op)) == (Some(Step(s, op).k.current), Step(s, op).k.ready)
    ensures Step(s, op).k.interrupted.None?
  {
    hide Placed, Conserved, Counted, NoLostWakeUp;
    if op == YieldOp {
      assert s.k.procs[s.k.current].priority < |s.k.ready|;
      assert WithReady(s.k).ready[s.k.procs[s.k.current].priority] != [];
    } else {
      RunsUnlessIdle(s);
    }
  }

  lemma DequeuedFrom<P, E>(s: Sys<P, E>, op: Op<P, E>)
    requires Inv(s) && Enabled(s, op) && IsSwitch(s, op)
    ensures
      var q, next := QueuesAtSwitch(s, op), Step(s, op).k.current;
      && FirstNonEmpty(q) < |q| == NUM_PRIORITIES + 1
      && next in s.k.procs && s.k.procs[next].priority == FirstNonEmpty(q)
      && Step(s, op).k.ready == q[FirstNonEmpty(q) := q[FirstNonEmpty(q)][1..]]
  {
    SwitchDequeues(s, op);
    hide Conserved, Counted, NoLostWakeUp, Step, Continuations;
    var q := QueuesAtSwitch(s, op);
    var l := FirstNonEmpty(q);
    assert q[l][0] in s.k.ready[l] || (q[l][0] == s.k.current && l == s.k.procs[s.k.current].priority);
  }

  lemma YieldSwitches<P, E>(s: Sys<P, E>)
    requires Table(s) && Placement(s) && s.k.interrupted.None?
    ensures forall l, p | 0 <= l < |s.k.ready| && p in s.k.ready[l] :: p in s.k.procs
    ensures Switches(WithReady(s.k), ReleaseProcessor(s.k), Ready)
  {
    YieldPlacement(s);
  }

  lemma SwitchKeepsPriority<P, E>(s: Sys<P, E>, op: Op<P, E>)
    requires Inv(s) && Enabled(s, op) && IsSwitch(s, op)
    ensures
      var k' := Step(s, op).k;
      k'.procs.Keys == s.k.procs.Keys && forall p | p in s.k.procs :: k'.procs[p].priority == s.k.procs[p].priority
  {
    hide Placed, Conserved, Counted, NoLostWakeUp, CanRun, ProcessSwitch, ReleaseProcessor, PqEnqueue;
    if op == YieldOp {
      YieldSwitches(s);
    } else {
      RunsUnlessIdle(s);
      hide Continuations;
      if op == ReceiveOp { ReceivePlacement(s); } else { RequestPlacement(s); }
    }
  }

  /** After a switch no ready process has a better priority than the one that got the processor. */
  lemma SwitchPicksBest<P, E>(s: Sys<P, E>, op: Op<P, E>, p: P)
    requires Inv(s) && Enabled(s, op) && IsSwitch(s, op)
    requires
      var k' := Step(s, op).k;
      p in k'.procs && AtLevel(k'.procs[p], Ready, k'.procs[p].priority)
    ensures
      var k' := Step(s, op).k;
      k'.current in k'.procs && k'.procs[k'.current].priority <= k'.procs[p].priority
  {
    hide Conserved, Counted, NoLostWakeUp, Step, Continuations, IsSwitch, Enabled, QueuesAtSwitch;
    DequeuedFrom(s, op);
    SwitchKeepsPriority(s, op);
    StepKeepsInv(s, op);
    var k' := Step(s, op).k;
    assert p in k'.ready[k'.procs[p].priority];
  }

  // ---- bounded waiting ----

  /** How many processes are ahead of p in a level. */
  function Ahead<P(==)>(q: seq<P>, p: P): (n: nat)
    ensures p in q ==> n < |q| && q[n] == p
  {
    if q == [] || q[0] == p then 0 else 1 + Ahead(q[1..], p)
  }

  lemma {:induction false} AheadAfterAppend<P>(q: seq<P>, p: P, x: P)
    requires p in q
    ensures Ahead(q + [x], p) == Ahead(q, p)
  {
    assert (q + [x])[0] == q[0] && (q + [x])[1..] == q[1..] + [x];
    if q[0] != p {
      AheadAfterAppend(q[1..], p, x);
    }
  }

  lemma {:induction false} AheadAfterRemove<P>(q: seq<P>, p: P, x: P)
    requires p in q && x != p
    ensures p in Without(q, x) && Ahead(Without(q, x), p) <= Ahead(q, p)
  {
    if q[0] != p && q[0] != x {
      AheadAfterRemove(q[1..], p, x);
      assert Without(q, x)[1..] == Without(q[1..], x);
    }
  }

  /** When the processor is given up, nothing better than level l is ready. */
  ghost predicate NothingBetter<P, E>(s: Sys<P, E>, op: Op<P, E>, l: nat)
    requires Inv(s)
  {
    IsSwitch(s, op) ==> forall l' | 0 <= l' < l && l' < |QueuesAtSwitch(s, op)| :: QueuesAtSwitch(s, op)[l'] == []
  }

  /** p keeps its priority, and whenever the processor is given up nothing better than level l is ready. */
  ghost predicate Undisturbed<P, E>(s: Sys<P, E>, ops: seq<Op<P, E>>, p: P, l: nat)
    requires Inv(s) && Runnable(s, ops) && l <= NUM_PRIORITIES
    decreases |ops|
  {
    ops == [] ||
    (StepKeepsInv(s, ops[0]);
     && (ops[0].ChangePriorityOp? ==> ops[0].target != Some(p))
     && NothingBetter(s, ops[0], l)
     && Undisturbed(Step(s, ops[0]), ops[1..], p, l))
  }

  ghost function Switchings<P, E>(s: Sys<P, E>, ops: seq<Op<P, E>>): nat
    requires Inv(s) && Runnable(s, ops)
    decreases |ops|
  {
    if ops == [] then 0
    else (StepKeepsInv(s, ops[0]);
          (if IsSwitch(s, ops[0]) then 1 else 0) + Switchings(Step(s, ops[0]), ops[1..]))
  }

  /** Some state of the run has p on the processor. */
  ghost predicate GetsProcessor<P, E>(s: Sys<P, E>, ops: seq<Op<P, E>>, p: P)
    requires Inv(s) && Runnable(s, ops)
    decreases |ops|
  {
    s.k.current == p || (ops != [] && (StepKeepsInv(s, ops[0]); GetsProcessor(Step(s, ops[0]), ops[1..], p)))
  }

  /** p stays in level l of the queues, with no more processes ahead of it. */
  predicate KeepsTurn<P(==)>(q: seq<seq<P>>, q': seq<seq<P>>, p: P, l: nat) {
    l < |q| && p in q[l] ==> l < |q'| && p in q'[l] && Ahead(q'[l], p) <= Ahead(q[l], p)
  }

  lemma EnqueueKeepsTurn<P>(q: seq<seq<P>>, pr: int, x: P, p: P, l: nat)
    ensures KeepsTurn(q, PqEnqueue(q, pr, x), p, l)
  {
    if l < |q| && p in q[l] {
      AheadAfterAppend(q[l], p, x);
    }
  }

  lemma MoveKeepsTurn<P>(q: seq<seq<P>>, from: int, to: int, x: P, p: P, l: nat)
    requires x != p
    ensures KeepsTurn(q, PqEnqueue(PqRemove(q, from, x), to, x), p, l)
  {
    if l < |q| && p in q[l] {
      AheadAfterRemove(q[l], p, x);
    }
    EnqueueKeepsTurn(PqRemove(q, from, x), to, x, p, l);
  }

  lemma SendKeepsTurn<P, E>(k: KState<P, E>, d: P, e: E, p: P, l: nat)
    requires k.current in k.procs && d in k.procs
    ensures KeepsTurn(k.ready, Send(k, Some(d), Some(e)).0.ready, p, l)
  {
    hide PqEnqueue;
    EnqueueKeepsTurn(k.ready, k.procs[d].priority, d, p, l);
  }

  lemma ReleaseKeepsTurn<P, E>(k: KState<P, E>, e: E, p: P, l: nat)
    requires k.current in k.procs
    requires forall l, p | 0 <= l < |k.blocked| && p in k.blocked[l] :: p in k.procs
    ensures KeepsTurn(k.ready, Release(k, Some(e)).0.ready, p, l)
  {
    var b := FirstNonEmpty(k.blocked);
    if b < |k.blocked| {
      assert k.blocked[b][0] in k.blocked[b];
      EnqueueKeepsTurn(k.ready, k.procs[k.blocked[b][0]].priority, k.blocked[b][0], p, l);
    }
  }

  lemma ChangePriorityKeepsTurn<P, E>(k: KState<P, E>, pr: int, t: P, p: P, l: nat)
    requires t in k.procs && t != p
    ensures KeepsTurn(k.ready, ChangePriority(k, pr, Some(t)).0.ready, p, l)
  {
    MoveKeepsTurn(k.ready, k.procs[t].priority, pr, t, p, l);
  }

  /** A step that is no switch leaves a ready p ready, with no more processes ahead of it. */
  lemma NoSwitchKeepsTurn<P, E>(s: Sys<P, E>, op: Op<P, E>, p: P, l: nat)
    requires Inv(s) && Enabled(s, op) && !IsSwitch(s, op)
    requires op.ChangePriorityOp? ==> op.target != Some(p)
    ensures KeepsTurn(s.k.ready, Step(s, op).k.ready, p, l)
  {
    hide Placed, Conserved, Counted, NoLostWakeUp;
    if op.ReleaseOp? {
      RunsUnlessIdle(s);
    }
    assert KeepsTurn(s.k.ready, s.k.ready, p, l);
    hide KeepsTurn;
    match op
    case SendOp(d, e) => if d.Some? && e.Some? { SendKeepsTurn(s.k, d.value, e.value, p, l); }
    case ReleaseOp(e) => if e.Some? { ReleaseKeepsTurn(s.k, e.value, p, l); }
    case ChangePriorityOp(pr, t) => if t.Some? { ChangePriorityKeepsTurn(s.k, pr, t.value, p, l); }
    case _ =>
  }

  /** A switch with nothing better ready takes the front of level l. */
  lemma SwitchAdvancesTurn<P, E>(s: Sys<P, E>, op: Op<P, E>, p: P, l: nat)
    requires Inv(s) && Enabled(s, op) && IsSwitch(s, op)
    requires l < |s.k.ready| && p in s.k.ready[l]
    requires NothingBetter(s, op, l)
    ensures
      var s' := Step(s, op);
      || s'.k.current == p
      || (l < |s'.k.ready| && p in s'.k.ready[l] && Ahead(s'.k.ready[l], p) + 1 <= Ahead(s.k.ready[l], p))
  {
    hide Placement, Conserved, Counted, NoLostWakeUp, Continuations, Step, Enabled, IsSwitch, QueuesAtSwitch, PqDequeue;
    DequeuedFrom(s, op);
    SwitchDequeues(s, op);
    QueuesKeepTurn(s, op, p, l);
    FrontIsTaken(QueuesAtSwitch(s, op), p, l);
    PqDequeueIs(QueuesAtSwitch(s, op));
  }

  lemma QueuesKeepTurn<P, E>(s: Sys<P, E>, op: Op<P, E>, p: P, l: nat)
    requires Inv(s)
    ensures KeepsTurn(s.k.ready, QueuesAtSwitch(s, op), p, l)
  {
    hide Placed, Conserved, Counted, NoLostWakeUp, Continuations, PqEnqueue;
    EnqueueKeepsTurn(s.k.ready, s.k.procs[s.k.current].priority, s.k.current, p, l);
  }

  lemma FrontIsTaken<P>(q: seq<seq<P>>, p: P, l: nat)
    requires l < |q| && p in q[l] && forall l' | 0 <= l' < l :: q[l'] == []
    ensures FirstNonEmpty(q) == l && (q[l][0] != p ==> p in q[l][1..] && Ahead(q[l][1..], p) + 1 == Ahead(q[l], p))
  {
    assert FirstNonEmpty(q) == l;
    if q[l][0] != p {
      assert q[l] == [q[l][0]] + q[l][1..];
    }
  }

  lemma PqDequeueIs<P>(q: seq<seq<P>>)
    ensures FirstNonEmpty(q) < |q| ==>
      PqDequeue(q) == (Some(q[FirstNonEmpty(q)][0]), q[FirstNonEmpty(q) := q[FirstNonEmpty(q)][1..]])
  {
  }

  /** A process with i others ahead of it in its level gets the processor within i + 1 switches. */
  lemma {:induction false} WaitIsBounded<P, E>(s: Sys<P, E>, ops: seq<Op<P, E>>, p: P, l: nat)
    requires Inv(s) && Runnable(s, ops)
    requires l <= NUM_PRIORITIES && p in s.k.ready[l]
    requires Undisturbed(s, ops, p, l)
    requires Ahead(s.k.ready[l], p) < Switchings(s, ops)
    ensures GetsProcessor(s, ops, p)
    decreases |ops|
  {
    hide Placement, Continuations, Conserved, Counted, NoLostWakeUp, Step, IsSwitch, Enabled, QueuesAtSwitch;
    var s' := (StepKeepsInv(s, ops[0]); Step(s, ops[0]));
    StepKeepsInv(s, ops[0]);
    if IsSwitch(s, ops[0]) {
      SwitchAdvancesTurn(s, ops[0], p, l);
    } else {
      NoSwitchKeepsTurn(s, ops[0], p, l);
    }
    if s'.k.current != p {
      WaitIsBounded(s', ops[1..], p, l);
    }
  }
}
