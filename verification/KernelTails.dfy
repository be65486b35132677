/**
 What the transition system does not see: the tail of a level that k_change_priority has left on a block outside it.
 A Stale value names those levels, and a call goes wrong if and only if it enqueues at one of them.
 */
module KernelTails {
  import opened Common
  import opened KernelSpec
  import opened KernelSystem

  /** The levels of the ready and of the blocked queues whose tail is on a block outside; none of them is empty. */
  datatype Stale = Stale(ready: set<int>, blocked: set<int>)

  const NONE_STALE := Stale({}, {})

  /** A level that has been emptied no longer matters: the next enqueue there does not read tail. */
  function Kept<P>(levels: seq<seq<P>>, stale: set<int>): (r: set<int>)
    ensures r <= stale
  {
    set l | l in stale && 0 <= l < |levels| && levels[l] != []
  }

  /** What is stale after a removal at level l, which may lose the tail of the level. */
  function AfterRemoval<P>(levels: seq<seq<P>>, stale: set<int>, l: int, lost: bool): set<int> {
    Kept(levels, stale) + if lost then {l} else {}
  }

  function StillStale<P, E>(k: KState<P, E>, stale: Stale): Stale {
    Stale(Kept(k.ready, stale.ready), Kept(k.blocked, stale.blocked))
  }

  /** The block that a call enqueues, and at which level. */
  datatype Queueing<+P> = Nowhere | AtReady(p: P, level: int) | AtBlocked(p: P, level: int)

  predicate Misses<P>(q: Queueing<P>, stale: Stale) {
    match q
    case Nowhere => false
    case AtReady(_, l) => l in stale.ready
    case AtBlocked(_, l) => l in stale.blocked
  }

  /** The block is at its level. */
  predicate Listed<P(==), E>(q: Queueing<P>, k: KState<P, E>) {
    match q
    case Nowhere => true
    case AtReady(p, l) => 0 <= l < |k.ready| && p in k.ready[l]
    case AtBlocked(p, l) => 0 <= l < |k.blocked| && p in k.blocked[l]
  }

  function SendQueues<P, E>(k: KState<P, E>, dest: Option<P>, env: Option<E>): Queueing<P>
    requires dest.Some? ==> dest.value in k.procs
  {
    if env.Some? && dest.Some? && k.procs[dest.value].state == BlockedOnReceive then
      AtReady(dest.value, k.procs[dest.value].priority)
    else Nowhere
  }

  function RequestQueues<P, E>(k: KState<P, E>): Queueing<P>
    requires k.current in k.procs
  {
    var me := k.procs[k.current];
    if k.free == [] && !me.isIProcess then AtBlocked(k.current, me.priority) else Nowhere
  }

  /** The first process that waits for an envelope goes to the ready queues. */
  function WokenQueues<P, E>(k: KState<P, E>): Queueing<P>
    requires forall l, p | 0 <= l < |k.blocked| && p in k.blocked[l] :: p in k.procs
  {
    var woken := PqDequeue(k.blocked).0;
    if woken.Some? then AtReady(woken.value, k.procs[woken.value].priority) else Nowhere
  }

  function ReleaseQueues<P, E>(k: KState<P, E>, env: Option<E>): Queueing<P>
    requires forall l, p | 0 <= l < |k.blocked| && p in k.blocked[l] :: p in k.procs
  {
    if env.Some? && env.value !in k.sysEnvs then WokenQueues(k) else Nowhere
  }

  function YieldQueues<P, E>(k: KState<P, E>): Queueing<P>
    requires k.current in k.procs
  {
    AtReady(k.current, k.procs[k.current].priority)
  }

  function MoveQueues<P, E>(k: KState<P, E>, p: P, priority: int): Queueing<P>
    requires p in k.procs
  {
    match k.procs[p].state
    case Ready => AtReady(p, priority)
    case BlockedOnEnvRequest => AtBlocked(p, priority)
    case _ => Nowhere
  }

  /** The calls of k_change_priority that change a priority. */
  predicate Moves<P, E>(k: KState<P, E>, priority: int, target: Option<P>)
    requires target.Some? ==> target.value in k.procs
  {
    && 0 <= priority < NUM_PRIORITIES && target.Some?
    && var pcb := k.procs[target.value];
       !pcb.isIProcess && pcb.pid > NULL_PID && pcb.priority != priority
  }

  function ChangeQueues<P, E>(k: KState<P, E>, priority: int, target: Option<P>): Queueing<P>
    requires target.Some? ==> target.value in k.procs
  {
    if Moves(k, priority, target) then MoveQueues(k, target.value, priority) else Nowhere
  }

  /** The level that moving p leaves with its tail on p. */
  function StrandedBy<P(==), E>(k: KState<P, E>, p: P): Stale
    requires p in k.procs
  {
    var pcb := k.procs[p];
    Stale(if pcb.state == Ready && LastOfSeveral(k.ready, pcb.priority, p) then {pcb.priority} else {},
          if pcb.state == BlockedOnEnvRequest && LastOfSeveral(k.blocked, pcb.priority, p) then {pcb.priority} else {})
  }

  function Stranded<P(==), E>(k: KState<P, E>, priority: int, target: Option<P>): Stale
    requires target.Some? ==> target.value in k.procs
  {
    if Moves(k, priority, target) then StrandedBy(k, target.value) else NONE_STALE
  }

  function Both(a: Stale, b: Stale): Stale {
    Stale(a.ready + b.ready, a.blocked + b.blocked)
  }

  // ---- one step ----

  ghost function Queues<P, E>(s: Sys<P, E>, op: Op<P, E>): Queueing<P>
    requires Inv(s) && Enabled(s, op)
  {
    match op
    case SendOp(d, e) => SendQueues(s.k, d, e)
    case RequestOp => RequestQueues(s.k)
    case ReleaseOp(e) => ReleaseQueues(s.k, e)
    case YieldOp => YieldQueues(s.k)
    case ChangePriorityOp(pr, t) => ChangeQueues(s.k, pr, t)
    case ResumeOp => if s.cont[s.k.current] == InRequest then RequestQueues(s.k) else Nowhere
    case _ => Nowhere
  }

  ghost function After<P, E>(s: Sys<P, E>, op: Op<P, E>, stale: Stale): Stale
    requires Inv(s) && Enabled(s, op)
  {
    var still := StillStale(Step(s, op).k, stale);
    if op.ChangePriorityOp? then Both(still, Stranded(s.k, op.priority, op.target)) else still
  }

  lemma AtTheEnd<P>(levels: seq<seq<P>>, l: int, p: P)
    requires 0 <= l < |levels|
    ensures p in PqEnqueue(levels, l, p)[l] && |PqEnqueue(levels, l, p)| == |levels|
  {
    assert PqEnqueue(levels, l, p)[l][|levels[l]|] == p;
  }

  lemma DequeueLeavesEnd<P>(levels: seq<seq<P>>, l: int, p: P)
    requires 0 <= l < |levels| && levels[l] != []
    ensures p in PqDequeue(PqEnqueue(levels, l, p)).1[l] && |PqDequeue(PqEnqueue(levels, l, p)).1| == |levels|
  {
    var more := PqEnqueue(levels, l, p);
    var m := FirstNonEmpty(more);
    assert more[l] == levels[l] + [p];
    assert m < |more|;
    var rest := PqDequeue(more).1[l];
    assert rest[|rest| - 1] == p;
  }

  /** The level that the block is to go to is not empty. */
  predicate NotEmpty<P, E>(q: Queueing<P>, k: KState<P, E>) {
    match q
    case Nowhere => true
    case AtReady(_, l) => 0 <= l < |k.ready| && k.ready[l] != []
    case AtBlocked(_, l) => 0 <= l < |k.blocked| && k.blocked[l] != []
  }

  lemma SendLists<P, E>(k: KState<P, E>, dest: Option<P>, env: Option<E>)
    requires k.current in k.procs && (dest.Some? ==> dest.value in k.procs) && NotEmpty(SendQueues(k, dest, env), k)
    ensures Listed(SendQueues(k, dest, env), Send(k, dest, env).0)
  {
    hide PqEnqueue;
    if SendQueues(k, dest, env).AtReady? {
      AtTheEnd(k.ready, k.procs[dest.value].priority, dest.value);
    }
  }

  lemma ReleaseLists<P, E>(k: KState<P, E>, env: Option<E>)
    requires k.current in k.procs && forall l, p | 0 <= l < |k.blocked| && p in k.blocked[l] :: p in k.procs
    requires NotEmpty(ReleaseQueues(k, env), k)
    ensures Listed(ReleaseQueues(k, env), Release(k, env).0)
  {
    hide PqEnqueue, PqDequeue;
    match ReleaseQueues(k, env)
    case AtReady(p, l) => AtTheEnd(k.ready, l, p);
    case _ =>
  }

  lemma RequestLists<P, E>(k: KState<P, E>)
    requires k.current in k.procs && (k.procs[k.current].isIProcess || SomeoneReady(k))
    requires forall l, p | 0 <= l < |k.ready| && p in k.ready[l] :: p in k.procs
    requires NotEmpty(RequestQueues(k), k)
    ensures Listed(RequestQueues(k), Request(k).0)
  {
    hide PqEnqueue, PqDequeue;
    if RequestQueues(k).AtBlocked? {
      AtTheEnd(k.blocked, k.procs[k.current].priority, k.current);
    }
  }

  lemma YieldLists<P, E>(k: KState<P, E>)
    requires k.current in k.procs && NotEmpty(YieldQueues(k), k)
    requires forall l, p | 0 <= l < |k.ready| && p in k.ready[l] :: p in k.procs
    ensures Listed(YieldQueues(k), ReleaseProcessor(k))
  {
    hide PqEnqueue, PqDequeue;
    DequeueLeavesEnd(k.ready, k.procs[k.current].priority, k.current);
  }

  lemma ChangeLists<P, E>(k: KState<P, E>, priority: int, target: Option<P>)
    requires (target.Some? ==> target.value in k.procs) && NotEmpty(ChangeQueues(k, priority, target), k)
    ensures Listed(ChangeQueues(k, priority, target), ChangePriority(k, priority, target).0)
  {
    hide PqEnqueue;
    if Moves(k, priority, target) {
      var (p, source) := (target.value, k.procs[target.value].priority);
      if 0 <= priority < |k.ready| {
        AtTheEnd(PqRemove(k.ready, source, p), priority, p);
      }
      if 0 <= priority < |k.blocked| {
        AtTheEnd(PqRemove(k.blocked, source, p), priority, p);
      }
    }
  }

  lemma StaleIsNotEmpty<P, E>(q: Queueing<P>, k: KState<P, E>, stale: Stale)
    requires StillStale(k, stale) == stale && Misses(q, stale)
    ensures NotEmpty(q, k)
  {
    match q
    case AtReady(_, l) => assert l in Kept(k.ready, stale.ready);
    case AtBlocked(_, l) => assert l in Kept(k.blocked, stale.blocked);
  }

  /** In the transition system the block comes to its level, stale or not. */
  lemma StepLists<P, E>(s: Sys<P, E>, op: Op<P, E>, stale: Stale)
    requires Inv(s) && Enabled(s, op) && StillStale(s.k, stale) == stale && Misses(Queues(s, op), stale)
    ensures Listed(Queues(s, op), Step(s, op).k)
  {
    hide Conserved, Counted, NoLostWakeUp, NotEmpty, Listed, StillStale;
    hide SendQueues, RequestQueues, ReleaseQueues, YieldQueues, ChangeQueues;
    hide Send, Request, Release, ReleaseProcessor, ChangePriority;
    StaleIsNotEmpty(Queues(s, op), s.k, stale);
    if s.k.current != s.idle {
      RunsUnlessIdle(s);
    }
    match op
    case SendOp(d, e) => SendLists(s.k, d, e);
    case ReleaseOp(e) => ReleaseLists(s.k, e);
    case YieldOp => YieldLists(s.k);
    case ChangePriorityOp(pr, t) => ChangeLists(s.k, pr, t);
    case _ => RequestLists(s.k);
  }
}
