/**
 The kernel's tables as values, and what each primitive does to them.

 P stands for the address of a process control block and E for the address of an
 envelope: the class Kernel (KernelHeap.dfy) instantiates them with object references.
 */
module KernelSpec {
  import opened Common

  datatype Proc<E> = Proc(
    pid: int, priority: int, state: ProcState, isIProcess: bool, mail: seq<E>, envOwned: int)

  datatype Header = Header(destPid: int, sendPid: int)

  datatype KState<P, E> = KState(
    procs: map<P, Proc<E>>,
    ready: seq<seq<P>>,
    blocked: seq<seq<P>>,
    free: seq<E>,
    sysFree: seq<E>,
    sysEnvs: set<E>,
    headers: map<E, Header>,
    current: P,
    interrupted: Option<P>)

  // ---- priority queues: an array of FIFOs, level 0 first ----

  /** The level proc_pq_dequeue takes from; |levels| when every level is empty. */
  function FirstNonEmpty<P>(levels: seq<seq<P>>): (l: nat)
    ensures l <= |levels|
    ensures forall i | 0 <= i < l :: levels[i] == []
    ensures l < |levels| ==> levels[l] != []
  {
    if levels == [] then 0
    else if levels[0] != [] then 0
    else 1 + FirstNonEmpty(levels[1..])
  }

  function PqEnqueue<P>(levels: seq<seq<P>>, priority: int, p: P): seq<seq<P>> {
    if 0 <= priority < |levels| then levels[priority := levels[priority] + [p]] else levels
  }

  function PqDequeue<P>(levels: seq<seq<P>>): (Option<P>, seq<seq<P>>) {
    var l := FirstNonEmpty(levels);
    if l == |levels| then (None, levels)
    else (Some(levels[l][0]), levels[l := levels[l][1..]])
  }

  function Without<P(==)>(q: seq<P>, p: P): (r: seq<P>)
    ensures forall x :: x in r ==> x in q
  {
    if q == [] then []
    else if q[0] == p then q[1..]
    else [q[0]] + Without(q[1..], p)
  }

  function PqRemove<P(==)>(levels: seq<seq<P>>, priority: int, p: P): seq<seq<P>> {
    if 0 <= priority < |levels| then levels[priority := Without(levels[priority], p)] else levels
  }

  // ---- small updates ----

  function WithState<P, E>(k: KState<P, E>, p: P, st: ProcState): KState<P, E>
    requires p in k.procs
  {
    k.(procs := k.procs[p := k.procs[p].(state := st)])
  }

  function WithOwned<P, E>(k: KState<P, E>, p: P, delta: int): KState<P, E>
    requires p in k.procs
  {
    k.(procs := k.procs[p := k.procs[p].(envOwned := k.procs[p].envOwned + delta)])
  }

  function WithMail<P, E>(k: KState<P, E>, p: P, mail: seq<E>): KState<P, E>
    requires p in k.procs
  {
    k.(procs := k.procs[p := k.procs[p].(mail := mail)])
  }

  /** An envelope added to, and the oldest one taken from, the mailbox of p. */
  function Delivered<P, E>(k: KState<P, E>, p: P, e: E): KState<P, E>
    requires p in k.procs
  {
    WithMail(k, p, k.procs[p].mail + [e])
  }

  function Collected<P, E>(k: KState<P, E>, p: P): KState<P, E>
    requires p in k.procs && k.procs[p].mail != []
  {
    WithMail(k, p, k.procs[p].mail[1..])
  }

  /** state = P_READY followed by proc_pq_enqueue(ready_pq, p). */
  function MakeReady<P, E>(k: KState<P, E>, p: P): KState<P, E>
    requires p in k.procs
  {
    WithState(k, p, Ready).(ready := PqEnqueue(k.ready, k.procs[p].priority, p))
  }

  predicate SomeoneReady<P, E>(k: KState<P, E>) {
    exists l | 0 <= l < |k.ready| :: k.ready[l] != []
  }

  lemma DequeueFinds<P>(levels: seq<seq<P>>)
    ensures (exists l | 0 <= l < |levels| :: levels[l] != []) <==> PqDequeue(levels).0.Some?
    ensures PqDequeue(levels).0.None? ==> PqDequeue(levels).1 == levels
  {
  }

  // ---- k_scheduler.c ----

  function ProcessSwitch<P, E>(k: KState<P, E>, to: ProcState): KState<P, E>
    requires k.current in k.procs
    requires SomeoneReady(k)
    requires forall l, p | 0 <= l < |k.ready| && p in k.ready[l] :: p in k.procs
  {
    var (next, rest) := PqDequeue(k.ready);
    WithState(WithState(k, k.current, to), next.value, Executing).(ready := rest, current := next.value)
  }

  // ---- k_primitives.c ----

  /** An envelope addressed to d and put into its mailbox, and the counts of both processes adjusted. */
  function Posted<P, E>(k: KState<P, E>, d: P, e: E): KState<P, E>
    requires k.current in k.procs && d in k.procs
  {
    var addressed := k.(headers := k.headers[e := Header(k.procs[d].pid, k.procs[k.current].pid)]);
    WithOwned(WithOwned(Delivered(addressed, d, e), d, 1), k.current, -1)
  }

  function Handed<P, E>(k: KState<P, E>, d: P, e: E): KState<P, E>
    requires k.current in k.procs && d in k.procs
  {
    var k' := Posted(k, d, e);
    if k'.procs[d].state == BlockedOnReceive then MakeReady(k', d) else k'
  }

  function Send<P, E>(k: KState<P, E>, dest: Option<P>, env: Option<E>): (KState<P, E>, int)
    requires k.current in k.procs
    requires dest.Some? ==> dest.value in k.procs
  {
    if env.None? then (k, ERROR_NULL_ARG)
    else if dest.None? then (k, ERROR_ILLEGAL_ARG)
    else (Handed(k, dest.value, env.value), CODE_SUCCESS)
  }

  /** How one evaluation of a blocking loop's test ended. */
  datatype Attempt<+E> = Got(env: E) | GotNull | Switched

  /** One turn of the loop of k_receive_message. */
  function Receive<P, E>(k: KState<P, E>): (KState<P, E>, Attempt<E>)
    requires k.current in k.procs
    requires k.procs[k.current].isIProcess || SomeoneReady(k)
    requires forall l, p | 0 <= l < |k.ready| && p in k.ready[l] :: p in k.procs
  {
    var me := k.procs[k.current];
    if me.mail != [] then (Collected(k, k.current), Got(me.mail[0]))
    else if me.isIProcess then (k, GotNull)
    else (ProcessSwitch(k, BlockedOnReceive), Switched)
  }

  /** One turn of k_request_msg_env, from its start or from the test of its inner loop. */
  function Request<P, E>(k: KState<P, E>): (KState<P, E>, Attempt<E>)
    requires k.current in k.procs
    requires k.procs[k.current].isIProcess || SomeoneReady(k)
    requires forall l, p | 0 <= l < |k.ready| && p in k.ready[l] :: p in k.procs
  {
    var me := k.procs[k.current];
    if k.free != [] then (WithOwned(k, k.current, 1).(free := k.free[1..]), Got(k.free[0]))
    else if me.isIProcess && k.sysFree != [] then
      (WithOwned(k, k.current, 1).(sysFree := k.sysFree[1..]), Got(k.sysFree[0]))
    else if me.isIProcess then (k, GotNull)
    else
      var k1 := k.(blocked := PqEnqueue(k.blocked, me.priority, k.current));
      assert SomeoneReady(k1) by { var l :| 0 <= l < |k.ready| && k.ready[l] != []; assert k1.ready[l] != []; }
      (ProcessSwitch(k1, BlockedOnEnvRequest), Switched)
  }

  /** An ordinary envelope back in its pool, and the first process waiting for one made ready. */
  function Replenished<P, E>(k: KState<P, E>, e: E): KState<P, E>
    requires forall l, p | 0 <= l < |k.blocked| && p in k.blocked[l] :: p in k.procs
  {
    var k1 := k.(free := k.free + [e]);
    var (woken, rest) := PqDequeue(k1.blocked);
    if woken.None? then k1 else MakeReady(k1.(blocked := rest), woken.value)
  }

  function Release<P, E>(k: KState<P, E>, env: Option<E>): (KState<P, E>, int)
    requires k.current in k.procs
    requires forall l, p | 0 <= l < |k.blocked| && p in k.blocked[l] :: p in k.procs
  {
    if env.None? then (k, ERROR_NULL_ARG)
    else if env.value in k.sysEnvs then
      (WithOwned(k.(sysFree := k.sysFree + [env.value]), k.current, -1), CODE_SUCCESS)
    else (WithOwned(Replenished(k, env.value), k.current, -1), CODE_SUCCESS)
  }

  function ReleaseProcessor<P, E>(k: KState<P, E>): KState<P, E>
    requires k.current in k.procs
    requires 0 <= k.procs[k.current].priority < |k.ready|
    requires forall l, p | 0 <= l < |k.ready| && p in k.ready[l] :: p in k.procs
  {
    var pr := k.procs[k.current].priority;
    var k1 := k.(ready := PqEnqueue(k.ready, pr, k.current));
    assert k1.ready[pr] != [];
    ProcessSwitch(k1, Ready)
  }

  function Reprioritized<P, E>(k: KState<P, E>, p: P, priority: int): KState<P, E>
    requires p in k.procs
  {
    k.(procs := k.procs[p := k.procs[p].(priority := priority)])
  }

  /** p moved to the end of its new level of the queues it is in. */
  function MovedReady<P, E>(k: KState<P, E>, p: P, priority: int): KState<P, E>
    requires p in k.procs
  {
    Reprioritized(k, p, priority).(ready := PqEnqueue(PqRemove(k.ready, k.procs[p].priority, p), priority, p))
  }

  function MovedBlocked<P, E>(k: KState<P, E>, p: P, priority: int): KState<P, E>
    requires p in k.procs
  {
    Reprioritized(k, p, priority).(blocked := PqEnqueue(PqRemove(k.blocked, k.procs[p].priority, p), priority, p))
  }

  function Regraded<P, E>(k: KState<P, E>, p: P, priority: int): KState<P, E>
    requires p in k.procs
  {
    match k.procs[p].state
    case Ready => MovedReady(k, p, priority)
    case BlockedOnEnvRequest => MovedBlocked(k, p, priority)
    case _ => Reprioritized(k, p, priority)
  }

  /** k_change_priority as its calls to remove and enqueue intend it (KernelHeap says when they achieve it). */
  function ChangePriority<P, E>(k: KState<P, E>, priority: int, target: Option<P>): (KState<P, E>, Outcome)
    requires target.Some? ==> target.value in k.procs
  {
    if priority < 0 || priority >= NUM_PRIORITIES then (k, Code(ERROR_ILLEGAL_ARG))
    else if target.None? then (k, NullDereference)
    else
      var pcb := k.procs[target.value];
      if pcb.isIProcess || pcb.pid < 0 || pcb.pid == NULL_PID then (k, Code(ERROR_ILLEGAL_ARG))
      else if pcb.priority == priority then (k, Code(CODE_SUCCESS))
      else (Regraded(k, target.value, priority), Code(CODE_SUCCESS))
  }

  /** p leaves a level of several from its end: the remove leaves the tail of the level on p. */
  predicate LastOfSeveral<P(==)>(levels: seq<seq<P>>, l: int, p: P) {
    0 <= l < |levels| && |levels[l]| >= 2 && levels[l][|levels[l]| - 1] == p
  }

  const UART_ISR := 1
  const TIMER_ISR := 2
  const UART_I_PROCESS_PID := -2
  const TIMER_I_PROCESS_PID := -3

  /** The pid isr_handler looks up for an interrupt source. */
  function HandlerPid(source: int): Option<int> {
    if source == UART_ISR then Some(UART_I_PROCESS_PID)
    else if source == TIMER_ISR then Some(TIMER_I_PROCESS_PID)
    else None
  }

  // ---- isr_handler.c: around the call of the i-process ----

  /** handler is what k_get_process finds for the interrupt source; without one nothing runs. */
  function InterruptEnter<P, E>(k: KState<P, E>, handler: Option<P>): KState<P, E> {
    if handler.None? then k
    else k.(interrupted := Some(k.current), current := handler.value)
  }

  function InterruptExit<P, E>(k: KState<P, E>): KState<P, E>
    requires k.interrupted.Some?
  {
    k.(current := k.interrupted.value, interrupted := None)
  }
}
