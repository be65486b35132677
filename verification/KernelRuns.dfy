/** Boot, whole runs, and what the invariant says about every state of a run. */
module KernelRuns {
  import opened Common
  import opened KernelSpec
  import opened KernelSystem
  import opened KernelQueues
  import opened KernelPreservation

  // ---- boot: init_ipc, init_processes and the dispatch at the end of k_init ----

  datatype Init<P> = Init(who: P, pid: int, priority: int, isIProcess: bool)

  /** A process table the kernel is built for: one null process at the extra level, the others above it. */
  ghost predicate GoodTable<P>(table: seq<Init<P>>) {
    && (forall i, j | 0 <= i < j < |table| :: table[i].who != table[j].who)
    && (exists i | 0 <= i < |table| :: table[i].pid == NULL_PID)
    && (forall i, j | 0 <= i < j < |table| :: table[i].pid == NULL_PID ==> table[j].pid != NULL_PID)
    && (forall i | 0 <= i < |table| ::
          if table[i].pid == NULL_PID then !table[i].isIProcess && table[i].priority == NULL_PRIORITY
          else 0 <= table[i].priority < NUM_PRIORITIES)
  }

  function NewProc<P, E>(init: Init<P>): Proc<E> {
    Proc(init.pid, init.priority, Ready, init.isIProcess, [], 0)
  }

  /** The process table and the ready queues after the first entries of the table. */
  function InitProcesses<P, E>(table: seq<Init<P>>): (r: (map<P, Proc<E>>, seq<seq<P>>))
    ensures |r.1| == NUM_PRIORITIES + 1
    ensures r.0.Keys == set i | 0 <= i < |table| :: table[i].who
    decreases |table|
  {
    if table == [] then (map[], seq(NUM_PRIORITIES + 1, _ => []))
    else
      var last := table[|table| - 1];
      var (procs, ready) := InitProcesses<P, E>(table[..|table| - 1]);
      (procs[last.who := NewProc(last)],
       if last.isIProcess then ready else PqEnqueue(ready, last.priority, last.who))
  }

  lemma AddPlaced<P, E>(procs: map<P, Proc<E>>, ready: seq<seq<P>>, p: P, pcb: Proc<E>)
    requires Placed(procs, ready, Ready) && p !in procs
    requires pcb.state == Ready && 0 <= pcb.priority < |ready|
    ensures Placed(procs[p := pcb], if pcb.isIProcess then ready else PqEnqueue(ready, pcb.priority, p), Ready)
  {
    AppendKeepsNoDuplicates(ready[pcb.priority], p);
  }

  lemma {:induction false} InitProcessesValues<P, E>(table: seq<Init<P>>)
    requires forall i, j | 0 <= i < j < |table| :: table[i].who != table[j].who
    ensures forall i | 0 <= i < |table| :: InitProcesses<P, E>(table).0[table[i].who] == NewProc(table[i])
    decreases |table|
  {
    if table != [] {
      InitProcessesValues<P, E>(table[..|table| - 1]);
      assert forall i | 0 <= i < |table| - 1 :: table[..|table| - 1][i] == table[i];
    }
  }

  lemma {:induction false} InitProcessesPlaced<P, E>(table: seq<Init<P>>)
    requires forall i, j | 0 <= i < j < |table| :: table[i].who != table[j].who
    requires forall i | 0 <= i < |table| :: 0 <= table[i].priority <= NUM_PRIORITIES
    ensures Placed(InitProcesses<P, E>(table).0, InitProcesses<P, E>(table).1, Ready)
    decreases |table|
  {
    if table != [] {
      var n := |table| - 1;
      InitProcessesPlaced<P, E>(table[..n]);
      var (procs, ready) := InitProcesses<P, E>(table[..n]);
      assert table[n].who !in procs;
      hide Placed;
      AddPlaced<P, E>(procs, ready, table[n].who, NewProc(table[n]));
    }
  }

  /** What init_processes leaves behind for a good table. */
  ghost predicate Initial<P, E>(procs: map<P, Proc<E>>, ready: seq<seq<P>>, idle: P) {
    && |ready| == NUM_PRIORITIES + 1 && Placed(procs, ready, Ready)
    && idle in procs && ready[NULL_PRIORITY] != []
    && (forall p | p in procs ::
          && procs[p].state == Ready && procs[p].mail == [] && procs[p].envOwned == 0
          && (procs[p].pid == NULL_PID <==> p == idle)
          && (if p == idle then !procs[p].isIProcess && procs[p].priority == NULL_PRIORITY
              else 0 <= procs[p].priority < NUM_PRIORITIES))
  }

  /** The pools of init_ipc, and the first process dispatched. */
  ghost function Start<P, E>(procs: map<P, Proc<E>>, ready: seq<seq<P>>, idle: P, pool: seq<E>, sysPool: seq<E>)
    : Sys<P, E>
    requires Initial(procs, ready, idle)
  {
    DequeueTakes(procs, ready, Ready);
    var (first, rest) := PqDequeue(ready);
    var k := KState(procs[first.value := procs[first.value].(state := Executing)], rest,
                    seq(NUM_PRIORITIES, _ => []), pool, sysPool, set e | e in sysPool, map[], first.value, None);
    Sys(k, map p | p in procs :: User, map e | e in pool + sysPool :: if e in sysPool then SysPool else FreePool, idle)
  }

  lemma StartPlacement<P, E>(procs: map<P, Proc<E>>, ready: seq<seq<P>>, idle: P, pool: seq<E>, sysPool: seq<E>)
    requires Initial(procs, ready, idle)
    ensures Table(Start(procs, ready, idle, pool, sysPool)) && Placement(Start(procs, ready, idle, pool, sysPool))
  {
    var s := Start(procs, ready, idle, pool, sysPool);
    DequeueTakes(procs, ready, Ready);
    DequeuePlaced(procs, s.k.current, procs[s.k.current].(state := Executing), ready, Ready);
    assert Placed(s.k.procs, s.k.blocked, BlockedOnEnvRequest);
  }

  lemma StartValues<P, E>(procs: map<P, Proc<E>>, ready: seq<seq<P>>, idle: P, pool: seq<E>, sysPool: seq<E>)
    requires Initial(procs, ready, idle)
    ensures
      var s := Start(procs, ready, idle, pool, sysPool);
      && s.k.free == pool && s.k.sysFree == sysPool && s.k.sysEnvs == (set e | e in sysPool)
      && s.place == (map e | e in pool + sysPool :: if e in sysPool then SysPool else FreePool)
      && forall p | p in s.k.procs :: s.k.procs[p].mail == [] && s.k.procs[p].envOwned == 0
  {
    DequeueTakes(procs, ready, Ready);
    hide Placed, PqDequeue;
  }

  lemma StartConserved<P, E>(procs: map<P, Proc<E>>, ready: seq<seq<P>>, idle: P, pool: seq<E>, sysPool: seq<E>)
    requires Initial(procs, ready, idle)
    requires NoDuplicates(pool) && NoDuplicates(sysPool) && forall e :: e in pool ==> e !in sysPool
    ensures Conserved(Start(procs, ready, idle, pool, sysPool))
  {
    StartValues(procs, ready, idle, pool, sysPool);
    hide Initial, Start;
    var s := Start(procs, ready, idle, pool, sysPool);
    assert PoolsAgree(s.k, s.place);
    assert MailAgrees(s.k, s.place);
  }

  lemma StartCounted<P, E>(procs: map<P, Proc<E>>, ready: seq<seq<P>>, idle: P, pool: seq<E>, sysPool: seq<E>)
    requires Initial(procs, ready, idle)
    ensures Counted(Start(procs, ready, idle, pool, sysPool))
  {
    StartValues(procs, ready, idle, pool, sysPool);
    hide Initial, Start;
    var s := Start(procs, ready, idle, pool, sysPool);
    forall p | p in s.k.procs
      ensures s.k.procs[p].envOwned == |Owned(s.place, p)|
    {
      assert Owned(s.place, p) == {};
    }
  }

  lemma StartWaiting<P, E>(procs: map<P, Proc<E>>, ready: seq<seq<P>>, idle: P, pool: seq<E>, sysPool: seq<E>)
    requires Initial(procs, ready, idle)
    ensures
      var s := Start(procs, ready, idle, pool, sysPool);
      s.cont.Keys == s.k.procs.Keys && Continuations(s) && NoLostWakeUp(s)
  {
    DequeueTakes(procs, ready, Ready);
    hide Placed;
  }

  lemma TableIsInitial<P, E>(table: seq<Init<P>>, i: nat)
    requires GoodTable(table) && i < |table| && table[i].pid == NULL_PID
    ensures Initial(InitProcesses<P, E>(table).0, InitProcesses<P, E>(table).1, table[i].who)
  {
    InitProcessesPlaced<P, E>(table);
    InitProcessesValues<P, E>(table);
    var (procs, ready) := InitProcesses<P, E>(table);
    assert AtLevel(procs[table[i].who], Ready, NULL_PRIORITY);
    assert table[i].who in ready[NULL_PRIORITY];
    forall p | p in procs
      ensures exists j | 0 <= j < |table| :: p == table[j].who && procs[p] == NewProc(table[j])
    {
      var j :| 0 <= j < |table| && table[j].who == p;
    }
  }

  /** The state in which the first process starts. */
  ghost function Boot<P, E>(table: seq<Init<P>>, pool: seq<E>, sysPool: seq<E>): Sys<P, E>
    requires GoodTable(table)
  {
    var (procs, ready) := InitProcesses<P, E>(table);
    var i :| 0 <= i < |table| && table[i].pid == NULL_PID;
    TableIsInitial<P, E>(table, i);
    Start(procs, ready, table[i].who, pool, sysPool)
  }

  lemma BootIsGood<P, E>(table: seq<Init<P>>, pool: seq<E>, sysPool: seq<E>)
    requires GoodTable(table)
    requires NoDuplicates(pool) && NoDuplicates(sysPool) && forall e :: e in pool ==> e !in sysPool
    ensures Inv(Boot(table, pool, sysPool))
    ensures Boot(table, pool, sysPool).place.Keys == set e | e in pool + sysPool
  {
    hide Initial, Placement, Conserved, Counted, Table, NoLostWakeUp, Continuations;
    var (procs, ready) := InitProcesses<P, E>(table);
    var i :| 0 <= i < |table| && table[i].pid == NULL_PID
      && Boot(table, pool, sysPool)
         == (TableIsInitial<P, E>(table, i); Start(procs, ready, table[i].who, pool, sysPool));
    TableIsInitial<P, E>(table, i);
    StartPlacement(procs, ready, table[i].who, pool, sysPool);
    StartConserved(procs, ready, table[i].who, pool, sysPool);
    StartCounted(procs, ready, table[i].who, pool, sysPool);
    StartWaiting(procs, ready, table[i].who, pool, sysPool);
  }

  /** Entry i is the first one of the table that init_processes puts at a level. */
  ghost predicate FirstAtLevel<P>(table: seq<Init<P>>, l: int, i: nat) {
    && i < |table| && !table[i].isIProcess && table[i].priority == l
    && NoneAtLevel(table[..i], l)
  }

  ghost predicate NoneAtLevel<P>(table: seq<Init<P>>, l: int) {
    forall j | 0 <= j < |table| :: table[j].isIProcess || table[j].priority != l
  }

  lemma {:induction false} HeadIsFirst<P, E>(table: seq<Init<P>>, l: nat) returns (i: nat)
    requires l <= NUM_PRIORITIES
    ensures
      var q := InitProcesses<P, E>(table).1[l];
      if q == [] then NoneAtLevel(table, l) else FirstAtLevel(table, l, i) && table[i].who == q[0]
    decreases |table|
  {
    i := 0;
    if table != [] {
      var n := |table| - 1;
      i := HeadIsFirst<P, E>(table[..n], l);
      var q := InitProcesses<P, E>(table[..n]).1[l];
      if q == [] {
        i := n;
        assert forall j | 0 <= j < n :: table[..n][j] == table[j];
      } else {
        assert table[..n][..i] == table[..i] && table[..n][i] == table[i];
      }
    }
  }

  lemma BootCurrent<P, E>(table: seq<Init<P>>, pool: seq<E>, sysPool: seq<E>)
    requires GoodTable(table)
    ensures
      var ready := InitProcesses<P, E>(table).1;
      && FirstNonEmpty(ready) <= NUM_PRIORITIES
      && Boot(table, pool, sysPool).k.current == ready[FirstNonEmpty(ready)][0]
      && Boot(table, pool, sysPool).k.ready
         == ready[FirstNonEmpty(ready) := ready[FirstNonEmpty(ready)][1..]]
  {
    var i :| 0 <= i < |table| && table[i].pid == NULL_PID;
    TableIsInitial<P, E>(table, i);
  }

  /** The first process to run is the first of the table among those with the best priority. */
  lemma BootPicks<P, E>(table: seq<Init<P>>, pool: seq<E>, sysPool: seq<E>) returns (i: nat)
    requires GoodTable(table)
    ensures i < |table| && table[i].who == Boot(table, pool, sysPool).k.current && !table[i].isIProcess
    ensures forall j | 0 <= j < |table| && !table[j].isIProcess ::
      table[i].priority < table[j].priority || (table[i].priority == table[j].priority && i <= j)
  {
    BootCurrent(table, pool, sysPool);
    var ready := InitProcesses<P, E>(table).1;
    var l := FirstNonEmpty(ready);
    i := HeadIsFirst<P, E>(table, l);
    forall j | 0 <= j < |table| && !table[j].isIProcess
      ensures l < table[j].priority || (l == table[j].priority && i <= j)
    {
      if table[j].priority < l {
        var _ := HeadIsFirst<P, E>(table, table[j].priority);
      } else if j < i {
        assert table[..i][j] == table[j];
      }
    }
  }

  /** The state in which every block of the table starts. */
  lemma BootBlocks<P, E>(table: seq<Init<P>>, pool: seq<E>, sysPool: seq<E>, i: nat)
    requires GoodTable(table) && i < |table|
    ensures
      var s := Boot(table, pool, sysPool);
      && table[i].who in s.k.procs && table[i].who in s.cont && s.cont[table[i].who] == User
      && s.k.procs[table[i].who] == Proc(table[i].pid, table[i].priority,
                                         if table[i].who == s.k.current then Executing else Ready,
                                         table[i].isIProcess, [], 0)
  {
    var idle :| 0 <= idle < |table| && table[idle].pid == NULL_PID;
    TableIsInitial<P, E>(table, idle);
    InitProcessesValues<P, E>(table);
  }

  // ---- runs ----

  ghost predicate Runnable<P, E>(s: Sys<P, E>, ops: seq<Op<P, E>>)
    requires Inv(s)
    decreases |ops|
  {
    ops == [] || (Enabled(s, ops[0]) && (StepKeepsInv(s, ops[0]); Runnable(Step(s, ops[0]), ops[1..])))
  }

  ghost function Run<P, E>(s: Sys<P, E>, ops: seq<Op<P, E>>): Sys<P, E>
    requires Inv(s) && Runnable(s, ops)
    decreases |ops|
  {
    if ops == [] then s else (StepKeepsInv(s, ops[0]); Run(Step(s, ops[0]), ops[1..]))
  }

  lemma StepKeepsEnvelopes<P, E>(s: Sys<P, E>, op: Op<P, E>)
    requires Inv(s) && Enabled(s, op)
    ensures Step(s, op).place.Keys == s.place.Keys
  {
    hide Placed, PoolsAgree, MailAgrees, Counted, NoLostWakeUp, CanRun;
    hide ReleaseProcessor, ChangePriority, Receive, Request, Release, Handed, ReceiveStep, RequestStep;
    if s.k.current != s.idle {
      RunsUnlessIdle(s);
      ReceiveKeepsEnvelopes(s);
      RequestKeepsEnvelopes(s);
    }
  }

  lemma ReceiveKeepsEnvelopes<P, E>(s: Sys<P, E>)
    requires CanRun(s) && MailAgrees(s.k, s.place)
    ensures ReceiveStep(s).place.Keys == s.place.Keys
  {
    if s.k.procs[s.k.current].mail != [] {
      ReceiveMoves(s);
    }
    hide Moves, MailAgrees, ProcessSwitch;
  }

  lemma RequestKeepsEnvelopes<P, E>(s: Sys<P, E>)
    requires CanRun(s) && PoolsAgree(s.k, s.place)
    ensures RequestStep(s).place.Keys == s.place.Keys
  {
    if s.k.free != [] || (s.k.procs[s.k.current].isIProcess && s.k.sysFree != []) {
      RequestMoves(s);
    }
    hide Moves, PoolsAgree, ProcessSwitch;
  }

  /** Whatever the processes and the devices do, the invariant holds at the end, over the same envelopes. */
  lemma {:induction false} RunKeepsInv<P, E>(s: Sys<P, E>, ops: seq<Op<P, E>>)
    requires Inv(s) && Runnable(s, ops)
    ensures Inv(Run(s, ops))
    ensures Run(s, ops).place.Keys == s.place.Keys
    decreases |ops|
  {
    if ops != [] {
      StepKeepsInv(s, ops[0]);
      StepKeepsEnvelopes(s, ops[0]);
      RunKeepsInv(Step(s, ops[0]), ops[1..]);
    }
  }

  // ---- conservation, counted ----

  ghost function TotalOwned<P, E>(procs: map<P, Proc<E>>, among: set<P>): int
    requires among <= procs.Keys
  {
    if among == {} then 0
    else var p :| p in among; procs[p].envOwned + TotalOwned(procs, among - {p})
  }

  /** The envelopes in the mailboxes or hands of these processes. */
  ghost function HeldBy<P, E>(place: map<E, Place<P>>, among: set<P>): set<E> {
    set e | e in place && (place[e].Mailbox? || place[e].Hands?) && place[e].owner in among
  }

  lemma HeldByOneMore<P, E>(place: map<E, Place<P>>, among: set<P>, p: P)
    requires p in among
    ensures |HeldBy(place, among)| == |HeldBy(place, among - {p})| + |Owned(place, p)|
  {
    assert HeldBy(place, among) == HeldBy(place, among - {p}) + Owned(place, p);
    assert HeldBy(place, among - {p}) !! Owned(place, p);
  }

  lemma {:induction false} TotalIsUnion<P, E>(s: Sys<P, E>, among: set<P>)
    requires Counted(s) && among <= s.k.procs.Keys
    ensures TotalOwned(s.k.procs, among) == |HeldBy(s.place, among)|
    decreases |among|
  {
    if among == {} {
      assert HeldBy(s.place, among) == {};
    } else {
      var p :| p in among && TotalOwned(s.k.procs, among) == s.k.procs[p].envOwned + TotalOwned(s.k.procs, among - {p});
      TotalIsUnion(s, among - {p});
      HeldByOneMore(s.place, among, p);
    }
  }

  lemma {:induction false} DistinctCount<T>(q: seq<T>)
    requires NoDuplicates(q)
    ensures |set e | e in q| == |q|
  {
    if q == [] {
      assert (set e | e in q) == {};
    } else {
      DistinctCount(q[1..]);
      assert q == [q[0]] + q[1..];
      assert (set e | e in q) == (set e | e in q[1..]) + {q[0]};
    }
  }

  ghost function At<P, E>(place: map<E, Place<P>>, at: Place<P>): set<E> {
    set e | e in place && place[e] == at
  }

  lemma PlacesPartition<P, E>(place: map<E, Place<P>>, owners: set<P>)
    requires forall e | e in place && (place[e].Mailbox? || place[e].Hands?) :: place[e].owner in owners
    ensures |place| == |At(place, FreePool)| + |At(place, SysPool)| + |HeldBy(place, owners)|
  {
    var free, sys, held := At(place, FreePool), At(place, SysPool), HeldBy(place, owners);
    assert place.Keys == free + sys + held;
    assert free !! sys && (free + sys) !! held;
    assert |place| == |place.Keys|;
  }

  lemma PoolSizes<P, E>(k: KState<P, E>, place: map<E, Place<P>>)
    requires PoolsAgree(k, place)
    ensures |At(place, FreePool)| == |k.free| && |At(place, SysPool)| == |k.sysFree|
  {
    DistinctCount(k.free);
    DistinctCount(k.sysFree);
    assert At(place, FreePool) == set e | e in k.free;
    assert At(place, SysPool) == set e | e in k.sysFree;
  }

  /** The env_owned counts and the lengths of the two pools add up to the number of envelopes. */
  lemma EnvelopesAddUp<P, E>(s: Sys<P, E>)
    requires Inv(s)
    ensures |s.k.free| + |s.k.sysFree| + TotalOwned(s.k.procs, s.k.procs.Keys) == |s.place|
  {
    hide Placement, Continuations, NoLostWakeUp;
    TotalIsUnion(s, s.k.procs.Keys);
    PoolSizes(s.k, s.place);
    PlacesPartition(s.place, s.k.procs.Keys);
  }

  // ---- waiting for messages and envelopes ----

  /** A process resumed in the receive loop takes its message at once: the loop blocks once per call at most. */
  lemma ResumedReceiverHasMail<P, E>(s: Sys<P, E>)
    requires Inv(s) && s.cont[s.k.current] == InReceive
    ensures s.k.procs[s.k.current].mail != []
    ensures Enabled(s, ResumeOp)
    ensures
      var s', e := Step(s, ResumeOp), s.k.procs[s.k.current].mail[0];
      s'.k.current == s.k.current && s'.cont[s.k.current] == User && s'.place == s.place[e := Hands(s.k.current)]
  {
  }
}
