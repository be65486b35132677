/** init_ipc, init_processes and the first dispatch of k_init, on the heap. */
module KernelBoot {
  import opened Common
  import Spec = KernelSpec
  import opened KernelSystem
  import KernelPreservation
  import KernelQueues
  import opened KernelTails
  import opened KernelRuns
  import opened MsgEnvQueues
  import opened ProcQueues
  import opened KernelHeap
  import opened KernelRefinement

  const IPC_NUM_FREE_MSG_ENVS := 32
  const IPC_NUM_SYS_FREE_MSG_ENVS := 2

  /** pcb_init_t: what a process starts from. */
  datatype Entry = Entry(pid: int, priority: int, isIProcess: bool)

  method FillPool(size: nat) returns (pool: seq<MsgEnv>, queue: MsgEnvQueue)
    ensures |pool| == size && NoDuplicates(pool) && fresh(pool) && fresh(queue)
    ensures queue.Valid() && queue.items == pool && forall e | e in pool :: e.hasMsg
  {
    pool := [];
    queue := new MsgEnvQueue();
    while |pool| < size
      invariant |pool| <= size && fresh(pool) && fresh(queue)
      invariant queue.Valid() && queue.items == pool && forall e | e in pool :: e.hasMsg
    {
      var env := new MsgEnv();
      var code := queue.Enqueue(env);
      pool := pool + [env];
    }
  }

  function Inits(table: seq<Pcb>, entries: seq<Entry>): (r: seq<Init<Pcb>>)
    requires |table| == |entries|
    ensures |r| == |table|
    ensures forall i | 0 <= i < |r| ::
      r[i] == Init(table[i], entries[i].pid, entries[i].priority, entries[i].isIProcess)
  {
    seq(|table|, i requires 0 <= i < |table| =>
      Init(table[i], entries[i].pid, entries[i].priority, entries[i].isIProcess))
  }

  /** A block as init_processes fills it in. */
  ghost predicate Fresh(p: Pcb, entry: Entry)
    reads p`priority, p`state, p`envOwned, p.recvMsgs
  {
    && p.pid == entry.pid && p.priority == entry.priority && p.isIProcess == entry.isIProcess
    && p.state == Ready && p.envOwned == 0 && p.recvMsgs.items == [] && p.recvMsgs.Valid()
  }

  method AddProcess(entry: Entry, readyPq: ProcPq, ghost procs: set<Pcb>) returns (process: Pcb)
    requires readyPq.Valid() && readyPq.TailsAmong(procs) && Members(readyPq.levels) <= procs
    modifies readyPq`levels, readyPq.queueSet, procs`next
    ensures readyPq.Valid() && readyPq.TailsAmong(procs + {process}) && Members(readyPq.levels) <= procs + {process}
    ensures fresh(process) && fresh(process.recvMsgs) && Fresh(process, entry)
    ensures readyPq.levels == if entry.isIProcess then old(readyPq.levels)
                              else Spec.PqEnqueue(old(readyPq.levels), entry.priority, process)
  {
    hide Members, ProcPq.Walkable, ProcPq.TailsKnown, Spec.PqEnqueue;
    process := new Pcb(entry.pid, entry.priority, entry.isIProcess);
    TailBelongs(readyPq, procs, process.priority);
    if !process.isIProcess {
      var code := readyPq.Enqueue(process);
    }
  }

  lemma OneMore(table: seq<Pcb>, entries: seq<Entry>, p: Pcb)
    requires |table| < |entries|
    ensures InitProcesses<Pcb, MsgEnv>(Inits(table + [p], entries[..|table| + 1])).1 ==
      var (entry, ready) := (entries[|table|], InitProcesses<Pcb, MsgEnv>(Inits(table, entries[..|table|])).1);
      if entry.isIProcess then ready else Spec.PqEnqueue(ready, entry.priority, p)
  {
    var n := |table|;
    assert Inits(table + [p], entries[..n + 1])[..n] == Inits(table, entries[..n]);
  }

  /** The blocks made so far, each as its entry says, with mailboxes of their own. */
  ghost predicate Filled(table: seq<Pcb>, entries: seq<Entry>)
    reads table`priority, table`state, table`envOwned, set p | p in table :: p.recvMsgs
  {
    && |table| <= |entries| && NoDuplicates(table)
    && (forall i | 0 <= i < |table| :: Fresh(table[i], entries[i]))
    && (forall i, j | 0 <= i < j < |table| :: table[i].recvMsgs != table[j].recvMsgs)
  }

  method FillTable(entries: seq<Entry>, readyPq: ProcPq) returns (table: seq<Pcb>, ghost procs: set<Pcb>)
    requires readyPq.Valid() && readyPq.TailsAmong({}) && readyPq.levels == seq(NUM_PRIORITIES + 1, _ => [])
    modifies readyPq`levels, readyPq.queueSet
    ensures procs == (set p | p in table) && forall p | p in table :: fresh(p) && fresh(p.recvMsgs)
    ensures readyPq.Valid() && readyPq.TailsAmong(procs) && Members(readyPq.levels) <= procs
    ensures Filled(table, entries) && |table| == |entries|
    ensures readyPq.levels == InitProcesses<Pcb, MsgEnv>(Inits(table, entries)).1
  {
    hide Fresh, ProcPq.Valid, ProcPq.TailsAmong, Members, Spec.PqEnqueue, InitProcesses, Inits;
    table, procs := [], {};
    NobodyYet<Pcb>(NUM_PRIORITIES + 1);
    assert readyPq.levels == InitProcesses<Pcb, MsgEnv>(Inits(table, entries[..0])).1 by { NoneYet<Pcb, MsgEnv>(); }
    while |table| < |entries|
      invariant procs == (set p | p in table) && forall p | p in table :: fresh(p) && fresh(p.recvMsgs)
      invariant readyPq.Valid() && readyPq.TailsAmong(procs) && Members(readyPq.levels) <= procs
      invariant Filled(table, entries)
      invariant readyPq.levels == InitProcesses<Pcb, MsgEnv>(Inits(table, entries[..|table|])).1
    {
      var process := AddProcess(entries[|table|], readyPq, procs);
      OneMore(table, entries, process);
      table, procs := table + [process], procs + {process};
    }
    assert entries[..|table|] == entries;
  }

  lemma NoneYet<P, E>()
    ensures InitProcesses<P, E>([]).1 == seq(NUM_PRIORITIES + 1, _ => [])
  {
  }

  lemma NoTailsYet(pq: ProcPq, procs: set<Pcb>)
    requires pq.TailsAmong({})
    ensures pq.TailsAmong(procs)
  {
  }

  lemma NobodyYet<P>(n: nat)
    ensures Members<P>(seq(n, _ => [])) == {}
  {
  }

  /** A table of one null process at the extra level and other processes above it. */
  ghost predicate GoodEntries(entries: seq<Entry>) {
    && (exists i | 0 <= i < |entries| :: entries[i].pid == NULL_PID)
    && (forall i, j | 0 <= i < j < |entries| :: entries[i].pid == NULL_PID ==> entries[j].pid != NULL_PID)
    && (forall i | 0 <= i < |entries| ::
          if entries[i].pid == NULL_PID then !entries[i].isIProcess && entries[i].priority == NULL_PRIORITY
          else 0 <= entries[i].priority < NUM_PRIORITIES)
  }

  lemma GoodEntriesMakeGoodTable(table: seq<Pcb>, entries: seq<Entry>)
    requires GoodEntries(entries) && |table| == |entries| && NoDuplicates(table)
    ensures GoodTable(Inits(table, entries))
  {
    var i :| 0 <= i < |entries| && entries[i].pid == NULL_PID;
    assert Inits(table, entries)[i].pid == NULL_PID;
  }

  /** The kernel state KernelRuns.Boot starts in, spelt out. */
  lemma BootState<P, E>(table: seq<Init<P>>, pool: seq<E>, sysPool: seq<E>)
    requires GoodTable(table)
    ensures
      var (procs, ready) := InitProcesses<P, E>(table);
      var (first, rest) := Spec.PqDequeue(ready);
      var s := Boot(table, pool, sysPool);
      && first.Some? && first.value in procs
      && s.k == Spec.KState(procs[first.value := procs[first.value].(state := Executing)], rest,
                            seq(NUM_PRIORITIES, _ => []), pool, sysPool, set e | e in sysPool, map[], first.value, None)
      && s.place.Keys == set e | e in pool + sysPool
    ensures forall i | 0 <= i < |table| ::
      table[i].who in InitProcesses<P, E>(table).0 && InitProcesses<P, E>(table).0[table[i].who] == NewProc(table[i])
  {
    InitProcessesPlaced<P, E>(table);
    InitProcessesValues<P, E>(table);
    var (procs, ready) := InitProcesses<P, E>(table);
    var i :| 0 <= i < |table| && table[i].pid == NULL_PID
      && Boot(table, pool, sysPool)
         == (TableIsInitial<P, E>(table, i); Start(procs, ready, table[i].who, pool, sysPool));
    TableIsInitial<P, E>(table, i);
    KernelQueues.DequeueTakes(procs, ready, Ready);
  }

  /** The two pools, filled, and mailboxes, all empty, that are queues of their own. */
  ghost predicate EnvParts(table: seq<Pcb>, freeEnvQ: MsgEnvQueue, sysFreeEnvQ: MsgEnvQueue,
                           envPool: seq<MsgEnv>, sysEnvPool: seq<MsgEnv>)
    reads freeEnvQ, sysFreeEnvQ, envPool`next, sysEnvPool`next, set p | p in table :: p.recvMsgs
  {
    && freeEnvQ != sysFreeEnvQ && freeEnvQ.items == envPool && sysFreeEnvQ.items == sysEnvPool
    && freeEnvQ.Valid() && sysFreeEnvQ.Valid()
    && (forall e | e in envPool :: e !in sysEnvPool)
    && (forall p | p in table ::
          && p.recvMsgs != freeEnvQ && p.recvMsgs != sysFreeEnvQ
          && p.recvMsgs.items == [] && p.recvMsgs.Valid())
    && (forall p, p' | p in table && p' in table && p.recvMsgs == p'.recvMsgs :: p == p')
  }

  /** The ready queues hold blocks of the table, the others are empty. */
  ghost predicate ProcParts(table: seq<Pcb>, readyPq: ProcPq, blockedPq: ProcPq)
    reads readyPq, blockedPq, readyPq.queueSet, blockedPq.queueSet, table`next
  {
    && (forall p | p in Members(readyPq.levels) :: p in table)
    && readyPq != blockedPq && readyPq.queueSet !! blockedPq.queueSet
    && |readyPq.queues| == NUM_PRIORITIES + 1 && |blockedPq.queues| == NUM_PRIORITIES
    && readyPq.Valid() && Members(blockedPq.levels) == {} && blockedPq.Valid()
    && readyPq.TailsAmong(set p | p in table) && blockedPq.TailsAmong(set p | p in table)
  }

  method Assemble(table: seq<Pcb>, readyPq: ProcPq, blockedPq: ProcPq, freeEnvQ: MsgEnvQueue, sysFreeEnvQ: MsgEnvQueue,
                  envPool: seq<MsgEnv>, sysEnvPool: seq<MsgEnv>, first: Pcb) returns (kern: Kernel)
    requires EnvParts(table, freeEnvQ, sysFreeEnvQ, envPool, sysEnvPool)
    requires ProcParts(table, readyPq, blockedPq) && first in table
    ensures kern.Linked() && kern.TailsKnown() && kern.Lost() == NONE_STALE
    ensures kern.table == table && kern.envPool == envPool && kern.sysEnvPool == sysEnvPool
    ensures kern.readyPq == readyPq && kern.blockedPq == blockedPq
    ensures kern.freeEnvQ == freeEnvQ && kern.sysFreeEnvQ == sysFreeEnvQ
    ensures kern.current == first && kern.interrupted == null && kern.headers == map[]
    ensures kern.envs == set e | e in envPool + sysEnvPool
  {
    hide MsgEnvQueue.Valid, ProcPq.Walkable, ProcPq.TailsKnown;
    kern := new Kernel(table, readyPq, blockedPq, freeEnvQ, sysFreeEnvQ, envPool, sysEnvPool, first);
    assert kern.Layout();
    assert kern.ProcsLinked() && kern.TailsKnown();
    assert kern.EnvsLinked();
  }

  /** init_ipc: the two pools. */
  method FillPools()
    returns (freeEnvQ: MsgEnvQueue, sysFreeEnvQ: MsgEnvQueue, envPool: seq<MsgEnv>, sysEnvPool: seq<MsgEnv>)
    ensures |envPool| == IPC_NUM_FREE_MSG_ENVS && |sysEnvPool| == IPC_NUM_SYS_FREE_MSG_ENVS
    ensures EnvParts([], freeEnvQ, sysFreeEnvQ, envPool, sysEnvPool)
    ensures fresh(freeEnvQ) && fresh(sysFreeEnvQ) && fresh(envPool) && fresh(sysEnvPool)
    ensures forall e | e in envPool + sysEnvPool :: e.hasMsg
  {
    hide MsgEnvQueue.Valid, NoDuplicates;
    envPool, freeEnvQ := FillPool(IPC_NUM_FREE_MSG_ENVS);
    sysEnvPool, sysFreeEnvQ := FillPool(IPC_NUM_SYS_FREE_MSG_ENVS);
  }

  /** init_ipc, the two sets of queues and init_processes. */
  method MakeParts(entries: seq<Entry>)
    returns (table: seq<Pcb>, readyPq: ProcPq, blockedPq: ProcPq, freeEnvQ: MsgEnvQueue, sysFreeEnvQ: MsgEnvQueue,
             envPool: seq<MsgEnv>, sysEnvPool: seq<MsgEnv>)
    ensures |envPool| == IPC_NUM_FREE_MSG_ENVS && |sysEnvPool| == IPC_NUM_SYS_FREE_MSG_ENVS
    ensures forall e | e in envPool + sysEnvPool :: e.hasMsg
    ensures EnvParts(table, freeEnvQ, sysFreeEnvQ, envPool, sysEnvPool) && ProcParts(table, readyPq, blockedPq)
    ensures |table| == |entries| && Filled(table, entries)
    ensures readyPq.levels == InitProcesses<Pcb, MsgEnv>(Inits(table, entries)).1
    ensures blockedPq.levels == seq(NUM_PRIORITIES, _ => [])
    ensures fresh(readyPq) && fresh(readyPq.queueSet) && fresh(table)
  {
    hide Inits, InitProcesses, MsgEnvQueue.Valid, ProcPq.Walkable, ProcPq.TailsKnown, ProcPq.TailsAmong;
    freeEnvQ, sysFreeEnvQ, envPool, sysEnvPool := FillPools();
    blockedPq := new ProcPq(NUM_PRIORITIES);
    readyPq := new ProcPq(NUM_PRIORITIES + 1);
    NobodyYet<Pcb>(NUM_PRIORITIES);
    label Filling:
    ghost var procs;
    table, procs := FillTable(entries, readyPq);
    NoTailsYet(blockedPq, procs);
    assert forall p | p in table :: fresh@Filling(p.recvMsgs);
  }

  /** A block after the first dispatch. */
  ghost predicate Dispatched(p: Pcb, entry: Entry, first: Pcb)
    reads p`priority, p`state, p`envOwned, p.recvMsgs`items
  {
    && p.pid == entry.pid && p.priority == entry.priority && p.isIProcess == entry.isIProcess
    && p.state == (if p == first then Executing else Ready) && p.envOwned == 0 && p.recvMsgs.items == []
  }

  /** The first process goes from the ready queues to the processor. */
  method DispatchFirst(table: seq<Pcb>, ghost entries: seq<Entry>, readyPq: ProcPq, ghost blockedPq: ProcPq)
    returns (first: Pcb)
    requires ProcParts(table, readyPq, blockedPq) && Spec.PqDequeue(readyPq.levels).0.Some?
    requires Filled(table, entries) && |table| == |entries|
    modifies readyPq`levels, readyPq`stale, readyPq.queueSet, table`next, table`state
    ensures ProcParts(table, readyPq, blockedPq) && first in table
    ensures Spec.PqDequeue(old(readyPq.levels)) == (Some(first), readyPq.levels)
    ensures forall i | 0 <= i < |table| :: Dispatched(table[i], entries[i], first)
  {
    hide ProcPq.Walkable, ProcPq.TailsKnown, Members, Kept, Spec.PqDequeue;
    first := readyPq.Dequeue();
    first.state := Executing;
  }

  lemma InitValues(table: seq<Pcb>, entries: seq<Entry>)
    requires GoodEntries(entries) && |table| == |entries| && NoDuplicates(table)
    ensures
      var procs := InitProcesses<Pcb, MsgEnv>(Inits(table, entries)).0;
      && procs.Keys == (set p | p in table)
      && forall i | 0 <= i < |table| ::
           procs[table[i]] == Spec.Proc(entries[i].pid, entries[i].priority, Ready, entries[i].isIProcess, [], 0)
  {
    var t := Inits(table, entries);
    InitProcessesValues<Pcb, MsgEnv>(t);
    assert forall i | 0 <= i < |t| :: t[i].who == table[i];
  }

  /** The values the assembled object records for its blocks are those of the process table of KernelRuns.Boot. */
  lemma BlocksAreBoot(kern: Kernel, entries: seq<Entry>, first: Pcb)
    requires GoodEntries(entries) && |kern.table| == |entries| && NoDuplicates(kern.table)
    requires kern.Linked() && first in kern.table
    requires forall i | 0 <= i < |entries| :: Dispatched(kern.table[i], entries[i], first)
    ensures
      var procs := InitProcesses<Pcb, MsgEnv>(Inits(kern.table, entries)).0;
      first in procs && kern.blocks == procs[first := procs[first].(state := Executing)]
  {
    hide Inits, InitProcesses, GoodEntries, Kernel.ProcsLinked, Kernel.EnvsLinked;
    InitValues(kern.table, entries);
    var procs := InitProcesses<Pcb, MsgEnv>(Inits(kern.table, entries)).0;
    forall p | p in kern.procs
      ensures kern.blocks[p] == procs[p].(state := if p == first then Executing else procs[p].state)
    {
      var i :| 0 <= i < |kern.table| && kern.table[i] == p;
      assert Dispatched(p, entries[i], first);
    }
  }

  lemma PoolItems(table: seq<Pcb>, freeEnvQ: MsgEnvQueue, sysFreeEnvQ: MsgEnvQueue, envPool: seq<MsgEnv>,
                  sysEnvPool: seq<MsgEnv>)
    requires EnvParts(table, freeEnvQ, sysFreeEnvQ, envPool, sysEnvPool)
    ensures freeEnvQ.items == envPool && sysFreeEnvQ.items == sysEnvPool
    ensures NoDuplicates(envPool) && NoDuplicates(sysEnvPool) && forall e | e in envPool :: e !in sysEnvPool
  {
  }

  lemma PoolsCounted(envPool: seq<MsgEnv>, sysEnvPool: seq<MsgEnv>)
    requires NoDuplicates(envPool) && NoDuplicates(sysEnvPool) && forall e | e in envPool :: e !in sysEnvPool
    ensures |set e | e in envPool + sysEnvPool| == |envPool| + |sysEnvPool|
  {
    DistinctCount(envPool);
    DistinctCount(sysEnvPool);
    assert (set e | e in envPool + sysEnvPool) == (set e | e in envPool) + set e | e in sysEnvPool;
  }

  lemma TableUnchanged(table: seq<Pcb>, entries: seq<Entry>)
    requires Filled(table, entries)
    ensures NoDuplicates(table)
  {
  }

  lemma RepresentsBoot(kern: Kernel, entries: seq<Entry>, first: Pcb)
    requires GoodEntries(entries) && |kern.table| == |entries| && NoDuplicates(kern.table)
    requires kern.Linked() && first in kern.table
    requires forall i | 0 <= i < |entries| :: Dispatched(kern.table[i], entries[i], first)
    requires kern.current == first && kern.interrupted == null && kern.headers == map[]
    requires Spec.PqDequeue(InitProcesses<Pcb, MsgEnv>(Inits(kern.table, entries)).1)
      == (Some(first), kern.readyPq.levels)
    requires kern.blockedPq.levels == seq(NUM_PRIORITIES, _ => [])
    requires kern.freeEnvQ.items == kern.envPool && kern.sysFreeEnvQ.items == kern.sysEnvPool
    requires kern.envs == (set e | e in kern.envPool + kern.sysEnvPool)
    requires forall e | e in kern.envPool + kern.sysEnvPool :: e.hasMsg
    ensures GoodTable(Inits(kern.table, entries))
    ensures Represents(kern, Boot(Inits(kern.table, entries), kern.envPool, kern.sysEnvPool))
  {
    hide Inits, InitProcesses, GoodTable, GoodEntries, Boot, Kernel.Linked, Spec.PqDequeue, Dispatched, NoDuplicates;
    GoodEntriesMakeGoodTable(kern.table, entries);
    BootState<Pcb, MsgEnv>(Inits(kern.table, entries), kern.envPool, kern.sysEnvPool);
    BlocksAreBoot(kern, entries, first);
  }

  /** The state of the transition system a booted kernel starts in. */
  ghost function AtBoot(kern: Kernel, entries: seq<Entry>): System
    requires |kern.table| == |entries| && GoodTable(Inits(kern.table, entries))
  {
    Boot(Inits(kern.table, entries), kern.envPool, kern.sysEnvPool)
  }

  /** k_init up to the first context switch: a run of calls can start, over 34 envelopes. */
  method KInit(entries: seq<Entry>) returns (kern: Kernel)
    requires GoodEntries(entries)
    ensures |kern.table| == |entries| && GoodTable(Inits(kern.table, entries))
    ensures |kern.envPool| == IPC_NUM_FREE_MSG_ENVS && |kern.sysEnvPool| == IPC_NUM_SYS_FREE_MSG_ENVS
    ensures |kern.envs| == IPC_NUM_FREE_MSG_ENVS + IPC_NUM_SYS_FREE_MSG_ENVS
    ensures Represents(kern, AtBoot(kern, entries)) && Inv(AtBoot(kern, entries))
    ensures kern.TailsKnown() && kern.Lost() == NONE_STALE
    ensures forall i | 0 <= i < |entries| :: Dispatched(kern.table[i], entries[i], kern.current)
  {
    hide ProcParts, EnvParts, Inits, InitProcesses, GoodTable, GoodEntries, Boot, Kernel.Linked, Spec.PqDequeue,
      Filled, Dispatched;
    hide NoDuplicates, Represents, Kernel.TailsKnown;
    var table, readyPq, blockedPq, freeEnvQ, sysFreeEnvQ, envPool, sysEnvPool := MakeParts(entries);
    TableUnchanged(table, entries);
    SomeoneToDispatch(table, entries);
    var first := DispatchFirst(table, entries, readyPq, blockedPq);
    PoolItems(table, freeEnvQ, sysFreeEnvQ, envPool, sysEnvPool);
    kern := Assemble(table, readyPq, blockedPq, freeEnvQ, sysFreeEnvQ, envPool, sysEnvPool, first);
    RepresentsBoot(kern, entries, first);
    BootIsGood(Inits(table, entries), envPool, sysEnvPool);
    PoolsCounted(envPool, sysEnvPool);
  }

  /**
   After a run of calls on a booted kernel the heap stands for a state with the invariant, and the 34 envelopes are all
   accounted for, until a call enqueues at a stale level.
   */
  method RunBooted(kern: Kernel, ghost entries: seq<Entry>, calls: seq<Call>)
    requires |kern.table| == |entries| && GoodTable(Inits(kern.table, entries))
    requires |kern.envs| == IPC_NUM_FREE_MSG_ENVS + IPC_NUM_SYS_FREE_MSG_ENVS
    requires Represents(kern, AtBoot(kern, entries)) && Inv(AtBoot(kern, entries))
    requires kern.TailsKnown() && kern.Lost() == NONE_STALE && AllFit(kern.table, AtBoot(kern, entries), calls)
    requires |calls| <= Reach(kern.table, AtBoot(kern, entries), NONE_STALE, calls) + 1
    modifies Footprint(kern)
    ensures Runnable(AtBoot(kern, entries), Operations(kern.table, calls))
    ensures Inv(Run(AtBoot(kern, entries), Operations(kern.table, calls)))
    ensures Represents(kern, Run(AtBoot(kern, entries), Operations(kern.table, calls)))
      <==> Reach(kern.table, AtBoot(kern, entries), NONE_STALE, calls) == |calls|
    ensures Reach(kern.table, AtBoot(kern, entries), NONE_STALE, calls) == |calls| ==>
      && Run(AtBoot(kern, entries), Operations(kern.table, calls)).k.procs.Keys == kern.procs
      && |kern.freeEnvQ.items| + |kern.sysFreeEnvQ.items| + TotalOwned(kern.K().procs, kern.procs)
           == IPC_NUM_FREE_MSG_ENVS + IPC_NUM_SYS_FREE_MSG_ENVS
  {
    hide Inv, Boot, GoodTable, Inits, Represents, Run, Runnable, AllFit, Operations, Footprint, Kernel.Lost, Reach;
    RunCalls(kern, AtBoot(kern, entries), calls);
    RunKeepsInv(AtBoot(kern, entries), Operations(kern.table, calls));
    if Reach(kern.table, AtBoot(kern, entries), NONE_STALE, calls) == |calls| {
      HeapAddsUp(kern, Run(AtBoot(kern, entries), Operations(kern.table, calls)));
    }
  }

  lemma SomeoneToDispatch(table: seq<Pcb>, entries: seq<Entry>)
    requires GoodEntries(entries) && |table| == |entries| && NoDuplicates(table)
    ensures Spec.PqDequeue(InitProcesses<Pcb, MsgEnv>(Inits(table, entries)).1).0.Some?
  {
    GoodEntriesMakeGoodTable(table, entries);
    BootState<Pcb, MsgEnv>(Inits(table, entries), [], []);
  }

  const FOUR: seq<Init<int>> :=
    [Init(0, NULL_PID, NULL_PRIORITY, false), Init(1, 1, 0, false), Init(2, 2, 1, false), Init(3, 3, 1, false)]

  lemma ReadyOfFour()
    ensures
      var (procs, ready) := InitProcesses<int, int>(FOUR);
      ready[0] == [1] && ready[1] == [2, 3] && Spec.FirstNonEmpty(ready) == 0 && procs.Keys == {0, 1, 2, 3}
  {
    var t1, t2, t3 := FOUR[..1], FOUR[..2], FOUR[..3];
    assert t3[..2] == t2 && t2[..1] == t1 && t1[..0] == [];
    var r1, r2, r3 := InitProcesses<int, int>(t1).1, InitProcesses<int, int>(t2).1, InitProcesses<int, int>(t3).1;
    assert r1 == Spec.PqEnqueue(InitProcesses<int, int>([]).1, NULL_PRIORITY, 0);
    assert r2 == Spec.PqEnqueue(r1, 0, 1);
    assert r3 == Spec.PqEnqueue(r2, 1, 2);
    assert InitProcesses<int, int>(FOUR).1 == Spec.PqEnqueue(r3, 1, 3);
  }

  lemma BootOfFour() returns (s: Sys<int, int>)
    ensures GoodTable(FOUR) && s == Boot(FOUR, [], [])
    ensures s.k.current == 1 && |s.k.ready| > 1 && s.k.ready[1] == [2, 3] && s.k.interrupted.None?
    ensures 3 in s.k.procs && s.k.procs[3] == Spec.Proc(3, 1, Ready, false, [], 0)
    ensures s.cont == map p | p in s.k.procs :: User
    ensures 1 in s.k.procs && s.k.procs[1].pid == 1
  {
    assert FOUR[0].pid == NULL_PID;
    s := Boot(FOUR, [], []);
    BootState<int, int>(FOUR, [], []);
    hide InitProcesses;
    ReadyOfFour();
    assert FOUR[3].who == 3 && FOUR[1].who == 1;
  }

  lemma IdleHasItsPid(s: Sys<int, int>)
    requires Inv(s) && 1 in s.k.procs && s.k.procs[1].pid == 1
    ensures s.idle != 1
  {
    hide Placement, Continuations, Conserved, Counted, NoLostWakeUp;
  }

  /** The first process of this system can move the last one of a level of two, and so makes the level stale. */
  lemma StrandingHappens() returns (s: Sys<int, int>)
    ensures GoodTable(FOUR) && s == Boot<int, int>(FOUR, [], []) && Inv(s)
    ensures s.k.procs[3] == Spec.Proc(3, 1, Ready, false, [], 0) && s.k.current == 1
    ensures Enabled(s, ChangePriorityOp(0, Some(3)))
    ensures After(s, ChangePriorityOp(0, Some(3)), NONE_STALE) == Stale({1}, {})
  {
    hide Inv, Boot, InitProcesses, Placement, Continuations, Conserved, Counted, NoLostWakeUp;
    s := BootOfFour();
    BootIsGood<int, int>(FOUR, [], []);
    IdleHasItsPid(s);
    assert Stranded(s.k, 0, Some(3)) == Stale({1}, {});
  }

  /** Moving it back then is the call that goes wrong: the level is stale and not empty. */
  lemma MissHappens()
    ensures GoodTable(FOUR) && Inv(Boot<int, int>(FOUR, [], []))
    ensures
      var (s, op, back) := (Boot<int, int>(FOUR, [], []), ChangePriorityOp(0, Some(3)), ChangePriorityOp(1, Some(3)));
      && Enabled(s, op) && Inv(Step(s, op)) && Enabled(Step(s, op), back)
      && Misses(Queues(Step(s, op), back), After(s, op, NONE_STALE))
  {
    hide Inv, Boot, InitProcesses, Placement, Continuations, Conserved, Counted, NoLostWakeUp;
    var s := StrandingHappens();
    KernelPreservation.StepKeepsInv(s, ChangePriorityOp(0, Some(3)));
  }
}
