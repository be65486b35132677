/**
 The kernel's objects on the heap. K() is the kernel state they stand for, and every
 primitive of the class does to K() what the function of the same name in KernelSpec does.
 */
module KernelHeap {
  import opened Common
  import Spec = KernelSpec
  import opened KernelSystem
  import opened KernelTails
  import opened MsgEnvQueues
  import opened ProcQueues

  type State = Spec.KState<Pcb, MsgEnv>

  ghost predicate IsFirst(table: seq<Pcb>, pid: int, p: Pcb) {
    p in table && p.pid == pid
    && exists i | 0 <= i < |table| :: table[i] == p && forall j | 0 <= j < i :: table[j].pid != pid
  }

  /** k_get_process: the first entry with the pid. */
  function Find(table: seq<Pcb>, pid: int): (r: Option<Pcb>)
    ensures r.None? <==> forall p | p in table :: p.pid != pid
    ensures r.Some? ==> IsFirst(table, pid, r.value)
  {
    if table == [] then None
    else if table[0].pid == pid then Some(table[0])
    else Find(table[1..], pid)
  }

  /** A possibly NULL block, and a possibly NULL envelope with a message area, as options. */
  function Block(p: Pcb?): Option<Pcb> {
    if p == null then None else Some(p)
  }

  function Envelope(e: MsgEnv?): Option<MsgEnv>
    reads if e == null then {} else {e}
  {
    if e == null || !e.hasMsg then None else Some(e)
  }

  class Kernel {
    const table: seq<Pcb>
    const readyPq: ProcPq
    const blockedPq: ProcPq
    const freeEnvQ: MsgEnvQueue
    const sysFreeEnvQ: MsgEnvQueue
    const envPool: seq<MsgEnv>
    const sysEnvPool: seq<MsgEnv>
    var current: Pcb
    var interrupted: Pcb?
    /** The blocks of the table, the envelopes of the two pools, and the queues of envelopes. */
    ghost const procs: set<Pcb>
    ghost const envs: set<MsgEnv>
    ghost const mailboxes: set<MsgEnvQueue>
    ghost const envQueues: set<MsgEnvQueue>
    /** The fields of all blocks, and the addresses of all envelopes sent so far, as values. */
    ghost var blocks: map<Pcb, Spec.Proc<MsgEnv>>
    ghost var headers: map<MsgEnv, Spec.Header>
    /** The only queue each envelope can be in. */
    ghost var home: map<MsgEnv, MsgEnvQueue>

    /** The object around tables and queues that are already filled in; first is dispatched. */
    constructor (table: seq<Pcb>, readyPq: ProcPq, blockedPq: ProcPq, freeEnvQ: MsgEnvQueue, sysFreeEnvQ: MsgEnvQueue,
                 envPool: seq<MsgEnv>, sysEnvPool: seq<MsgEnv>, first: Pcb)
      ensures this.table == table && this.readyPq == readyPq && this.blockedPq == blockedPq
      ensures this.freeEnvQ == freeEnvQ && this.sysFreeEnvQ == sysFreeEnvQ
      ensures this.envPool == envPool && this.sysEnvPool == sysEnvPool && current == first && interrupted == null
      ensures procs == (set p | p in table) && envs == (set e | e in envPool + sysEnvPool)
      ensures mailboxes == (set p | p in table :: p.recvMsgs) && envQueues == {freeEnvQ, sysFreeEnvQ} + mailboxes
      ensures blocks.Keys == procs && (forall p | p in table :: blocks[p] == BlockValue(p)) && headers == map[]
      ensures home == map e | e in envPool + sysEnvPool :: if e in sysEnvPool then sysFreeEnvQ else freeEnvQ
    {
      this.table, this.readyPq, this.blockedPq := table, readyPq, blockedPq;
      this.freeEnvQ, this.sysFreeEnvQ := freeEnvQ, sysFreeEnvQ;
      this.envPool, this.sysEnvPool := envPool, sysEnvPool;
      this.current, interrupted := first, null;
      headers := map[];
      home := map e | e in envPool + sysEnvPool :: if e in sysEnvPool then sysFreeEnvQ else freeEnvQ;
      procs, envs := set p | p in table, set e | e in envPool + sysEnvPool;
      mailboxes := set p | p in table :: p.recvMsgs;
      envQueues := {freeEnvQ, sysFreeEnvQ} + set p | p in table :: p.recvMsgs;
      blocks := map p | p in table :: Spec.Proc(p.pid, p.priority, p.state, p.isIProcess, p.recvMsgs.items, p.envOwned);
    }

    ghost predicate Layout() {
      && procs == (set p | p in table) && envs == (set e | e in envPool + sysEnvPool)
      && envQueues == {freeEnvQ, sysFreeEnvQ} + mailboxes && freeEnvQ != sysFreeEnvQ
      && freeEnvQ !in mailboxes && sysFreeEnvQ !in mailboxes
      && mailboxes == (set p | p in procs :: p.recvMsgs)
      && (forall p, p' | p in procs && p' in procs && p.recvMsgs == p'.recvMsgs :: p == p')
      && |readyPq.queues| == NUM_PRIORITIES + 1 && |blockedPq.queues| == NUM_PRIORITIES
    }

    ghost predicate ProcsLinked()
      reads readyPq, blockedPq, readyPq.queueSet, blockedPq.queueSet, procs`next
    {
      Apart(readyPq, blockedPq, procs) && Apart(blockedPq, readyPq, procs)
    }

    ghost predicate TailsKnown()
      reads readyPq`stale, blockedPq`stale, readyPq.queueSet, blockedPq.queueSet
    {
      readyPq.TailsKnown() && blockedPq.TailsKnown()
    }

    /** The levels at which an enqueue goes wrong. */
    ghost function Lost(): Stale
      reads readyPq`stale, blockedPq`stale
    {
      Stale(readyPq.stale, blockedPq.stale)
    }

    ghost predicate EnvsLinked()
      reads `home, envQueues, envs`next
    {
      Homed(envQueues, envs, home)
    }

    ghost function BlockValue(p: Pcb): Spec.Proc<MsgEnv>
      reads p`priority, p`state, p`envOwned, p.recvMsgs`items
    {
      Spec.Proc(p.pid, p.priority, p.state, p.isIProcess, p.recvMsgs.items, p.envOwned)
    }

    ghost predicate BlocksAgree()
      reads `blocks, procs`priority, procs`state, procs`envOwned, mailboxes`items
    {
      Layout() && blocks.Keys == procs && (forall p | p in procs :: blocks[p] == BlockValue(p))
    }

    ghost predicate HeadersAgree()
      reads `headers, envs`destPid, envs`sendPid
    {
      forall e | e in headers :: e in envs && headers[e] == Spec.Header(e.destPid, e.sendPid)
    }

    /** All but what ties the ghost field blocks to the blocks. */
    ghost predicate Structure()
      reads `home, `headers, `current, `interrupted, readyPq, blockedPq, readyPq.queueSet, blockedPq.queueSet,
            procs`next, envQueues, envs
    {
      && readyPq != blockedPq && Layout() && ProcsLinked() && EnvsLinked() && HeadersAgree()
      && current in procs && (interrupted != null ==> interrupted in procs)
    }

    ghost predicate Linked()
      reads this, readyPq, blockedPq, readyPq.queueSet, blockedPq.queueSet, procs, envQueues, envs
    {
      Structure() && BlocksAgree()
    }

    ghost predicate Valid()
      reads this, readyPq, blockedPq, readyPq.queueSet, blockedPq.queueSet, procs, envQueues, envs
    {
      Linked() && TailsKnown()
    }

    ghost function K(): State
      reads this, readyPq, blockedPq, freeEnvQ, sysFreeEnvQ
    {
      Spec.KState(blocks, readyPq.levels, blockedPq.levels, freeEnvQ.items, sysFreeEnvQ.items,
                  (set e | e in sysEnvPool), headers, current, Block(interrupted))
    }

    method GetProcess(pid: int) returns (pcb: Pcb?)
      ensures pcb == null <==> forall p | p in table :: p.pid != pid
      ensures pcb != null ==>
        && pcb.pid == pid
        && exists i | 0 <= i < |table| :: table[i] == pcb && forall j | 0 <= j < i :: table[j].pid != pid
      ensures Find(table, pid) == Block(pcb)
    {
      var i := 0;
      while i < |table|
        invariant 0 <= i <= |table|
        invariant Find(table, pid) == Find(table[i..], pid)
      {
        if table[i].pid == pid {
          return table[i];
        }
        assert table[i..][1..] == table[i + 1..];
        i := i + 1;
      }
      return null;
    }

    // ---- single assignments, each with what it does to K() ----

    /** blocks catches up with the only block that differs from it. */
    ghost method Record(p: Pcb)
      requires Structure() && Layout() && p in procs && blocks.Keys == procs
      requires forall x | x in procs && x != p :: blocks[x] == BlockValue(x)
      modifies `blocks
      ensures Linked() && blocks == old(blocks)[p := BlockValue(p)]
      ensures TailsKnown() <==> old(TailsKnown())
      ensures Lost() == old(Lost())
    {
      hide Structure, TailsKnown, Layout, BlockValue;
      blocks := blocks[p := BlockValue(p)];
    }

    method SetState(p: Pcb, st: ProcState)
      requires Linked() && p in procs
      modifies `blocks, p`state
      ensures Linked() && K() == Spec.WithState(old(K()), p, st)
      ensures old(TailsKnown()) ==> TailsKnown()
      ensures Lost() == old(Lost())
    {
      hide Structure, Layout, TailsKnown;
      p.state := st;
      Record(p);
    }

    method AddOwned(p: Pcb, delta: int)
      requires Linked() && p in procs
      modifies `blocks, p`envOwned
      ensures Linked() && K() == Spec.WithOwned(old(K()), p, delta)
      ensures old(TailsKnown()) ==> TailsKnown()
      ensures Lost() == old(Lost())
    {
      hide Structure, Layout, TailsKnown;
      p.envOwned := p.envOwned + delta;
      Record(p);
    }

    method SetCurrent(p: Pcb, interrupted: Pcb?)
      requires Linked() && p in procs && (interrupted != null ==> interrupted in procs)
      modifies `current, `interrupted
      ensures Linked() && K() == old(K()).(current := p, interrupted := Block(interrupted))
      ensures old(TailsKnown()) ==> TailsKnown()
      ensures Lost() == old(Lost())
      ensures current == p && this.interrupted == interrupted
    {
      hide Layout, ProcsLinked, EnvsLinked, TailsKnown, HeadersAgree, BlocksAgree;
      current, this.interrupted := p, interrupted;
    }

    method Address(e: MsgEnv, destPid: int, sendPid: int)
      requires Valid() && e in envs
      modifies `headers, e`destPid, e`sendPid
      ensures Valid() && K() == old(K()).(headers := old(K()).headers[e := Spec.Header(destPid, sendPid)])
      ensures Lost() == old(Lost())
    {
      hide Layout, ProcsLinked, EnvsLinked, TailsKnown, BlocksAgree;
      e.sendPid := sendPid;
      e.destPid := destPid;
      headers := headers[e := Spec.Header(destPid, sendPid)];
    }

    method DequeueReady() returns (p: Pcb?)
      requires Linked()
      modifies readyPq`levels, readyPq`stale, readyPq.queueSet, procs`next
      ensures Linked() && K() == old(K()).(ready := Spec.PqDequeue(old(K()).ready).1)
      ensures old(TailsKnown()) ==> TailsKnown() && Lost() == old(Lost()).(ready := Kept(K().ready, old(Lost()).ready))
      ensures Block(p) == Spec.PqDequeue(old(K()).ready).0 && (p != null ==> p in procs)
    {
      hide Layout, EnvsLinked, HeadersAgree, BlocksAgree, Apart, ProcPq.TailsKnown, Spec.PqDequeue, Kept;
      p := TakeFrom(readyPq, blockedPq, procs);
    }

    method PutReady(p: Pcb)
      requires Structure() && TailsKnown() && p in procs
      requires p !in Members(readyPq.levels) && p !in Members(blockedPq.levels)
      modifies readyPq`levels, readyPq.queueSet, blockedPq`levels, blockedPq.queueSet`items, procs`next
      ensures Structure()
      ensures p.priority in Lost().ready ==>
        0 <= p.priority < |readyPq.levels| && p !in readyPq.levels[p.priority] && readyPq.levels[p.priority] != []
      ensures p.priority !in Lost().ready ==> TailsKnown() && blockedPq.levels == old(blockedPq.levels)
      ensures p.priority !in Lost().ready ==> readyPq.levels == Spec.PqEnqueue(old(readyPq.levels), p.priority, p)
      ensures Lost() == old(Lost())
    {
      hide Layout, EnvsLinked, HeadersAgree, Apart, ProcPq.TailsKnown, Spec.PqEnqueue, Members, Occupied;
      PutInto(readyPq, blockedPq, procs, p);
    }

    /** p comes to the end of its level, unless that is stale. */
    method EnqueueReady(p: Pcb)
      requires Valid() && p in procs && Unqueued(K(), p)
      modifies readyPq`levels, readyPq.queueSet, blockedPq`levels, blockedPq.queueSet`items, procs`next
      ensures Linked() && (0 <= p.priority <= NUM_PRIORITIES ==> Spec.SomeoneReady(K()))
      ensures Reached(AtReady(p, p.priority), old(Lost()),
                      old(K()).(ready := Spec.PqEnqueue(old(K()).ready, p.priority, p)), old(Lost()))
    {
      hide Structure, BlocksAgree, TailsKnown, Members, Occupied, Lost;
      InTable();
      PutReady(p);
      assert 0 <= p.priority <= NUM_PRIORITIES ==> readyPq.levels[p.priority] != [];
    }

    method PutBlocked(p: Pcb)
      requires Structure() && TailsKnown() && p in procs
      requires p !in Members(readyPq.levels) && p !in Members(blockedPq.levels)
      modifies blockedPq`levels, blockedPq.queueSet, readyPq`levels, readyPq.queueSet`items, procs`next
      ensures Structure()
      ensures p.priority in Lost().blocked ==>
        0 <= p.priority < |blockedPq.levels| && p !in blockedPq.levels[p.priority] && blockedPq.levels[p.priority] != []
      ensures p.priority in Lost().blocked && Occupied(old(readyPq.levels)) ==> Occupied(readyPq.levels)
      ensures p.priority !in Lost().blocked ==> TailsKnown() && readyPq.levels == old(readyPq.levels)
      ensures p.priority !in Lost().blocked ==> blockedPq.levels == Spec.PqEnqueue(old(blockedPq.levels), p.priority, p)
      ensures Lost() == old(Lost())
    {
      hide Layout, EnvsLinked, HeadersAgree, Apart, ProcPq.TailsKnown, Spec.PqEnqueue, Members, Occupied;
      PutInto(blockedPq, readyPq, procs, p);
    }

    /** p comes to the end of its level, unless that is stale. */
    method EnqueueBlocked(p: Pcb)
      requires Valid() && p in procs && Unqueued(K(), p)
      modifies blockedPq`levels, blockedPq.queueSet, readyPq`levels, readyPq.queueSet`items, procs`next
      ensures Linked() && (Spec.SomeoneReady(old(K())) ==> Spec.SomeoneReady(K()))
      ensures Reached(AtBlocked(p, p.priority), old(Lost()),
                      old(K()).(blocked := Spec.PqEnqueue(old(K()).blocked, p.priority, p)), old(Lost()))
    {
      hide Structure, BlocksAgree, TailsKnown, Members, Spec.PqEnqueue, Lost;
      PutBlocked(p);
    }

    method DequeueBlocked() returns (p: Pcb?)
      requires Valid()
      modifies blockedPq`levels, blockedPq`stale, blockedPq.queueSet, procs`next
      ensures Valid() && K() == old(K()).(blocked := Spec.PqDequeue(old(K()).blocked).1)
      ensures Lost() == old(Lost()).(blocked := Kept(K().blocked, old(Lost()).blocked))
      ensures Block(p) == Spec.PqDequeue(old(K()).blocked).0
      ensures p != null ==> p in procs && Unqueued(K(), p)
    {
      hide Layout, EnvsLinked, HeadersAgree, BlocksAgree, Apart, ProcPq.TailsKnown, Spec.PqDequeue, Members, Kept;
      DisjointMembers(readyPq, blockedPq, procs);
      p := TakeFrom(blockedPq, readyPq, procs);
    }

    /** e is in no pool and no mailbox. */
    ghost predicate Loose(e: MsgEnv)
      reads envQueues`items
    {
      e in envs && forall q | q in envQueues :: e !in q.items
    }

    lemma OwnMailbox(p: Pcb)
      requires Layout() && p in procs
      ensures p.recvMsgs in envQueues && p.recvMsgs != freeEnvQ && p.recvMsgs != sysFreeEnvQ
      ensures forall x | x in procs && x != p :: x.recvMsgs != p.recvMsgs
    {
    }

    lemma PoolsNoMailboxes()
      requires Layout()
      ensures freeEnvQ in envQueues && sysFreeEnvQ in envQueues && freeEnvQ != sysFreeEnvQ
      ensures freeEnvQ !in mailboxes && sysFreeEnvQ !in mailboxes
    {
    }

    method IntoMailbox(p: Pcb, e: MsgEnv)
      requires Structure() && TailsKnown() && p in procs && Loose(e)
      modifies `home, p.recvMsgs, envs`next
      ensures Structure() && TailsKnown() && p.recvMsgs.items == old(p.recvMsgs.items) + [e]
      ensures Lost() == old(Lost())
    {
      hide Layout, BlocksAgree, ProcsLinked, TailsKnown, HeadersAgree, Homed;
      OwnMailbox(p);
      PutEnv(p.recvMsgs, e, envQueues, envs, home);
      home := home[e := p.recvMsgs];
    }

    method FromMailbox(p: Pcb) returns (e: MsgEnv)
      requires Structure() && TailsKnown() && p in procs && p.recvMsgs.items != []
      modifies p.recvMsgs, envs`next
      ensures Structure() && TailsKnown()
      ensures e == old(p.recvMsgs.items)[0] && p.recvMsgs.items == old(p.recvMsgs.items)[1..]
      ensures Lost() == old(Lost())
    {
      hide Layout, BlocksAgree, ProcsLinked, TailsKnown, HeadersAgree, Homed;
      OwnMailbox(p);
      e := TakeEnv(p.recvMsgs, envQueues, envs, home);
    }

    method Deliver(p: Pcb, e: MsgEnv)
      requires Valid() && p in procs && Loose(e)
      modifies `blocks, `home, p.recvMsgs, envs`next
      ensures Valid() && K() == Spec.Delivered(old(K()), p, e)
      ensures Lost() == old(Lost())
    {
      hide Structure, Layout, TailsKnown;
      OwnMailbox(p);
      IntoMailbox(p, e);
      Record(p);
    }

    method Collect(p: Pcb) returns (e: MsgEnv)
      requires Valid() && p in procs && p.recvMsgs.items != []
      modifies `blocks, p.recvMsgs, envs`next
      ensures Valid() && K() == Spec.Collected(old(K()), p)
      ensures e == old(p.recvMsgs.items)[0]
      ensures Lost() == old(Lost())
    {
      hide Structure, Layout, TailsKnown;
      OwnMailbox(p);
      e := FromMailbox(p);
      Record(p);
    }

    method PutFree(e: MsgEnv)
      requires Valid() && Loose(e)
      modifies `home, freeEnvQ, envs`next
      ensures Valid() && K() == old(K()).(free := old(K()).free + [e])
      ensures Lost() == old(Lost())
    {
      hide BlocksAgree, Layout, ProcsLinked, TailsKnown, HeadersAgree, Homed;
      PoolsNoMailboxes();
      PutEnv(freeEnvQ, e, envQueues, envs, home);
      home := home[e := freeEnvQ];
    }

    method PutSysFree(e: MsgEnv)
      requires Valid() && Loose(e)
      modifies `home, sysFreeEnvQ, envs`next
      ensures Valid() && K() == old(K()).(sysFree := old(K()).sysFree + [e])
      ensures Lost() == old(Lost())
    {
      hide BlocksAgree, Layout, ProcsLinked, TailsKnown, HeadersAgree, Homed;
      PoolsNoMailboxes();
      PutEnv(sysFreeEnvQ, e, envQueues, envs, home);
      home := home[e := sysFreeEnvQ];
    }

    method TakeFree() returns (e: MsgEnv)
      requires Valid() && freeEnvQ.items != []
      modifies freeEnvQ, envs`next
      ensures Valid() && e == old(freeEnvQ.items)[0] && K() == old(K()).(free := old(freeEnvQ.items)[1..])
      ensures Lost() == old(Lost())
    {
      hide BlocksAgree, Layout, ProcsLinked, TailsKnown, HeadersAgree, Homed;
      PoolsNoMailboxes();
      e := TakeEnv(freeEnvQ, envQueues, envs, home);
    }

    method TakeSysFree() returns (e: MsgEnv)
      requires Valid() && sysFreeEnvQ.items != []
      modifies sysFreeEnvQ, envs`next
      ensures Valid() && e == old(sysFreeEnvQ.items)[0] && K() == old(K()).(sysFree := old(sysFreeEnvQ.items)[1..])
      ensures Lost() == old(Lost())
    {
      hide BlocksAgree, Layout, ProcsLinked, TailsKnown, HeadersAgree, Homed;
      PoolsNoMailboxes();
      e := TakeEnv(sysFreeEnvQ, envQueues, envs, home);
    }

    // ---- the primitives ----

    /** The call has come to k and lost, or, if it enqueues at a level of stale, its block is not at that level. */
    ghost predicate Reached(q: Queueing<Pcb>, stale: Stale, k: State, lost: Stale)
      reads this, readyPq, blockedPq, freeEnvQ, sysFreeEnvQ, readyPq.queueSet, blockedPq.queueSet
    {
      if Misses(q, stale) then !Listed(q, K()) else K() == k && TailsKnown() && Lost() == lost
    }

    lemma ReachedWithoutQueueing(stale: Stale)
      requires TailsKnown()
      ensures Reached(Nowhere, stale, K(), Lost())
    {
    }

    /** What is stale is stale because it is not empty. */
    lemma StaleStays()
      requires Linked() && TailsKnown()
      ensures StillStale(K(), Lost()) == Lost()
    {
    }

    lemma InTable()
      requires Linked()
      ensures Rooted(K()) && K().procs.Keys == procs && Layout()
      ensures interrupted != null ==> interrupted in procs
      ensures forall p | p in procs :: K().procs[p] == BlockValue(p) && p.recvMsgs in mailboxes
      ensures (forall p | p in table :: p in procs) && freeEnvQ != sysFreeEnvQ
      ensures |readyPq.levels| == |readyPq.queues| == NUM_PRIORITIES + 1
      ensures |blockedPq.levels| == |blockedPq.queues| == NUM_PRIORITIES
    {
    }

    lemma RootedK()
      requires Linked()
      ensures Rooted(K()) && K().current == current && current in procs
    {
    }

    lemma Entries()
      requires Linked()
      ensures forall p | p in table :: p in procs
    {
    }

    lemma SystemEnvs()
      ensures K().sysEnvs == set e | e in sysEnvPool
    {
    }

    lemma ValueOf(p: Pcb)
      requires Linked() && p in procs
      ensures p in K().procs && K().procs[p] == BlockValue(p) && current in K().procs
    {
    }

    lemma NotQueued(p: Pcb)
      requires Filed(K()) && p in K().procs && K().procs[p].state !in {Ready, BlockedOnEnvRequest}
      ensures Unqueued(K(), p)
    {
    }

    method MakeReady(p: Pcb)
      requires Valid() && p in procs && Unqueued(K(), p)
      modifies `blocks, readyPq`levels, readyPq.queueSet, blockedPq`levels, blockedPq.queueSet`items,
               procs`next, procs`state
      ensures p in old(K()).procs && Linked()
      ensures Reached(AtReady(p, p.priority), old(Lost()), Spec.MakeReady(old(K()), p), old(Lost()))
    {
      hide Linked, TailsKnown, Spec.PqEnqueue, Members, K, Lost, Reached;
      ValueOf(p);
      SetState(p, Ready);
      EnqueueReady(p);
    }

    method ProcessSwitch(to: ProcState)
      requires Linked() && Spec.SomeoneReady(K())
      modifies `blocks, `current, `interrupted, readyPq`levels, readyPq`stale, readyPq.queueSet, procs`next, procs`state
      ensures Rooted(old(K())) && Linked() && K() == Spec.ProcessSwitch(old(K()), to)
      ensures old(TailsKnown()) ==> TailsKnown() && Lost() == old(Lost()).(ready := Kept(K().ready, old(Lost()).ready))
    {
      hide Structure, BlocksAgree, TailsKnown, Spec.PqDequeue, Kept, Lost;
      InTable();
      Spec.DequeueFinds(readyPq.levels);
      var oldProc := current;
      SetState(oldProc, to);
      var next := DequeueReady();
      SetCurrent(next, interrupted);
      SetState(current, Executing);
    }

    /** Send's bookkeeping, once the destination is known. */
    method Post(dest: Pcb, env: MsgEnv)
      requires Valid() && dest in procs && Loose(env)
      modifies `blocks, `headers, `home, procs`envOwned, dest.recvMsgs, envs`next, env`destPid, env`sendPid
      ensures dest in old(K()).procs && current in old(K()).procs && Valid()
      ensures K() == Spec.Posted(old(K()), dest, env) && Lost() == old(Lost())
      ensures env.sendPid == current.pid && env.destPid == dest.pid
    {
      hide Linked, TailsKnown, Lost, Loose, K;
      ghost var (to, sender) := (dest.pid, current.pid);
      LooseIsOurs(env);
      RootedK();
      ValueOf(dest);
      ValueOf(current);
      Address(env, dest.pid, current.pid);
      Deliver(dest, env);
      AddOwned(dest, 1);
      AddOwned(current, -1);
      HeaderIs(env);
    }

    lemma LooseIsOurs(e: MsgEnv)
      requires Loose(e)
      ensures e in envs
    {
    }

    /** The header recorded for an envelope is what its fields say. */
    lemma HeaderIs(env: MsgEnv)
      requires Linked() && env in K().headers
      ensures K().headers[env] == Spec.Header(env.destPid, env.sendPid)
    {
    }

    lemma HandFacts(dest: Pcb, env: MsgEnv)
      requires Linked() && Filed(K()) && dest in procs
      ensures dest in K().procs && current in K().procs && K().current == current
      ensures K().procs[dest] == BlockValue(dest)
      ensures dest.state == BlockedOnReceive ==> Unqueued(K(), dest)
    {
      ValueOf(dest);
      if dest.state == BlockedOnReceive {
        NotQueued(dest);
      }
    }

    method Hand(dest: Pcb, env: MsgEnv)
      requires Valid() && Filed(K()) && dest in procs && Loose(env)
      modifies `blocks, `headers, `home, readyPq`levels, readyPq.queueSet, blockedPq`levels, blockedPq.queueSet`items,
               procs`next, procs`state, procs`envOwned, dest.recvMsgs, envs`next, env`destPid, env`sendPid
      ensures dest in old(K()).procs && current in old(K()).procs && Linked()
      ensures Reached(SendQueues(old(K()), Some(dest), Some(env)), old(Lost()),
                      Spec.Handed(old(K()), dest, env), old(Lost()))
      ensures env.sendPid == current.pid && env.destPid == dest.pid
    {
      hide Linked, TailsKnown, Unqueued, Filed, Loose, K, Lost, Reached, SendQueues;
      hide Spec.Handed, Spec.Posted, Spec.MakeReady;
      HandFacts(dest, env);
      PostedFacts(K(), dest, env);
      Post(dest, env);
      if dest.state == BlockedOnReceive {
        MakeReady(dest);
      } else {
        ReachedWithoutQueueing(Lost());
      }
    }

    method SendMessage(destPid: int, env: MsgEnv?) returns (code: int)
      requires Valid() && Filed(K()) && (env != null && env.hasMsg ==> Loose(env))
      modifies `blocks, `headers, `home, readyPq`levels, readyPq.queueSet, blockedPq`levels, blockedPq.queueSet`items,
               procs`next, procs`state, procs`envOwned, mailboxes, envs`next,
               (if env == null || !env.hasMsg then {} else {env})`destPid,
               (if env == null || !env.hasMsg then {} else {env})`sendPid
      ensures Rooted(old(K())) && Linked()
      ensures code ==
        if env == null || !old(env.hasMsg) then ERROR_NULL_ARG
        else if forall p | p in table :: p.pid != destPid then ERROR_ILLEGAL_ARG
        else CODE_SUCCESS
      ensures code == CODE_SUCCESS ==> env.sendPid == current.pid && env.destPid == destPid
      ensures code != CODE_SUCCESS && env != null ==>
        env.sendPid == old(env.sendPid) && env.destPid == old(env.destPid)
      ensures
        var (dest, e) := (Find(table, destPid), old(Envelope(env)));
        && Reached(SendQueues(old(K()), dest, e), old(Lost()), Spec.Send(old(K()), dest, e).0, old(Lost()))
        && code == Spec.Send(old(K()), dest, e).1
    {
      hide Structure, BlocksAgree, TailsKnown, Members, Loose, Spec.Handed;
      InTable();
      hide Filed;
      if env == null || !env.hasMsg {
        return ERROR_NULL_ARG;
      }
      var dest := GetProcess(destPid);
      if dest == null {
        return ERROR_ILLEGAL_ARG;
      }
      Hand(dest, env);
      return CODE_SUCCESS;
    }

    /** One turn of the loop in k_receive_message; Switched means the loop test comes again on resumption. */
    method ReceiveTurn() returns (a: Spec.Attempt<MsgEnv>)
      requires Valid() && (current.isIProcess || Spec.SomeoneReady(K()))
      modifies `blocks, `current, `interrupted, readyPq`levels, readyPq`stale, readyPq.queueSet,
               procs`next, procs`state, mailboxes, envs`next
      ensures Rooted(old(K())) && Valid()
      ensures (K(), a) == Spec.Receive(old(K())) && Lost() == StillStale(K(), old(Lost()))
      ensures a ==
        if old(current.recvMsgs.items) != [] then Spec.Got(old(current.recvMsgs.items[0]))
        else if old(current).isIProcess then Spec.GotNull
        else Spec.Switched
    {
      hide Structure, BlocksAgree, TailsKnown, Spec.ProcessSwitch;
      InTable();
      StaleStays();
      if current.recvMsgs.head == null {
        EmptyMailbox(current);
        if current.isIProcess {
          return Spec.GotNull;
        }
        ProcessSwitch(BlockedOnReceive);
        return Spec.Switched;
      }
      EmptyMailbox(current);
      var env := Collect(current);
      return Spec.Got(env);
    }

    lemma EmptyMailbox(p: Pcb)
      requires Valid() && p in procs
      ensures p.recvMsgs.head == null <==> p.recvMsgs.items == []
    {
      assert p.recvMsgs.Valid();
    }

    lemma EmptyPools()
      requires Valid()
      ensures freeEnvQ.head == null <==> freeEnvQ.items == []
      ensures sysFreeEnvQ.head == null <==> sysFreeEnvQ.items == []
    {
      assert freeEnvQ.Valid() && sysFreeEnvQ.Valid();
    }

    /** A switch from where the call has come to. */
    method SwitchFrom(ghost q: Queueing<Pcb>, ghost stale: Stale, ghost k: State, to: ProcState)
      requires Linked() && Spec.SomeoneReady(K()) && Reached(q, stale, k, stale)
      requires Rooted(k) && Spec.SomeoneReady(k) && StillStale(k, stale) == stale
      modifies `blocks, `current, `interrupted, readyPq`levels, readyPq`stale, readyPq.queueSet, procs`next, procs`state
      ensures Linked()
      ensures var k' := Spec.ProcessSwitch(k, to); Reached(q, stale, k', StillStale(k', stale))
    {
      hide Linked, TailsKnown, K, Lost, Rooted, Spec.PqDequeue, Spec.SomeoneReady, Kept;
      RootedK();
      SwitchListsNobody(K(), to, q);
      ProcessSwitch(to);
    }

    lemma CallerFacts()
      requires Valid() && Filed(K()) && current.state == Executing
      ensures current in procs && Unqueued(K(), current) && Rooted(K())
      ensures K().current == current && K().procs[current] == BlockValue(current)
      ensures K().ready == readyPq.levels && |readyPq.levels| == NUM_PRIORITIES + 1
      ensures StillStale(K(), Lost()) == Lost()
    {
      StaleStays();
      ValueOf(current);
      NotQueued(current);
    }

    /** The caller goes to the blocked queues and the processor to the next process. */
    method WaitForEnv()
      requires Valid() && Filed(K()) && Spec.SomeoneReady(K()) && current.state == Executing
      modifies `blocks, `current, `interrupted, readyPq`levels, readyPq`stale, readyPq.queueSet,
               blockedPq`levels, blockedPq.queueSet, procs`next, procs`state
      ensures Rooted(old(K())) && Linked()
      ensures Spec.SomeoneReady(Waiting(old(K())))
      ensures
        var k := Spec.ProcessSwitch(Waiting(old(K())), BlockedOnEnvRequest);
        Reached(AtBlocked(old(current), old(current.priority)), old(Lost()), k, StillStale(k, old(Lost())))
    {
      hide Linked, TailsKnown, K, Lost, Reached, Filed, Unqueued, Rooted, StillStale;
      hide Spec.SomeoneReady, Spec.ProcessSwitch, Spec.PqEnqueue;
      CallerFacts();
      WaitingFacts(K(), Lost());
      ghost var k := Waiting(K());
      EnqueueBlocked(current);
      SwitchFrom(AtBlocked(current, current.priority), Lost(), k, BlockedOnEnvRequest);
    }

    /** k_request_msg_env from its start, or from the test of its inner loop. */
    method RequestTurn() returns (a: Spec.Attempt<MsgEnv>)
      requires Valid() && Filed(K()) && (current.isIProcess || Spec.SomeoneReady(K()))
      requires !current.isIProcess ==> current.state == Executing
      modifies `blocks, `current, `interrupted, readyPq`levels, readyPq`stale, readyPq.queueSet, blockedPq`levels,
               blockedPq.queueSet, procs`next, procs`state, procs`envOwned, freeEnvQ, sysFreeEnvQ, envs`next
      ensures Rooted(old(K())) && Linked()
      ensures
        var k := Spec.Request(old(K())).0;
        Reached(RequestQueues(old(K())), old(Lost()), k, StillStale(k, old(Lost())))
      ensures a ==
        if old(freeEnvQ.items) != [] then Spec.Got(old(freeEnvQ.items[0]))
        else if old(current).isIProcess && old(sysFreeEnvQ.items) != [] then Spec.Got(old(sysFreeEnvQ.items[0]))
        else if old(current).isIProcess then Spec.GotNull
        else Spec.Switched
    {
      hide Structure, BlocksAgree, TailsKnown, Spec.ProcessSwitch, Spec.PqEnqueue, Members, Lost;
      InTable();
      EmptyPools();
      StaleStays();
      if freeEnvQ.head == null {
        if current.isIProcess && sysFreeEnvQ.head != null {
          AddOwned(current, 1);
          var env := TakeSysFree();
          return Spec.Got(env);
        }
        if current.isIProcess {
          return Spec.GotNull;
        }
        WaitForEnv();
        return Spec.Switched;
      }
      AddOwned(current, 1);
      var env := TakeFree();
      return Spec.Got(env);
    }

    method Replenish(env: MsgEnv)
      requires Valid() && Loose(env)
      modifies `blocks, `home, readyPq`levels, readyPq.queueSet, blockedPq`levels, blockedPq`stale, blockedPq.queueSet,
               procs`next, procs`state, freeEnvQ, envs`next
      ensures Rooted(old(K())) && Linked()
      ensures
        var k := Spec.Replenished(old(K()), env);
        Reached(WokenQueues(old(K())), old(Lost()), k, StillStale(k, old(Lost())))
    {
      hide Linked, TailsKnown, K, Lost, Rooted, Loose, Unqueued, StillStale, WokenQueues;
      hide Spec.PqDequeue, Spec.MakeReady, Spec.Replenished, Kept;
      RootedK();
      StaleStays();
      WokenFacts(K(), env, Lost());
      PutFree(env);
      var blocked := DequeueBlocked();
      if blocked != null {
        ValueOf(blocked);
        MakeReady(blocked);
      }
    }

    /** The caller owns one envelope less than where the call has come to. */
    method Disown(ghost q: Queueing<Pcb>, ghost stale: Stale, ghost k: State, ghost lost: Stale)
      requires Linked() && Reached(q, stale, k, lost) && current in procs && current in k.procs
      modifies `blocks, procs`envOwned
      ensures Linked() && Reached(q, stale, Spec.WithOwned(k, current, -1), lost)
    {
      hide Linked, TailsKnown, K, Lost;
      ValueOf(current);
      AddOwned(current, -1);
    }

    method ReleaseMsgEnv(env: MsgEnv?) returns (code: int)
      requires Valid() && (env != null && env.hasMsg ==> Loose(env))
      modifies `blocks, `home, readyPq`levels, readyPq.queueSet, blockedPq`levels, blockedPq`stale, blockedPq.queueSet,
               procs`next, procs`state, procs`envOwned, freeEnvQ, sysFreeEnvQ, envs`next
      ensures Rooted(old(K())) && Linked()
      ensures
        var (k, e) := (Spec.Release(old(K()), old(Envelope(env))).0, old(Envelope(env)));
        Reached(ReleaseQueues(old(K()), e), old(Lost()), k, StillStale(k, old(Lost())))
      ensures code == if env == null || !env.hasMsg then ERROR_NULL_ARG else CODE_SUCCESS
    {
      hide Linked, TailsKnown, K, Lost, Reached, Loose, Rooted, Kept, Spec.Replenished, WokenQueues;
      RootedK();
      StaleStays();
      SystemEnvs();
      ValueOf(current);
      if env == null || !env.hasMsg {
        ReachedWithoutQueueing(Lost());
        return ERROR_NULL_ARG;
      }
      if env in sysEnvPool {
        PutSysFree(env);
        ReachedWithoutQueueing(Lost());
        Disown(Nowhere, Lost(), K(), Lost());
      } else {
        ghost var k := Spec.Replenished(K(), env);
        WokenFacts(K(), env, Lost());
        Replenish(env);
        Disown(WokenQueues(old(K())), old(Lost()), k, StillStale(k, old(Lost())));
      }
      return CODE_SUCCESS;
    }

    method ReleaseProcessor()
      requires Valid() && Filed(K()) && current.state == Executing && 0 <= current.priority < |readyPq.levels|
      modifies `blocks, `current, `interrupted, readyPq`levels, readyPq`stale, readyPq.queueSet, blockedPq`levels,
               blockedPq.queueSet`items, procs`next, procs`state
      ensures Rooted(old(K())) && Linked()
      ensures
        var k := Spec.ReleaseProcessor(old(K()));
        Reached(YieldQueues(old(K())), old(Lost()), k, StillStale(k, old(Lost())))
    {
      hide Linked, TailsKnown, K, Lost, Reached, Filed, Unqueued, Rooted, StillStale;
      hide Spec.SomeoneReady, Spec.ProcessSwitch, Spec.PqEnqueue;
      CallerFacts();
      YieldingFacts(K(), Lost());
      ghost var k := Yielding(K());
      EnqueueReady(current);
      SwitchFrom(AtReady(current, current.priority), Lost(), k, Ready);
    }

    method MoveReady(p: Pcb, priority: int)
      requires Structure() && TailsKnown() && p in procs && 0 <= p.priority < |readyPq.queues|
      requires p in readyPq.levels[p.priority] && 0 <= priority < |readyPq.levels| && priority != p.priority
      modifies readyPq`levels, readyPq`stale, readyPq.queueSet, blockedPq`levels, blockedPq.queueSet`items,
               procs`next, p`priority
      ensures Structure() && p.priority == priority && Lost().blocked == old(Lost().blocked)
      ensures Moved(old(readyPq.levels), old(Lost().ready), p, old(p.priority), priority,
                    Spec.LastOfSeveral(old(readyPq.levels), old(p.priority), p), readyPq.levels, Lost().ready)
      ensures priority !in old(Lost().ready) ==> blockedPq.levels == old(blockedPq.levels) && TailsKnown()
    {
      hide EnvsLinked, HeadersAgree, Layout, Apart, Moved, ProcPq.Walkable, ProcPq.TailsKnown, ProcPq.LosesTail;
      hide Spec.LastOfSeveral;
      LosesTailIff(readyPq, blockedPq, procs, p);
      Requeue(readyPq, blockedPq, procs, p, priority);
    }

    method RequeueReady(p: Pcb, priority: int)
      requires Valid() && p in procs && 0 <= p.priority < |readyPq.levels| && p in readyPq.levels[p.priority]
      requires 0 <= priority < NUM_PRIORITIES && priority != p.priority
      modifies `blocks, readyPq`levels, readyPq`stale, readyPq.queueSet, blockedPq`levels, blockedPq.queueSet`items,
               procs`next, p`priority
      ensures p in old(K()).procs && Linked() && p.priority == priority
      ensures
        var k := Spec.MovedReady(old(K()), p, priority);
        var last := old(Spec.LastOfSeveral(readyPq.levels, p.priority, p));
        Reached(AtReady(p, priority), old(Lost()), k,
                old(Lost()).(ready := AfterRemoval(k.ready, old(Lost()).ready, old(p.priority), last)))
    {
      hide Structure, BlocksAgree, Layout, TailsKnown, Lost, Rooted, AfterRemoval;
      hide Spec.PqEnqueue, Spec.PqRemove, Spec.LastOfSeveral;
      InTable();
      MoveReady(p, priority);
      Record(p);
    }

    method MoveBlocked(p: Pcb, priority: int)
      requires Structure() && TailsKnown() && p in procs && 0 <= p.priority < |blockedPq.queues|
      requires p in blockedPq.levels[p.priority] && 0 <= priority < |blockedPq.levels| && priority != p.priority
      modifies blockedPq`levels, blockedPq`stale, blockedPq.queueSet, readyPq`levels, readyPq.queueSet`items,
               procs`next, p`priority
      ensures Structure() && p.priority == priority && Lost().ready == old(Lost().ready)
      ensures Moved(old(blockedPq.levels), old(Lost().blocked), p, old(p.priority), priority,
                    Spec.LastOfSeveral(old(blockedPq.levels), old(p.priority), p), blockedPq.levels, Lost().blocked)
      ensures priority !in old(Lost().blocked) ==> readyPq.levels == old(readyPq.levels) && TailsKnown()
    {
      hide EnvsLinked, HeadersAgree, Layout, Apart, Moved, ProcPq.Walkable, ProcPq.TailsKnown, ProcPq.LosesTail;
      hide Spec.LastOfSeveral;
      LosesTailIff(blockedPq, readyPq, procs, p);
      Requeue(blockedPq, readyPq, procs, p, priority);
    }

    method RequeueBlocked(p: Pcb, priority: int)
      requires Valid() && p in procs && 0 <= p.priority < |blockedPq.levels| && p in blockedPq.levels[p.priority]
      requires 0 <= priority < NUM_PRIORITIES && priority != p.priority
      modifies `blocks, blockedPq`levels, blockedPq`stale, blockedPq.queueSet, readyPq`levels, readyPq.queueSet`items,
               procs`next, p`priority
      ensures p in old(K()).procs && Linked() && p.priority == priority
      ensures
        var k := Spec.MovedBlocked(old(K()), p, priority);
        var last := old(Spec.LastOfSeveral(blockedPq.levels, p.priority, p));
        Reached(AtBlocked(p, priority), old(Lost()), k,
                old(Lost()).(blocked := AfterRemoval(k.blocked, old(Lost()).blocked, old(p.priority), last)))
    {
      hide Structure, BlocksAgree, Layout, TailsKnown, Lost, Rooted, AfterRemoval;
      hide Spec.PqEnqueue, Spec.PqRemove, Spec.LastOfSeveral;
      InTable();
      MoveBlocked(p, priority);
      Record(p);
    }

    method Reprioritize(p: Pcb, priority: int)
      requires Valid() && p in procs
      modifies `blocks, p`priority
      ensures p in old(K()).procs && Valid() && K() == Spec.Reprioritized(old(K()), p, priority)
      ensures p.priority == priority
      ensures Lost() == old(Lost())
    {
      hide Structure, Layout, TailsKnown;
      p.priority := priority;
      Record(p);
    }

    /** What Table and Placement of the kernel system say of the queues and the priorities. */
    ghost predicate Levelled()
      reads this, readyPq, blockedPq, freeEnvQ, sysFreeEnvQ
    {
      && Placed(K().procs, K().ready, Ready) && Placed(K().procs, K().blocked, BlockedOnEnvRequest)
      && forall p | p in K().procs && !K().procs[p].isIProcess && K().procs[p].pid != NULL_PID ::
           0 <= K().procs[p].priority < NUM_PRIORITIES
    }

    lemma AtItsLevel(p: Pcb)
      requires Levelled() && p in K().procs && !K().procs[p].isIProcess && K().procs[p].pid != NULL_PID
      requires |K().ready| == NUM_PRIORITIES + 1 && |K().blocked| == NUM_PRIORITIES
      ensures 0 <= K().procs[p].priority < NUM_PRIORITIES
      ensures K().procs[p].state == Ready ==> p in K().ready[K().procs[p].priority]
      ensures K().procs[p].state == BlockedOnEnvRequest ==> p in K().blocked[K().procs[p].priority]
    {
      assert AtLevel(K().procs[p], K().procs[p].state, K().procs[p].priority);
    }

    method Regrade(p: Pcb, priority: int)
      requires Valid() && Levelled() && p in procs && !p.isIProcess && p.pid != NULL_PID
      requires 0 <= priority < NUM_PRIORITIES && priority != p.priority
      modifies `blocks, readyPq`levels, readyPq`stale, readyPq.queueSet, blockedPq`levels, blockedPq`stale,
               blockedPq.queueSet, procs`next, p`priority
      ensures p in old(K()).procs && Linked() && p.priority == priority
      ensures
        var k := Spec.Regraded(old(K()), p, priority);
        Reached(MoveQueues(old(K()), p, priority), old(Lost()), k,
                Both(StillStale(k, old(Lost())), StrandedBy(old(K()), p)))
    {
      hide Structure, BlocksAgree, TailsKnown, Levelled, Reached, Lost, AfterRemoval, StillStale, Both, StrandedBy;
      hide Spec.MovedReady, Spec.MovedBlocked, Spec.Reprioritized, Spec.LastOfSeveral;
      InTable();
      StaleStays();
      AtItsLevel(p);
      RegradedStale(K(), p, priority, Lost());
      match p.state {
        case Ready => RequeueReady(p, priority);
        case BlockedOnEnvRequest => RequeueBlocked(p, priority);
        case _ =>
          Reprioritize(p, priority);
          ReachedWithoutQueueing(Lost());
      }
    }

    /** The block comes to its new level, unless that is stale; its old level is stale if it was last behind another. */
    method ChangePriority(newPriority: int, targetPid: int) returns (r: Outcome)
      requires Valid() && Levelled()
      modifies `blocks, readyPq`levels, readyPq`stale, readyPq.queueSet, blockedPq`levels, blockedPq`stale,
               blockedPq.queueSet, procs`next, procs`priority
      ensures Rooted(old(K())) && Linked()
      ensures
        var target := Find(table, targetPid);
        var k := Spec.ChangePriority(old(K()), newPriority, target).0;
        && Reached(ChangeQueues(old(K()), newPriority, target), old(Lost()), k,
                   Both(StillStale(k, old(Lost())), Stranded(old(K()), newPriority, target)))
        && r == Spec.ChangePriority(old(K()), newPriority, target).1
      ensures
        var target := Find(table, targetPid);
        if 0 <= newPriority < NUM_PRIORITIES && target.Some? && !target.value.isIProcess && targetPid > NULL_PID then
          r == Code(CODE_SUCCESS) && target.value.priority == newPriority
          && forall p | p in procs && p != target.value :: p.priority == old(p.priority)
        else
          r == (if 0 <= newPriority < NUM_PRIORITIES && target.None? then NullDereference else Code(ERROR_ILLEGAL_ARG))
          && forall p | p in procs :: p.priority == old(p.priority)
    {
      hide Linked, TailsKnown, Levelled, K, Lost, Reached, StillStale, Both, Rooted, ChangeQueues, Stranded;
      hide Spec.Regraded, MoveQueues, StrandedBy;
      RootedK();
      Entries();
      StaleStays();
      ghost var target := Find(table, targetPid);
      if target.Some? {
        ValueOf(target.value);
      }
      ChangeFacts(K(), newPriority, target, Lost());
      if newPriority < 0 || newPriority >= NUM_PRIORITIES {
        ReachedWithoutQueueing(Lost());
        return Code(ERROR_ILLEGAL_ARG);
      }
      var pcb := GetProcess(targetPid);
      if pcb == null {
        ReachedWithoutQueueing(Lost());
        return NullDereference;
      }
      if pcb.isIProcess || pcb.pid < 0 || pcb.pid == NULL_PID {
        ReachedWithoutQueueing(Lost());
        return Code(ERROR_ILLEGAL_ARG);
      }
      if pcb.priority == newPriority {
        ReachedWithoutQueueing(Lost());
        return Code(CODE_SUCCESS);
      }
      Regrade(pcb, newPriority);
      return Code(CODE_SUCCESS);
    }

    method IsrEnter(source: int) returns (runs: bool)
      requires Valid()
      modifies `current, `interrupted
      ensures Valid()
      ensures
        var pid := Spec.HandlerPid(source);
        var handler := if pid.None? then None else Find(table, pid.value);
        runs == handler.Some? && K() == Spec.InterruptEnter(old(K()), handler)
      ensures Lost() == old(Lost())
      ensures runs <==>
        || (source == 1 && exists p | p in table :: p.pid == -2)
        || (source == 2 && exists p | p in table :: p.pid == -3)
      ensures runs ==> current.pid == (if source == 1 then -2 else -3) && interrupted == old(current)
      ensures !runs ==> current == old(current) && interrupted == old(interrupted)
    {
      hide Linked, TailsKnown, K, Lost;
      RootedK();
      Entries();
      var handler: Pcb? := null;
      if source == Spec.UART_ISR {
        handler := GetProcess(Spec.UART_I_PROCESS_PID);
      } else if source == Spec.TIMER_ISR {
        handler := GetProcess(Spec.TIMER_I_PROCESS_PID);
      }
      runs := handler != null;
      if handler != null {
        SetCurrent(handler, current);
      }
    }

    method IsrExit()
      requires Valid() && interrupted != null
      modifies `current, `interrupted
      ensures Valid() && K() == Spec.InterruptExit(old(K()))
      ensures current == old(interrupted) && interrupted == null
      ensures Lost() == old(Lost())
    {
      hide Structure, BlocksAgree, TailsKnown;
      InTable();
      SetCurrent(interrupted, null);
    }
  }

  /** The processes the queues and the current pointer name are entries of the table. */
  ghost predicate Rooted(k: State) {
    && k.current in k.procs
    && (forall l, p | 0 <= l < |k.ready| && p in k.ready[l] :: p in k.procs)
    && (forall l, p | 0 <= l < |k.blocked| && p in k.blocked[l] :: p in k.procs)
  }

  /** A process in a queue is in the state the queue is for. */
  ghost predicate Filed(k: State) {
    && (forall l, p | 0 <= l < |k.ready| && p in k.ready[l] :: p in k.procs && k.procs[p].state == Ready)
    && (forall l, p | 0 <= l < |k.blocked| && p in k.blocked[l] ::
          p in k.procs && k.procs[p].state == BlockedOnEnvRequest)
  }

  /** p is in none of the queues. */
  ghost predicate Unqueued(k: State, p: Pcb) {
    p !in Members(k.ready) && p !in Members(k.blocked)
  }

  /** The caller is at the end of its level of the blocked, or of the ready, queues. */
  ghost function Waiting(k: State): State
    requires k.current in k.procs
  {
    k.(blocked := Spec.PqEnqueue(k.blocked, k.procs[k.current].priority, k.current))
  }

  ghost function Yielding(k: State): State
    requires k.current in k.procs
  {
    k.(ready := Spec.PqEnqueue(k.ready, k.procs[k.current].priority, k.current))
  }

  lemma WaitingFacts(k: State, stale: Stale)
    requires Rooted(k) && Spec.SomeoneReady(k) && StillStale(k, stale) == stale
    ensures Rooted(Waiting(k)) && Spec.SomeoneReady(Waiting(k)) && StillStale(Waiting(k), stale) == stale
  {
    var l :| 0 <= l < |k.ready| && k.ready[l] != [];
    assert Waiting(k).ready[l] != [];
  }

  lemma YieldingFacts(k: State, stale: Stale)
    requires Rooted(k) && StillStale(k, stale) == stale && 0 <= k.procs[k.current].priority < |k.ready|
    ensures Rooted(Yielding(k)) && Spec.SomeoneReady(Yielding(k)) && StillStale(Yielding(k), stale) == stale
    ensures Spec.ReleaseProcessor(k) == Spec.ProcessSwitch(Yielding(k), Ready)
  {
    assert Yielding(k).ready[k.procs[k.current].priority] != [];
  }

  lemma WokenFacts(k: State, e: MsgEnv, stale: Stale)
    requires Rooted(k) && StillStale(k, stale) == stale
    ensures
      var (woken, rest) := Spec.PqDequeue(k.blocked);
      var k' := k.(free := k.free + [e], blocked := rest);
      && (woken.Some? ==> woken.value in k.procs)
      && Spec.Replenished(k, e) == (if woken.None? then k' else Spec.MakeReady(k', woken.value))
      && WokenQueues(k) == (if woken.None? then Nowhere else AtReady(woken.value, k.procs[woken.value].priority))
      && StillStale(Spec.Replenished(k, e), stale) == stale.(blocked := Kept(rest, stale.blocked))
      && Spec.Replenished(k, e).procs.Keys == k.procs.Keys
  {
    Spec.DequeueFinds(k.blocked);
    var (woken, rest) := Spec.PqDequeue(k.blocked);
    if woken.Some? {
      assert woken.value in k.blocked[Spec.FirstNonEmpty(k.blocked)];
    }
  }

  /** The calls that change no priority leave everything as it is. */
  lemma ChangeFacts(k: State, pr: int, target: Option<Pcb>, stale: Stale)
    requires (target.Some? ==> target.value in k.procs) && StillStale(k, stale) == stale
    ensures
      if Moves(k, pr, target) then
        && ChangeQueues(k, pr, target) == MoveQueues(k, target.value, pr)
        && Stranded(k, pr, target) == StrandedBy(k, target.value)
      else
        && ChangeQueues(k, pr, target) == Nowhere && Spec.ChangePriority(k, pr, target).0 == k
        && Both(StillStale(k, stale), Stranded(k, pr, target)) == stale
  {
    hide StillStale, Spec.Regraded, MoveQueues, StrandedBy;
  }

  /** What is stale after a change of priority, as each of its branches leaves it. */
  lemma RegradedStale(k: State, p: Pcb, priority: int, stale: Stale)
    requires p in k.procs && StillStale(k, stale) == stale
    ensures
      var (k', last) := (Spec.MovedReady(k, p, priority), Spec.LastOfSeveral(k.ready, k.procs[p].priority, p));
      k.procs[p].state == Ready ==>
        Both(StillStale(k', stale), StrandedBy(k, p))
          == stale.(ready := AfterRemoval(k'.ready, stale.ready, k.procs[p].priority, last))
    ensures
      var (k', last) := (Spec.MovedBlocked(k, p, priority), Spec.LastOfSeveral(k.blocked, k.procs[p].priority, p));
      k.procs[p].state == BlockedOnEnvRequest ==>
        Both(StillStale(k', stale), StrandedBy(k, p))
          == stale.(blocked := AfterRemoval(k'.blocked, stale.blocked, k.procs[p].priority, last))
    ensures k.procs[p].state !in {Ready, BlockedOnEnvRequest} ==>
      Both(StillStale(Spec.Reprioritized(k, p, priority), stale), StrandedBy(k, p)) == stale
  {
    hide Kept, Spec.PqEnqueue, Spec.PqRemove, Spec.LastOfSeveral;
  }

  /** A switch only takes a process off the queues. */
  lemma SwitchListsNobody(k: State, to: ProcState, q: Queueing<Pcb>)
    requires Rooted(k) && Spec.SomeoneReady(k)
    ensures Listed(q, Spec.ProcessSwitch(k, to)) ==> Listed(q, k)
  {
    Spec.DequeueFinds(k.ready);
  }

  lemma PostedFacts(k: State, d: Pcb, e: MsgEnv)
    requires k.current in k.procs && d in k.procs
    ensures
      var k' := Spec.Posted(k, d, e);
      && d in k'.procs
      && Spec.Handed(k, d, e) == if k.procs[d].state == BlockedOnReceive then Spec.MakeReady(k', d) else k'
    ensures Unqueued(k, d) ==> Unqueued(Spec.Posted(k, d, e), d)
    ensures SendQueues(k, Some(d), Some(e)) ==
      if k.procs[d].state == BlockedOnReceive then AtReady(d, k.procs[d].priority) else Nowhere
  {
  }

  lemma LosesTailIff(a: ProcPq, b: ProcPq, procs: set<Pcb>, p: Pcb)
    requires Apart(a, b, procs)
    ensures a.LosesTail(p) <==> Spec.LastOfSeveral(a.levels, p.priority, p)
    ensures |a.levels| == |a.queues|
  {
  }

  lemma DisjointMembers(a: ProcPq, b: ProcPq, procs: set<Pcb>)
    requires Apart(a, b, procs)
    ensures forall p | p in Members(b.levels) :: p !in Members(a.levels)
  {
  }
}
