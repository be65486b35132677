/** Process control blocks, their intrusive FIFO (proc_queue.c) and the array of FIFOs (proc_pq.c). */
module ProcQueues {
  import opened Common
  import opened KernelSpec
  import opened KernelQueues
  import opened KernelTails
  import opened MsgEnvQueues

  class Pcb {
    const pid: int
    const isIProcess: bool
    const recvMsgs: MsgEnvQueue
    var next: Pcb?
    var priority: int
    var state: ProcState
    var envOwned: int

    constructor (pid: int, priority: int, isIProcess: bool)
      ensures this.pid == pid && this.priority == priority && this.isIProcess == isIProcess
      ensures next == null && state == Ready && envOwned == 0
      ensures fresh(recvMsgs) && recvMsgs.Valid() && recvMsgs.items == []
    {
      this.pid, this.priority, this.isIProcess := pid, priority, isIProcess;
      next, state, envOwned := null, Ready, 0;
      recvMsgs := new MsgEnvQueue();
    }
  }

  /** s is a chain through the next fields, each block once, ending in NULL. */
  ghost predicate Chained(s: seq<Pcb>)
    reads s`next
  {
    && NoDuplicates(s)
    && (forall i | 0 <= i < |s| - 1 :: s[i].next == s[i + 1])
    && (s != [] ==> s[|s| - 1].next == null)
  }

  /** s up to p. */
  ghost function UpTo(s: seq<Pcb>, p: Pcb): (r: seq<Pcb>)
    requires p in s
    ensures r != [] && r <= s && r[|r| - 1] == p
  {
    var i :| 0 <= i < |s| && s[i] == p;
    s[..i + 1]
  }

  lemma UpToIs(s: seq<Pcb>, i: nat)
    requires NoDuplicates(s) && i < |s|
    ensures UpTo(s, s[i]) == s[..i + 1] && (i == |s| - 1 ==> UpTo(s, s[i]) == s)
  {
    assert s[|UpTo(s, s[i])| - 1] == s[i];
  }

  lemma ChainedBehind(s: seq<Pcb>, r: seq<Pcb>, p: Pcb)
    requires NoDuplicates(s) && r != [] && r <= s && p !in s
    requires forall k | 0 <= k < |r| - 1 :: s[k].next == s[k + 1]
    requires r[|r| - 1].next == p && p.next == null
    ensures Chained(r + [p])
  {
    AppendKeepsNoDuplicates(r, p);
  }

  class ProcQueue {
    var head: Pcb?
    var tail: Pcb?
    ghost var items: seq<Pcb>

    /** What a walk from head sees. */
    ghost predicate Walkable()
      reads this, items`next
    {
      Chained(items) && head == if items == [] then null else items[0]
    }

    /** tail is where the next enqueue links on; the code never reads it while the queue is empty. */
    ghost predicate TailInPlace()
      reads this
    {
      items != [] ==> tail == items[|items| - 1]
    }

    /** tail is on a block outside the queue: what is enqueued next cannot be reached from head. */
    ghost predicate TailLost()
      reads this
    {
      items != [] && tail != null && tail !in items
    }

    ghost predicate Valid()
      reads this, items`next
    {
      Walkable() && TailInPlace()
    }

    constructor ()
      ensures Valid() && items == [] && tail == null
    {
      head, tail, items := null, null, [];
    }

    predicate IsEmpty()
      requires Walkable()
      reads this, items`next
      ensures IsEmpty() <==> items == []
    {
      head == null
    }

    method Dequeue() returns (pcb: Pcb?)
      requires Walkable()
      modifies this, items`next
      ensures Walkable() && tail == old(tail)
      ensures old(items) == [] ==> pcb == null && items == []
      ensures old(items) != [] ==> pcb == old(items)[0] && items == old(items)[1..] && pcb.next == null
    {
      if head == null {
        return null;
      }
      // The test that would clear tail comes after the one above and never succeeds.
      pcb := head;
      head := head.next;
      pcb.next := null;
      items := items[1..];
    }

    /** pcb is linked behind tail: it joins the end, cuts off what follows tail, or follows a block outside. */
    method Enqueue(pcb: Pcb?) returns (code: int)
      requires Walkable() && (items != [] ==> tail != null)
      requires pcb != null ==> pcb !in items
      modifies this, (if items == [] || tail == null then {} else {tail})`next, (if pcb == null then {} else {pcb})`next
      ensures pcb == null ==> code == ERROR_NULL_ARG && unchanged(this) && unchanged(items) && Walkable()
      ensures pcb != null ==> code == CODE_SUCCESS && pcb.next == null
      ensures pcb != null && old(TailInPlace()) ==> Valid() && items == old(items) + [pcb]
      ensures pcb != null ==> tail == pcb && (old(items != [] && tail != pcb) ==> old(tail).next == pcb)
      ensures pcb != null && old(tail in items) ==> Valid() && items == old(UpTo(items, tail)) + [pcb]
      ensures pcb != null && old(items != [] && tail !in items) ==> Walkable() && items == old(items)
    {
      hide UpTo;
      if pcb == null {
        return ERROR_NULL_ARG;
      }
      ghost var kept := if items != [] && tail in items then UpTo(items, tail) else [];
      ghost var joins := items == [] || tail in items;
      if items != [] && TailInPlace() {
        UpToIs(items, |items| - 1);
      }
      if head == null {
        head := pcb;
      } else {
        tail.next := pcb;
      }
      tail := pcb;
      tail.next := null;
      if joins {
        if kept != [] {
          ChainedBehind(items, kept, pcb);
        }
        items := kept + [pcb];
      }
      return CODE_SUCCESS;
    }

    /** The branch of Remove that forgets tail. */
    ghost predicate LosesTail(pcb: Pcb)
      reads this
    {
      |items| >= 2 && pcb == items[|items| - 1]
    }

    /** The two assignments in the loop of Remove. */
    method Unlink(prev: Pcb, curr: Pcb, ghost i: nat)
      requires Walkable() && 0 < i < |items| && prev == items[i - 1] && curr == items[i]
      modifies `items, items`next
      ensures Walkable() && curr.next == null && items == Without(old(items), curr)
      ensures items != [] && ((items[|items| - 1] == old(items[|items| - 1])) <==> i < old(|items|) - 1)
    {
      ghost var q := items;
      WithoutAt(q, i);
      prev.next := curr.next;
      curr.next := null;
      items := Without(q, curr);
      assert forall k | 0 <= k < |items| :: items[k] == if k < i then q[k] else q[k + 1];
      hide Without;
    }

    method Remove(pcb: Pcb?) returns (removed: Pcb?)
      requires Walkable()
      modifies this, items`next
      ensures Walkable() && tail == old(tail)
      ensures removed == if pcb != null && pcb in old(items) then pcb else null
      ensures pcb != null ==> items == Without<Pcb>(old(items), pcb)
      ensures pcb == null ==> items == old(items)
      ensures removed != null ==> removed.next == null
      ensures pcb != null && old(TailInPlace()) ==> (TailInPlace() <==> !old(LosesTail(pcb)))
    {
      if pcb == null || head == null {
        return null;
      }
      if head == pcb {
        removed := Dequeue();
        return;
      }
      var prev, curr := head, head.next;
      ghost var i := 1;
      while curr != null
        invariant 1 <= i <= |items|
        invariant prev == items[i - 1] && curr == if i < |items| then items[i] else null
        invariant pcb !in items[..i]
        invariant items == old(items) && unchanged(this) && unchanged(items)
        decreases |items| - i
      {
        if curr == pcb {
          Unlink(prev, curr, i);
          return curr;
        }
        prev := curr;
        curr := curr.next;
        i := i + 1;
      }
      WithoutAbsent<Pcb>(items, pcb);
      return null;
    }
  }

  ghost predicate ShareNone(s: seq<Pcb>, t: seq<Pcb>) {
    forall i, j | 0 <= i < |s| && 0 <= j < |t| :: s[i] != t[j]
  }

  lemma MovedSharesNone(s: seq<Pcb>, t: seq<Pcb>, last: Pcb)
    requires NoDuplicates(s) && ShareNone(s, t) && last in s
    ensures ShareNone(Without(s, last), t) && last !in t && last !in Without(s, last)
    ensures forall x | x in Without(s, last) :: x in s
    ensures forall i | 0 <= i < |Without(s, last)| :: Without(s, last)[i] != last
  {
    WithoutMembers(s, last);
    forall i | 0 <= i < |Without(s, last)|
      ensures Without(s, last)[i] in s
    {
      assert Without(s, last)[i] in Without(s, last);
    }
  }

  method MoveLast(q: ProcQueue, other: ProcQueue, last: Pcb)
    requires q != other && q.Valid() && other.Valid() && q.LosesTail(last) && ShareNone(q.items, other.items)
    modifies q, other, q.items`next, other.items`next
    ensures q.Walkable() && q.items == Without(old(q.items), last) && q.items != [] && q.tail == last
    ensures other.Valid() && other.items == old(other.items) + [last] && ShareNone(q.items, other.items)
  {
    MovedSharesNone(q.items, other.items, last);
    hide Without, NoDuplicates;
    var removed := q.Remove(last);
    var code := other.Enqueue(last);
  }

  /** After its last block has moved to another queue, the next block enqueued cannot be reached from head: it is linked
      behind the block that moved, at the end of the other queue. */
  method EnqueueAfterLostTail(q: ProcQueue, other: ProcQueue, last: Pcb, pcb: Pcb)
    requires q != other && q.Valid() && other.Valid() && q.LosesTail(last)
    requires ShareNone(q.items, other.items) && pcb !in q.items && pcb !in other.items
    modifies q, other, q.items`next, other.items`next, pcb`next
    ensures q.Walkable() && q.items == Without(old(q.items), last) && q.tail == pcb
    ensures other.Walkable() && other.items == old(other.items) + [last] + [pcb] && other.tail == last
  {
    WithoutMembers(q.items, last);
    hide Without, NoDuplicates;
    MoveLast(q, other, last);
    assert last == other.items[|other.items| - 1];
    var code := q.Enqueue(pcb);
    ChainedBehind(other.items, other.items, pcb);
    other.items := other.items + [pcb];
  }

  /** The enqueue after that at the other queue takes the link: pcb is in neither queue any more. */
  method LostByBothQueues(q: ProcQueue, other: ProcQueue, last: Pcb, pcb: Pcb, another: Pcb)
    requires q != other && q.Valid() && other.Valid() && q.LosesTail(last)
    requires ShareNone(q.items, other.items) && pcb !in q.items && pcb !in other.items
    requires pcb != another && another !in q.items && another !in other.items
    modifies q, other, q.items`next, other.items`next, pcb`next, another`next
    ensures q.Walkable() && q.items == Without(old(q.items), last)
    ensures other.Valid() && other.items == old(other.items) + [last] + [another]
    ensures pcb !in q.items && pcb !in other.items && pcb.next == null
  {
    MovedSharesNone(q.items, other.items, last);
    hide Without, NoDuplicates, UpTo;
    ghost var moved := other.items + [last];
    EnqueueAfterLostTail(q, other, last, pcb);
    UpToIs(other.items, |moved| - 1);
    assert other.items[..|moved|] == moved;
    var code := other.Enqueue(another);
  }

  /** Everything that is in some level. */
  ghost function Members<P>(levels: seq<seq<P>>): (r: set<P>)
    ensures forall l, p | 0 <= l < |levels| && p in levels[l] :: p in r
  {
    set l, p | 0 <= l < |levels| && p in levels[l] :: p
  }

  ghost predicate Occupied<P>(levels: seq<seq<P>>) {
    exists l | 0 <= l < |levels| :: levels[l] != []
  }

  ghost predicate Separate<P>(levels: seq<seq<P>>) {
    forall i, j, p | 0 <= i < |levels| && 0 <= j < |levels| && p in levels[i] && p in levels[j] :: i == j
  }

  lemma RemovedLeaves<P>(levels: seq<seq<P>>, l: nat, p: P)
    requires Separate(levels) && l < |levels| && NoDuplicates(levels[l])
    ensures Members(levels[l := Without(levels[l], p)]) <= Members(levels)
    ensures p in levels[l] ==> p !in Members(levels[l := Without(levels[l], p)])
  {
    WithoutMembers(levels[l], p);
  }

  lemma RestIsApart<P>(levels: seq<seq<P>>, l: nat)
    requires Separate(levels) && l < |levels| && levels[l] != []
    ensures forall i, p | 0 <= i < |levels| && i != l && p in levels[i] :: p !in levels[l] && p !in levels[l][1..]
  {
  }

  /** s is a chain but for the link of t. */
  ghost predicate ChainedBut(s: seq<Pcb>, t: Pcb)
    reads (set p | p in s && p != t)`next
  {
    && NoDuplicates(s)
    && (forall i | 0 <= i < |s| - 1 && s[i] != t :: s[i].next == s[i + 1])
    && (s != [] && s[|s| - 1] != t ==> s[|s| - 1].next == null)
  }

  /** Where the walk of s goes once t names p, the end of a chain. */
  lemma ChainedThrough(s: seq<Pcb>, t: Pcb, p: Pcb)
    requires ChainedBut(s, t) && t in s && p !in s && t.next == p && p.next == null
    ensures Chained(UpTo(s, t) + [p])
  {
    var r := UpTo(s, t);
    forall k | 0 <= k < |r| - 1
      ensures s[k].next == s[k + 1]
    {
      assert s[|r| - 1] == t;
    }
    hide UpTo;
    ChainedBehind(s, r, p);
  }

  class ProcPq {
    const queues: seq<ProcQueue>
    ghost const queueSet: set<ProcQueue>
    ghost var levels: seq<seq<Pcb>>
    /** The levels whose tail is on a block outside. */
    ghost var stale: set<int>

    /** The queues are different objects, and the levels are what is in them and share no block. */
    ghost predicate Shaped()
      reads this, queueSet
    {
      && queueSet == (set q | q in queues)
      && (forall i, j | 0 <= i < j < |queues| :: queues[i] != queues[j])
      && |levels| == |queues| && Separate(levels)
      && (forall i | 0 <= i < |queues| :: queues[i].items == levels[i])
    }

    ghost predicate Walkable()
      reads this, queueSet, Members(levels)`next
    {
      Shaped() && forall i | 0 <= i < |queues| :: queues[i].Walkable()
    }

    ghost predicate TailsKnown()
      reads `stale, queueSet
    {
      && queueSet == (set q | q in queues)
      && (forall l | l in stale :: 0 <= l < |queues|)
      && forall l | 0 <= l < |queues| :: if l in stale then queues[l].TailLost() else queues[l].TailInPlace()
    }

    /** Every tail that was ever set is one of these blocks. */
    ghost predicate TailsAmong(procs: set<Pcb>)
      reads queueSet`tail
    {
      && queueSet == (set q | q in queues)
      && forall i | 0 <= i < |queues| && queues[i].tail != null :: queues[i].tail in procs
    }

    ghost predicate Valid()
      reads this, queueSet, Members(levels)`next
    {
      Walkable() && TailsKnown() && stale == {}
    }

    constructor (numPriorities: nat)
      ensures Valid() && levels == seq(numPriorities, _ => []) && |queues| == numPriorities && fresh(queueSet)
      ensures TailsAmong({})
    {
      var qs: seq<ProcQueue> := [];
      while |qs| < numPriorities
        invariant |qs| <= numPriorities && fresh(qs)
        invariant forall i | 0 <= i < |qs| :: qs[i].Valid() && qs[i].items == [] && qs[i].tail == null
        invariant forall i, j | 0 <= i < j < |qs| :: qs[i] != qs[j]
      {
        var q := new ProcQueue();
        qs := qs + [q];
      }
      queues, queueSet := qs, set q | q in qs;
      levels, stale := seq(numPriorities, _ => []), {};
    }

    /** No queue but that of level l has changed. */
    twostate predicate OnlyQueue(l: nat)
      reads queueSet
    {
      && queueSet == (set q | q in queues)
      && forall i | 0 <= i < |queues| && i != l :: unchanged(queues[i])
    }

    /** A change to the queue of one level alone leaves every queue walkable if no block joins from another level. */
    twostate lemma OthersStay(l: nat)
      requires old(Walkable()) && l < |queues| && queues[l].Walkable()
      requires levels == old(levels)[l := queues[l].items]
      requires OnlyQueue(l)
      requires forall i, p | 0 <= i < |queues| && i != l && p in levels[i] ::
        p !in queues[l].items && p.next == old(p.next)
      ensures Walkable()
    {
      forall i | 0 <= i < |queues| && i != l
        ensures queues[i].Walkable()
      {
        assert forall k | 0 <= k < |levels[i]| :: levels[i][k] in levels[i];
      }
    }

    twostate lemma TailsStayKnown(l: nat)
      requires old(Walkable()) && Walkable() && l < |queues| && levels == old(levels)[l := levels[l]]
      requires OnlyQueue(l) && old(TailsKnown()) && (forall i | i in stale :: i == l || i in old(stale))
      requires forall i | i in old(stale) && i != l && 0 <= i < |queues| && levels[i] != [] :: i in stale
      requires (l in stale ==> queues[l].TailLost()) && (l !in stale ==> queues[l].TailInPlace())
      ensures TailsKnown()
    {
      forall i | 0 <= i < |queues| && i != l
        ensures if i in stale then queues[i].TailLost() else queues[i].TailInPlace()
      {
        assert queues[i].items == old(queues[i].items);
      }
    }

    method DequeueFrom(l: nat) returns (pcb: Pcb)
      requires Walkable() && l < |queues| && levels[l] != []
      modifies `levels, `stale, queues[l], levels[l]`next
      ensures Walkable() && (old(TailsKnown()) ==> TailsKnown())
      ensures forall i | 0 <= i < |queues| :: queues[i].tail == old(queues[i].tail)
      ensures levels == old(levels)[l := old(levels[l])[1..]] && stale == Kept(levels, old(stale))
      ensures pcb == old(levels[l])[0] && pcb.next == null
    {
      RestIsApart(levels, l);
      pcb := queues[l].Dequeue();
      levels := levels[l := levels[l][1..]];
      stale := Kept(levels, stale);
      OthersStay(l);
      if old(TailsKnown()) {
        TailsStayKnown(l);
      }
    }

    ghost predicate WalkableBut(t: Pcb)
      reads this, queueSet, (set p | p in Members(levels) && p != t)`next
    {
      && Shaped() && (forall i | 0 <= i < |queues| :: ChainedBut(levels[i], t))
      && forall i | 0 <= i < |queues| :: queues[i].head == if levels[i] == [] then null else levels[i][0]
    }

    lemma WalkableIsBut(t: Pcb)
      requires Walkable()
      ensures WalkableBut(t)
    {
    }

    /** An enqueue has linked pcb on behind t, which may be in a level. The ghost fields follow. */
    ghost method Relink(t: Pcb, pcb: Pcb)
      requires WalkableBut(t) && pcb !in Members(levels) && t.next == pcb && pcb.next == null
      modifies `levels, queueSet`items
      ensures Walkable() && |levels| == |old(levels)|
      ensures forall i | 0 <= i < |levels| && t !in old(levels[i]) :: levels[i] == old(levels[i])
      ensures Members(levels) <= old(Members(levels)) + {pcb}
      ensures t !in old(Members(levels)) ==> levels == old(levels)
      ensures Occupied(old(levels)) ==> Occupied(levels)
    {
      if m :| 0 <= m < |levels| && t in levels[m] {
        ghost var cut := UpTo(levels[m], t) + [pcb];
        ChainedThrough(levels[m], t, pcb);
        hide UpTo;
        queues[m].items := cut;
        levels := levels[m := cut];
        assert levels[m] != [];
      }
    }

    /** The block that an enqueue at level l links on behind. */
    ghost function Behind(l: int): set<Pcb>
      reads queueSet
    {
      if 0 <= l < |queues| && queues[l] in queueSet && queues[l].items != [] && queues[l].tail != null then
        {queues[l].tail}
      else {}
    }

    lemma QueueAt(l: nat)
      requires Walkable() && l < |queues|
      ensures queues[l] in queueSet && queues[l].Walkable() && queues[l].items == levels[l] && |levels| == |queues|
      ensures forall p | p in levels[l] :: p in Members(levels)
      ensures forall i | 0 <= i < |queues| && i != l :: queues[i] != queues[l]
    {
    }

    lemma TailAt(l: nat)
      requires TailsKnown() && l < |queues|
      ensures (l in stale ==> queues[l].TailLost()) && (l !in stale ==> queues[l].TailInPlace())
      ensures queueSet == set q | q in queues
    {
    }

    /** After the enqueue at level l alone, with its tail in place. */
    twostate lemma Joined(l: nat)
      requires old(Walkable() && TailsKnown()) && l < |queues| && l !in old(stale) && stale == old(stale)
      requires queues[l].Valid() && queues[l].tail != null && queues[l].tail !in old(Members(levels))
      requires queues[l].items == old(levels[l]) + [queues[l].tail] && levels == old(levels)[l := queues[l].items]
      requires OnlyQueue(l)
      requires forall p | p in old(Members(levels)) && p !in old(levels[l]) :: p.next == old(p.next)
      ensures Walkable() && TailsKnown()
    {
      assert forall i, p | 0 <= i < |queues| && i != l && p in levels[i] :: p !in old(levels[l]);
      OthersStay(l);
      TailsStayKnown(l);
    }

    /** After the enqueue at level l alone, behind a tail outside: only the link of that block has changed. */
    twostate lemma ButForOneLink(l: nat)
      requires old(Walkable()) && l < |queues| && levels == old(levels) && old(queues[l].TailLost())
      requires queues[l].Walkable() && queues[l].items == levels[l]
      requires OnlyQueue(l)
      requires forall p | p in Members(levels) && p != old(queues[l].tail) :: p.next == old(p.next)
      ensures WalkableBut(old(queues[l].tail)) && (old(queues[l].tail) !in Members(levels) ==> Walkable())
    {
      var t := old(queues[l].tail);
      forall i | 0 <= i < |queues| && i != l
        ensures ChainedBut(levels[i], t)
      {
        assert old(queues[i].Walkable());
        assert forall k | 0 <= k < |levels[i]| :: levels[i][k] in Members(levels) by {
          assert forall k | 0 <= k < |levels[i]| :: levels[i][k] in levels[i];
        }
      }
    }

    method LinkAt(l: nat, pcb: Pcb)
      requires Walkable() && TailsKnown() && l < |queues| && pcb !in Members(levels)
      modifies `levels, queues[l], Behind(l)`next, pcb`next
      ensures pcb.next == null && queues[l].tail == pcb && OnlyQueue(l)
      ensures l !in stale ==> Walkable() && TailsKnown() && levels == old(levels)[l := old(levels[l]) + [pcb]]
      ensures l in stale ==> levels == old(levels) && WalkableBut(old(queues[l].tail)) && old(queues[l].TailLost())
      ensures l in stale && old(queues[l].tail) !in Members(levels) ==> Walkable()
      ensures l in stale && old(queues[l].tail) != pcb ==> old(queues[l].tail).next == pcb
    {
      TailAt(l);
      QueueAt(l);
      hide TailsKnown, Walkable, Members;
      var code := queues[l].Enqueue(pcb);
      assert OnlyQueue(l);
      hide Separate, WalkableBut, OnlyQueue;
      if l in stale {
        ButForOneLink(l);
      } else {
        levels := levels[l := levels[l] + [pcb]];
        Joined(l);
      }
    }

    method EnqueueAt(l: nat, pcb: Pcb)
      requires Walkable() && TailsKnown() && l < |queues| && pcb !in Members(levels)
      modifies `levels, queueSet, Behind(l)`next, pcb`next
      ensures Walkable() && pcb.next == null && queues[l].tail == pcb
      ensures forall i | 0 <= i < |queues| && i != l :: queues[i].tail == old(queues[i].tail)
      ensures l !in stale ==> levels == old(levels)[l := old(levels[l]) + [pcb]] && TailsKnown()
      ensures l in stale ==>
        && |levels| == |old(levels)| && levels[l] == old(levels[l]) && Members(levels) <= old(Members(levels)) + {pcb}
        && (old(queues[l].tail) !in old(Members(levels)) ==> levels == old(levels))
        && (old(queues[l].tail) != pcb ==> old(queues[l].tail).next == pcb)
    {
      QueueAt(l);
      hide TailsKnown, Walkable, WalkableBut, Members;
      LinkAt(l, pcb);
      if l in stale && old(queues[l].tail) != pcb {
        Relink(old(queues[l].tail), pcb);
      }
    }

    /** With a tail that is lost pcb does not come to its level; it may come to the one that the tail is in. */
    method Enqueue(pcb: Pcb?) returns (code: int)
      requires Walkable() && TailsKnown() && (pcb != null ==> pcb !in Members(levels))
      modifies `levels, queueSet, (if pcb == null then {} else Behind(pcb.priority))`next,
               (if pcb == null then {} else {pcb})`next
      ensures Walkable()
      ensures pcb == null ==> code == ERROR_NULL_ARG && levels == old(levels) && TailsKnown()
      ensures pcb != null ==> code == if 0 <= pcb.priority < |queues| then CODE_SUCCESS else ERROR_ILLEGAL_ARG
      ensures pcb != null && pcb.priority !in stale ==>
        levels == PqEnqueue<Pcb>(old(levels), pcb.priority, pcb) && TailsKnown()
      ensures pcb != null && pcb.priority in stale ==>
        && pcb.next == null && |levels| == |old(levels)| && 0 <= pcb.priority < |queues|
        && levels[pcb.priority] == old(levels[pcb.priority])
        && (old(queues[pcb.priority].tail) !in old(Members(levels)) ==> levels == old(levels))
        && (old(queues[pcb.priority].tail) != pcb ==> old(queues[pcb.priority].tail).next == pcb)
      ensures forall i | 0 <= i < |queues| :: queues[i].tail == old(queues[i].tail) || queues[i].tail == pcb
      ensures Members(levels) <= old(Members(levels)) + if pcb == null then {} else {pcb}
    {
      if pcb == null {
        return ERROR_NULL_ARG;
      }
      if pcb.priority < 0 || pcb.priority >= |queues| {
        return ERROR_ILLEGAL_ARG;
      }
      EnqueueAt(pcb.priority, pcb);
      return CODE_SUCCESS;
    }

    /** The removal that leaves a tail on a block outside its queue. */
    ghost predicate LosesTail(pcb: Pcb)
      reads pcb`priority, queueSet
    {
      queueSet == (set q | q in queues) && 0 <= pcb.priority < |queues| && queues[pcb.priority].LosesTail(pcb)
    }

    /** After a removal at level l alone: stale loses the level if it is empty now, and gains it if it lost its tail. */
    twostate lemma Removed(l: nat)
      requires old(Walkable() && TailsKnown()) && l < |queues| && OnlyQueue(l)
      requires queues[l].Walkable() && queues[l].tail == old(queues[l].tail)
      requires levels == old(levels)[l := queues[l].items]
      requires forall p | p in levels[l] :: p in old(levels[l])
      requires forall p | p in old(Members(levels)) && p !in old(levels[l]) :: p.next == old(p.next)
      requires levels[l] != [] ==>
        if l in old(stale) || l in stale then queues[l].tail != null && queues[l].tail !in levels[l]
        else queues[l].TailInPlace()
      requires stale == Kept(levels, old(stale)) + if l in stale then {l} else {}
      requires l in stale ==> levels[l] != []
      ensures Walkable() && TailsKnown()
    {
      assert forall i, p | 0 <= i < |queues| && i != l && p in levels[i] ::
          p in old(Members(levels)) && p !in old(levels[l]);
      OthersStay(l);
      TailsStayKnown(l);
    }

    method RemoveAt(l: nat, pcb: Pcb) returns (removed: Pcb?)
      requires Walkable() && TailsKnown() && l < |queues|
      modifies `levels, `stale, queues[l], levels[l]`next
      ensures Walkable() && TailsKnown()
      ensures removed == if pcb in old(levels[l]) then pcb else null
      ensures removed != null ==> removed.next == null
      ensures forall i | 0 <= i < |queues| :: queues[i].tail == old(queues[i].tail)
      ensures levels == old(levels)[l := Without(old(levels[l]), pcb)]
      ensures stale == Kept(levels, old(stale)) + if old(queues[l].LosesTail(pcb)) then {l} else {}
    {
      WithoutMembers(levels[l], pcb);
      TailAt(l);
      removed := queues[l].Remove(pcb);
      assert OnlyQueue(l);
      levels := levels[l := Without(levels[l], pcb)];
      stale := Kept(levels, stale) + if old(queues[l].LosesTail(pcb)) then {l} else {};
      hide OnlyQueue, Separate, Without, TailsKnown;
      Removed(l);
    }

    method Remove(pcb: Pcb?) returns (removed: Pcb?)
      requires Walkable() && TailsKnown()
      modifies `levels, `stale, queueSet, Members(levels)`next
      ensures Walkable() && TailsKnown()
      ensures pcb == null ==> levels == old(levels) && stale == old(stale)
      ensures pcb != null ==> levels == PqRemove<Pcb>(old(levels), pcb.priority, pcb)
      ensures pcb != null ==> stale == AfterRemoval(levels, old(stale), pcb.priority, old(LosesTail(pcb)))
      ensures removed != null ==> removed == pcb && removed.next == null
      ensures forall i | 0 <= i < |queues| :: queues[i].tail == old(queues[i].tail)
      ensures Members(levels) <= old(Members(levels))
      ensures pcb != null && 0 <= pcb.priority < |queues| && pcb in old(levels[pcb.priority]) ==>
        pcb !in Members(levels)
    {
      hide Members, Separate, Without;
      if pcb != null && 0 <= pcb.priority < |queues| {
        RemovedLeaves<Pcb>(levels, pcb.priority, pcb);
        removed := RemoveAt(pcb.priority, pcb);
      } else {
        removed := null;
      }
    }

    method Dequeue() returns (pcb: Pcb?)
      requires Walkable()
      modifies `levels, `stale, queueSet, Members(levels)`next
      ensures Walkable() && (old(TailsKnown()) ==> TailsKnown())
      ensures forall i | 0 <= i < |queues| :: queues[i].tail == old(queues[i].tail)
      ensures levels == PqDequeue(old(levels)).1
      ensures old(TailsKnown()) ==> stale == Kept(levels, old(stale))
      ensures PqDequeue(old(levels)).0 == if pcb == null then None else Some(pcb)
      ensures pcb != null ==> pcb.next == null && pcb in old(Members(levels)) && pcb !in Members(levels)
      ensures Members(levels) <= old(Members(levels))
    {
      hide PqDequeue;
      var priority := 0;
      while priority < |queues|
        invariant 0 <= priority <= |queues|
        invariant forall i | 0 <= i < priority :: levels[i] == []
      {
        if !queues[priority].IsEmpty() {
          break;
        }
        priority := priority + 1;
      }
      DequeueIs(levels, priority);
      if priority < |queues| {
        assert levels[priority] == [levels[priority][0]] + levels[priority][1..];
        pcb := DequeueFrom(priority);
      } else {
        pcb := null;
      }
    }
  }

  // ---- two sets of queues over one process table ----

  /** a and b share the next field of the blocks in procs, but no block and no queue. */
  ghost predicate Apart(a: ProcPq, b: ProcPq, procs: set<Pcb>)
    reads a, b, a.queueSet, b.queueSet, procs`next
  {
    && a != b && a.queueSet !! b.queueSet
    && Members(a.levels) <= procs && Members(b.levels) <= procs && Members(a.levels) !! Members(b.levels)
    && a.Walkable() && b.Walkable() && a.TailsAmong(procs)
  }

  method TakeFrom(a: ProcPq, ghost b: ProcPq, ghost procs: set<Pcb>) returns (p: Pcb?)
    requires Apart(a, b, procs) && Apart(b, a, procs)
    modifies a`levels, a`stale, a.queueSet, procs`next
    ensures Apart(a, b, procs) && Apart(b, a, procs)
    ensures old(a.TailsKnown()) ==> a.TailsKnown() && a.stale == Kept(a.levels, old(a.stale))
    ensures old(b.TailsKnown()) ==> b.TailsKnown()
    ensures a.levels == PqDequeue(old(a.levels)).1
    ensures PqDequeue(old(a.levels)).0 == if p == null then None else Some(p)
    ensures p != null ==> p in procs && p in old(Members(a.levels)) && p !in Members(a.levels)
  {
    hide PqDequeue, Members, ProcPq.Walkable, ProcPq.TailsKnown;
    p := a.Dequeue();
  }

  /** The ghost fields of b follow a link made from t, which is in b, to p. */
  ghost method RelinkBeside(a: ProcPq, b: ProcPq, procs: set<Pcb>, t: Pcb, p: Pcb)
    requires a.Walkable() && a.TailsAmong(procs) && b.WalkableBut(t) && b.TailsAmong(procs)
    requires a != b && a.queueSet !! b.queueSet && Members(a.levels) !! Members(b.levels)
    requires Members(a.levels) <= procs && Members(b.levels) <= procs && p in procs
    requires p !in Members(a.levels) && p !in Members(b.levels) && t.next == p && p.next == null
    modifies b`levels, b.queueSet`items
    ensures Apart(a, b, procs) && Apart(b, a, procs) && (Occupied(old(b.levels)) ==> Occupied(b.levels))
  {
    hide Members, Occupied, ProcPq.Walkable, ProcPq.WalkableBut, ProcPq.TailsAmong;
    b.Relink(t, p);
  }

  lemma StillApart(a: ProcPq, b: ProcPq, procs: set<Pcb>, before: set<Pcb>, p: Pcb)
    requires a.Walkable() && a.TailsAmong(procs) && b.Walkable() && b.TailsAmong(procs)
    requires a != b && a.queueSet !! b.queueSet && before !! Members(b.levels)
    requires Members(a.levels) <= before + {p} && before <= procs && Members(b.levels) <= procs
    requires p in procs && p !in Members(b.levels)
    ensures Apart(a, b, procs) && Apart(b, a, procs)
  {
  }

  /** The enqueue at a level of a. */
  method PutIntoOne(a: ProcPq, ghost procs: set<Pcb>, p: Pcb)
    requires a.Walkable() && a.TailsKnown() && a.TailsAmong(procs) && p in procs && p !in Members(a.levels)
    modifies a`levels, a.queueSet, a.Behind(p.priority)`next, p`next
    ensures a.Walkable() && a.TailsAmong(procs) && Members(a.levels) <= old(Members(a.levels)) + {p}
    ensures p.priority !in a.stale ==> a.levels == PqEnqueue(old(a.levels), p.priority, p) && a.TailsKnown()
    ensures p.priority in a.stale ==>
      0 <= p.priority < |a.levels| && p !in a.levels[p.priority] && a.levels[p.priority] != []
    ensures p.priority in a.stale && old(a.queues[p.priority].tail) !in old(Members(a.levels)) ==>
      a.levels == old(a.levels)
    ensures p.priority in a.stale && old(a.queues[p.priority].tail) != p ==>
      old(a.queues[p.priority].tail).next == p && p.next == null
  {
    TailBelongs(a, procs, p.priority);
    if p.priority in a.stale {
      NotAt(a.levels, p.priority, p);
    }
    hide Members, ProcPq.Walkable, ProcPq.TailsKnown;
    var code := a.Enqueue(p);
  }

  /** What that does to b: nothing, unless the tail that is lost is in it. */
  method PutBeside(a: ProcPq, ghost b: ProcPq, ghost procs: set<Pcb>, p: Pcb)
    requires Apart(a, b, procs) && a.TailsKnown() && p in procs && p !in Members(a.levels) && p !in Members(b.levels)
    modifies a`levels, a.queueSet, a.Behind(p.priority)`next, p`next
    ensures a.Walkable() && a.TailsAmong(procs) && Members(a.levels) <= old(Members(a.levels)) + {p}
    ensures p.priority !in a.stale ==> a.levels == PqEnqueue(old(a.levels), p.priority, p) && a.TailsKnown()
    ensures p.priority !in a.stale ==> b.Walkable()
    ensures p.priority in a.stale ==>
      0 <= p.priority < |a.levels| && p !in a.levels[p.priority] && a.levels[p.priority] != []
    ensures p.priority in a.stale ==>
      var t := old(a.queues[p.priority].tail);
      && t != null
      && (t !in Members(b.levels) ==> b.Walkable())
      && (t in Members(b.levels) ==> b.WalkableBut(t) && t.next == p && p.next == null && a.levels == old(a.levels))
  {
    hide PqEnqueue, Members, ProcPq.Walkable, ProcPq.WalkableBut, ProcPq.TailsKnown, ProcPq.Behind, ProcPq.TailsAmong;
    hide ProcQueue.TailLost;
    TailBelongs(a, procs, p.priority);
    if p.priority in a.stale {
      b.WalkableIsBut(a.queues[p.priority].tail);
    }
    PutIntoOne(a, procs, p);
  }

  /** p is enqueued at a level of a; if that is stale, p is not there, and may be anywhere in a or b. */
  method PutInto(a: ProcPq, ghost b: ProcPq, ghost procs: set<Pcb>, p: Pcb)
    requires Apart(a, b, procs) && Apart(b, a, procs) && a.TailsKnown() && b.TailsKnown()
    requires p in procs && p !in Members(a.levels) && p !in Members(b.levels)
    modifies a`levels, a.queueSet, b`levels, b.queueSet`items, procs`next
    ensures Apart(a, b, procs) && Apart(b, a, procs)
    ensures p.priority !in a.stale ==> a.levels == PqEnqueue(old(a.levels), p.priority, p) && a.TailsKnown()
    ensures p.priority !in a.stale ==> b.TailsKnown() && b.levels == old(b.levels)
    ensures p.priority in a.stale ==>
      0 <= p.priority < |a.levels| && p !in a.levels[p.priority] && a.levels[p.priority] != []
    ensures p.priority in a.stale && Occupied(old(b.levels)) ==> Occupied(b.levels)
  {
    hide PqEnqueue, Occupied, Members, ProcPq.Walkable, ProcPq.WalkableBut, ProcPq.TailsKnown, ProcPq.Behind;
    hide ProcPq.TailsAmong, ProcQueue.TailLost;
    TailBelongs(a, procs, p.priority);
    PutBeside(a, b, procs, p);
    if p.priority in a.stale && old(a.queues[p.priority].tail) in Members(b.levels) {
      RelinkBeside(a, b, procs, old(a.queues[p.priority].tail), p);
    } else {
      StillApart(a, b, procs, old(Members(a.levels)), p);
    }
  }

  /** The removal with which p leaves its level of a. */
  method TakeOut(a: ProcPq, ghost b: ProcPq, ghost procs: set<Pcb>, p: Pcb)
    requires Apart(a, b, procs) && Apart(b, a, procs) && a.TailsKnown() && b.TailsKnown()
    requires p in procs && 0 <= p.priority < |a.queues| && p in a.levels[p.priority]
    modifies a`levels, a`stale, a.queueSet, procs`next
    ensures Apart(a, b, procs) && Apart(b, a, procs) && a.TailsKnown() && b.TailsKnown()
    ensures p !in Members(a.levels) && p !in Members(b.levels)
    ensures a.levels == PqRemove(old(a.levels), p.priority, p)
    ensures a.stale == AfterRemoval(a.levels, old(a.stale), p.priority, old(a.LosesTail(p)))
  {
    hide PqRemove, ProcPq.Walkable, ProcPq.TailsKnown, ProcPq.LosesTail, AfterRemoval;
    MemberAt(a, p);
    hide Members;
    var removed := a.Remove(p);
  }

  lemma OtherLevel(a: ProcPq, l: int, m: int, p: Pcb)
    requires a.Walkable() && a.TailsKnown() && 0 <= l < |a.levels| && l != m
    ensures
      var levels := PqRemove(a.levels, m, p);
      && |levels| == |a.levels| && levels[l] == a.levels[l]
      && forall lost: bool :: l in AfterRemoval(levels, a.stale, m, lost) <==> l in a.stale
  {
  }

  lemma NotAt<P>(levels: seq<seq<P>>, l: int, p: P)
    requires p !in Members(levels) && 0 <= l < |levels|
    ensures p !in levels[l]
  {
  }

  /** An enqueue at a level that is not stale changes nothing of what is. */
  lemma KeptByEnqueue<P>(levels: seq<seq<P>>, l: int, p: P, stale: set<int>, m: int, lost: bool)
    requires l !in stale
    ensures AfterRemoval(PqEnqueue(levels, l, p), stale, m, lost) == AfterRemoval(levels, stale, m, lost)
  {
  }

  /** p has left its level, and is to go to the one of its new priority. */
  method TakeOutTo(a: ProcPq, ghost b: ProcPq, ghost procs: set<Pcb>, p: Pcb, priority: int)
    requires Apart(a, b, procs) && Apart(b, a, procs) && a.TailsKnown() && b.TailsKnown()
    requires p in procs && 0 <= p.priority < |a.queues| && p in a.levels[p.priority]
    requires 0 <= priority < |a.levels| && priority != p.priority
    modifies a`levels, a`stale, a.queueSet, procs`next, p`priority
    ensures Apart(a, b, procs) && Apart(b, a, procs) && a.TailsKnown() && b.TailsKnown()
    ensures p.priority == priority && p !in Members(a.levels) && p !in Members(b.levels)
    ensures a.levels == PqRemove(old(a.levels), old(p.priority), p)
    ensures a.stale == AfterRemoval(a.levels, old(a.stale), old(p.priority), old(a.LosesTail(p)))
  {
    hide PqRemove, Apart, Members, ProcPq.TailsKnown, ProcPq.LosesTail, AfterRemoval;
    TakeOut(a, b, procs, p);
    p.priority := priority;
  }

  /**
   p from one level to the end of another: the first becomes stale if it loses its tail, and p is not at the second if
   that is stale.
   */
  predicate Moved<P(==)>(levels: seq<seq<P>>, stale: set<int>, p: P, source: int, target: int, lost: bool,
                         levels': seq<seq<P>>, stale': set<int>) {
    if target in stale then 0 <= target < |levels'| && p !in levels'[target]
    else
      && levels' == PqEnqueue(PqRemove(levels, source, p), target, p)
      && stale' == AfterRemoval(levels', stale, source, lost)
  }

  /** Remove, new priority, enqueue. */
  method Requeue(a: ProcPq, ghost b: ProcPq, ghost procs: set<Pcb>, p: Pcb, priority: int)
    requires Apart(a, b, procs) && Apart(b, a, procs) && a.TailsKnown() && b.TailsKnown()
    requires p in procs && 0 <= p.priority < |a.queues| && p in a.levels[p.priority]
    requires 0 <= priority < |a.levels| && priority != p.priority
    modifies a`levels, a`stale, a.queueSet, b`levels, b.queueSet`items, procs`next, p`priority
    ensures p.priority == priority && Apart(a, b, procs) && Apart(b, a, procs)
    ensures Moved(old(a.levels), old(a.stale), p, old(p.priority), priority, old(a.LosesTail(p)), a.levels, a.stale)
    ensures priority !in old(a.stale) ==> b.levels == old(b.levels) && a.TailsKnown() && b.TailsKnown()
  {
    hide PqEnqueue, PqRemove, Members, ProcPq.TailsKnown, ProcPq.LosesTail, AfterRemoval;
    OtherLevel(a, priority, p.priority, p);
    TakeOutTo(a, b, procs, p, priority);
    if priority !in old(a.stale) {
      KeptByEnqueue(a.levels, priority, p, old(a.stale), old(p.priority), old(a.LosesTail(p)));
    }
    PutInto(a, b, procs, p);
  }

  lemma TailBelongs(a: ProcPq, procs: set<Pcb>, l: int)
    requires a.Walkable() && a.TailsKnown() && a.TailsAmong(procs)
    ensures a.Behind(l) <= procs && |a.levels| == |a.queues| && (l !in a.stale ==> a.Behind(l) <= Members(a.levels))
    ensures l in a.stale ==> 0 <= l < |a.queues| && a.queues[l].TailLost() && a.queues[l].tail in procs
    ensures l in a.stale ==> a.Behind(l) == {a.queues[l].tail} && a.levels[l] != []
  {
  }

  lemma MemberAt(a: ProcPq, p: Pcb)
    requires a.Walkable() && 0 <= p.priority < |a.queues| && p in a.levels[p.priority]
    ensures p in Members(a.levels)
  {
  }

  lemma DequeueIs<P>(levels: seq<seq<P>>, l: nat)
    requires l <= |levels| && (l < |levels| ==> levels[l] != [])
    requires forall i | 0 <= i < l :: levels[i] == []
    ensures PqDequeue(levels) ==
      if l < |levels| then (Some(levels[l][0]), levels[l := levels[l][1..]]) else (None, levels)
  {
    assert FirstNonEmpty(levels) == l;
  }

  lemma {:induction false} WithoutAt<P>(q: seq<P>, i: nat)
    requires i < |q| && q[i] !in q[..i]
    ensures Without(q, q[i]) == q[..i] + q[i + 1..]
  {
    if i > 0 {
      assert q[1..][..i - 1] == q[..i][1..];
      assert q[0] == q[..i][0];
      WithoutAt(q[1..], i - 1);
    }
  }

  lemma {:induction false} WithoutAbsent<P>(q: seq<P>, p: P)
    requires p !in q
    ensures Without(q, p) == q
  {
    if q != [] {
      WithoutAbsent(q[1..], p);
    }
  }
}
