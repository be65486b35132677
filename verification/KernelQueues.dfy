/** How enqueue, dequeue and remove carry the placement of processes from one process table to the next. */
module KernelQueues {
  import opened Common
  import opened KernelSpec
  import opened KernelSystem

  /** Replacing one entry leaves the st queues right when the entry's own place among them is the same. */
  lemma PlacedElsewhere<P, E>(procs: map<P, Proc<E>>, p: P, pcb: Proc<E>, q: seq<seq<P>>, st: ProcState)
    requires Placed(procs, q, st) && p in procs
    requires pcb.isIProcess == procs[p].isIProcess && (pcb.state == st <==> procs[p].state == st)
    requires pcb.state == st ==> pcb.priority == procs[p].priority
    ensures Placed(procs[p := pcb], q, st)
  {
  }

  lemma EnqueuePlaced<P, E>(procs: map<P, Proc<E>>, p: P, pcb: Proc<E>, q: seq<seq<P>>, st: ProcState)
    requires Placed(procs, q, st)
    requires p in procs && procs[p].state != st
    requires !pcb.isIProcess && pcb.state == st && 0 <= pcb.priority < |q|
    ensures Placed(procs[p := pcb], PqEnqueue(q, pcb.priority, p), st)
  {
    var l := pcb.priority;
    assert p !in q[l] by { assert !AtLevel(procs[p], st, l); }
    AppendKeepsNoDuplicates(q[l], p);
  }

  /** What dequeue hands out is a process the queue was for, from its lowest occupied level. */
  lemma DequeueTakes<P, E>(procs: map<P, Proc<E>>, q: seq<seq<P>>, st: ProcState)
    requires Placed(procs, q, st)
    ensures PqDequeue(q).0.None? <==> forall l | 0 <= l < |q| :: q[l] == []
    ensures PqDequeue(q).0.Some? ==>
      var p := PqDequeue(q).0.value;
      p in procs && AtLevel(procs[p], st, FirstNonEmpty(q)) && 0 <= FirstNonEmpty(q) < |q|
      && p in q[FirstNonEmpty(q)]
  {
    var l := FirstNonEmpty(q);
    if l < |q| {
      assert q[l][0] in q[l];
    }
  }

  lemma DequeuePlaced<P, E>(procs: map<P, Proc<E>>, p: P, pcb: Proc<E>, q: seq<seq<P>>, st: ProcState)
    requires Placed(procs, q, st)
    requires PqDequeue(q).0 == Some(p) && p in procs && pcb.state != st
    ensures Placed(procs[p := pcb], PqDequeue(q).1, st)
  {
    var l := FirstNonEmpty(q);
    assert q[l] == [p] + q[l][1..];
    assert p in q[l];
    forall l' | 0 <= l' < |q| && l' != l
      ensures p !in q[l']
    {
      assert AtLevel(procs[p], st, l);
    }
  }

  lemma {:induction false} WithoutMembers<P>(q: seq<P>, p: P)
    requires NoDuplicates(q)
    ensures NoDuplicates(Without(q, p))
    ensures forall x :: x in Without(q, p) <==> x in q && x != p
  {
    if q != [] {
      assert q == [q[0]] + q[1..];
      if q[0] != p {
        WithoutMembers(q[1..], p);
        assert q[0] !in q[1..];
      }
    }
  }

  lemma MovePlaced<P, E>(procs: map<P, Proc<E>>, p: P, pcb: Proc<E>, q: seq<seq<P>>, st: ProcState)
    requires Placed(procs, q, st)
    requires p in procs && !procs[p].isIProcess && procs[p].state == st && 0 <= procs[p].priority < |q|
    requires !pcb.isIProcess && pcb.state == st && 0 <= pcb.priority < |q|
    requires pcb.priority != procs[p].priority
    ensures Placed(procs[p := pcb], PqEnqueue(PqRemove(q, procs[p].priority, p), pcb.priority, p), st)
  {
    var l, l' := procs[p].priority, pcb.priority;
    WithoutMembers(q[l], p);
    assert p !in q[l'] by { assert !AtLevel(procs[p], st, l'); }
    AppendKeepsNoDuplicates(q[l'], p);
  }
}
