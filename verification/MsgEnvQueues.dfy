/** Envelopes and the intrusive FIFO they are chained into (msg_env_queue.c). */
module MsgEnvQueues {
  import opened Common

  /** hasMsg stands for msg != NULL; word is the first word of the message text. */
  class MsgEnv {
    var next: MsgEnv?
    var destPid: int
    var sendPid: int
    var msgType: int
    var hasMsg: bool
    var word: int

    constructor ()
      ensures next == null && hasMsg && msgType == 0
    {
      next, destPid, sendPid, msgType, hasMsg, word := null, 0, 0, 0, true, 0;
    }
  }

  /** s is a chain through the next fields, each envelope once, ending in NULL. */
  ghost predicate Linked(s: seq<MsgEnv>)
    reads (set e | e in s)`next
  {
    && NoDuplicates(s)
    && (forall i | 0 <= i < |s| - 1 :: s[i].next == s[i + 1])
    && (s != [] ==> s[|s| - 1].next == null)
  }

  class MsgEnvQueue {
    var head: MsgEnv?
    var tail: MsgEnv?
    ghost var items: seq<MsgEnv>

    ghost predicate Valid()
      reads this, (set e | e in items)`next
    {
      && Linked(items)
      && (items == [] ==> head == null && tail == null)
      && (items != [] ==> head == items[0] && tail == items[|items| - 1])
    }

    constructor ()
      ensures Valid() && items == []
    {
      head, tail, items := null, null, [];
    }

    predicate IsEmpty()
      requires Valid()
      reads this, items`next
      ensures IsEmpty() <==> items == []
    {
      head == null
    }

    method Enqueue(env: MsgEnv?) returns (code: int)
      requires Valid()
      requires env != null ==> env !in items
      modifies this, items`next, (if env == null then {} else {env})`next
      ensures Valid()
      ensures env == null ==> code == ERROR_NULL_ARG && items == old(items)
      ensures env != null ==> code == CODE_SUCCESS && items == old(items) + [env]
    {
      if env == null {
        return ERROR_NULL_ARG;
      }
      if head == null {
        head := env;
      } else {
        tail.next := env;
      }
      tail := env;
      tail.next := null;
      AppendKeepsNoDuplicates(items, env);
      items := items + [env];
      return CODE_SUCCESS;
    }

    method Dequeue() returns (env: MsgEnv?)
      requires Valid()
      modifies this, items`next
      ensures Valid()
      ensures old(items) == [] ==> env == null && items == []
      ensures old(items) != [] ==> env == old(items)[0] && items == old(items)[1..] && env.next == null
    {
      env := head;
      if head == tail {
        tail := null;
      }
      if head != null {
        head := head.next;
        env.next := null;
        items := items[1..];
      }
    }

    method Size() returns (size: nat)
      requires Valid()
      ensures size == |items|
    {
      var env := head;
      size := 0;
      while env != null
        invariant size <= |items|
        invariant env == if size < |items| then items[size] else null
        decreases |items| - size
      {
        env := env.next;
        size := size + 1;
      }
    }

    method Has(target: MsgEnv?) returns (found: bool)
      requires Valid()
      ensures found <==> target != null && target in items
    {
      var env := head;
      ghost var i := 0;
      while env != null
        invariant 0 <= i <= |items|
        invariant env == if i < |items| then items[i] else null
        invariant target != null ==> target !in items[..i]
        decreases |items| - i
      {
        if env == target {
          return true;
        }
        env := env.next;
        i := i + 1;
      }
      return false;
    }
  }

  /** The queues share the next field of the envelopes, and home gives the only one an envelope can be in. */
  ghost predicate Homed(queues: set<MsgEnvQueue>, envs: set<MsgEnv>, home: map<MsgEnv, MsgEnvQueue>)
    reads queues, envs`next
  {
    && (forall q, e | q in queues && e in q.items :: e in envs && e in home && home[e] == q)
    && (forall q | q in queues :: q.Valid())
  }

  method PutEnv(q: MsgEnvQueue, e: MsgEnv, ghost queues: set<MsgEnvQueue>, ghost envs: set<MsgEnv>,
                ghost home: map<MsgEnv, MsgEnvQueue>)
    requires Homed(queues, envs, home) && q in queues && e in envs
    requires forall r | r in queues :: e !in r.items
    modifies q, envs`next
    ensures Homed(queues, envs, home[e := q])
    ensures q.items == old(q.items) + [e]
  {
    var code := q.Enqueue(e);
    forall r | r in queues && r != q
      ensures r.Valid()
    {
      assert r.items == old(r.items);
      forall x | x in r.items
        ensures x !in old(q.items)
      {
        assert x in old(r.items) && home[x] == r;
      }
      assert forall i | 0 <= i < |r.items| :: r.items[i] in r.items;
    }
  }

  method TakeEnv(q: MsgEnvQueue, ghost queues: set<MsgEnvQueue>, ghost envs: set<MsgEnv>,
                 ghost home: map<MsgEnv, MsgEnvQueue>) returns (e: MsgEnv)
    requires Homed(queues, envs, home) && q in queues && q.items != []
    modifies q, envs`next
    ensures Homed(queues, envs, home)
    ensures e == old(q.items)[0] && q.items == old(q.items)[1..]
  {
    e := q.Dequeue();
    assert forall x :: x in q.items ==> x in old(q.items);
    forall r | r in queues && r != q
      ensures r.Valid()
    {
      assert r.items == old(r.items);
      forall x | x in r.items
        ensures x !in old(q.items)
      {
        assert x in old(r.items) && home[x] == r;
      }
      assert forall i | 0 <= i < |r.items| :: r.items[i] in r.items;
    }
  }
}
