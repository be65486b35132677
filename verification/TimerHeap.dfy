/** timeout_queue.c on the heap, and the timer i-process that uses it. */
module TimerHeap {
  import opened Common
  import opened MsgEnvQueues
  import Spec = TimerSpec

  /** list gives the envelopes of envs with the deadline each has in its first word. */
  ghost predicate Timed(envs: seq<MsgEnv>, list: seq<Spec.Entry<MsgEnv>>)
    reads (set e | e in envs)`word
  {
    |list| == |envs| && forall i | 0 <= i < |envs| :: list[i] == Spec.Entry(envs[i], envs[i].word)
  }

  function WithAt<T>(s: seq<T>, i: nat, x: T): seq<T>
    requires i <= |s|
  {
    s[..i] + [x] + s[i..]
  }

  lemma WithAtMembers<T>(s: seq<T>, i: nat, x: T)
    requires i <= |s|
    ensures forall y :: y in WithAt(s, i, x) <==> y in s || y == x
  {
    assert s == s[..i] + s[i..];
  }

  lemma TimedInsert(envs: seq<MsgEnv>, list: seq<Spec.Entry<MsgEnv>>, env: MsgEnv)
    requires Timed(envs, list)
    ensures Timed(WithAt(envs, Spec.Position(list, env.word), env), Spec.Insert(list, Spec.Entry(env, env.word)))
  {
  }

  /** What a pointer to entry i holds. */
  function EnvAt(envs: seq<MsgEnv>, i: nat): MsgEnv? {
    if i < |envs| then envs[i] else null
  }

  /** The two assignments at the end of timeout_queue_insert. */
  method Link(ghost envs: seq<MsgEnv>, ghost i: nat, env: MsgEnv, prev: MsgEnv?, node: MsgEnv?)
    requires Linked(envs) && env !in envs && i <= |envs|
    requires prev == (if i == 0 then null else envs[i - 1]) && node == EnvAt(envs, i)
    modifies envs`next, env`next
    ensures Linked(WithAt(envs, i, env))
  {
    if prev != null {
      prev.next := env;
    }
    env.next := node;
  }

  class TimeoutQueue {
    var head: MsgEnv?
    ghost var envs: seq<MsgEnv>
    ghost var list: seq<Spec.Entry<MsgEnv>>

    ghost predicate Valid()
      reads this, (set e | e in envs)`next, (set e | e in envs)`word
    {
      Linked(envs) && Timed(envs, list) && Spec.Sorted(list) && head == EnvAt(envs, 0)
    }

    constructor ()
      ensures Valid() && list == []
    {
      head, envs, list := null, [], [];
    }

    ghost method Now(longer: seq<MsgEnv>, listed: seq<Spec.Entry<MsgEnv>>)
      requires Linked(longer) && Timed(longer, listed) && Spec.Sorted(listed) && head == EnvAt(longer, 0)
      modifies `envs, `list
      ensures Valid() && envs == longer && list == listed
    {
      envs, list := longer, listed;
    }

    method LinkIn(env: MsgEnv, ghost i: nat, prev: MsgEnv?, node: MsgEnv?)
      requires Valid() && env !in envs && i == Spec.Position(list, env.word)
      requires prev == (if i == 0 then null else envs[i - 1]) && node == EnvAt(envs, i)
      modifies this, envs`next, env`next
      ensures Valid() && envs == WithAt(old(envs), i, env)
      ensures list == Spec.Insert(old(list), Spec.Entry(env, env.word))
    {
      ghost var longer, listed := WithAt(envs, i, env), Spec.Insert(list, Spec.Entry(env, env.word));
      assert EnvAt(longer, 0) == (if prev == null then env else head) && i <= |envs|;
      hide Linked, Timed, Spec.Sorted, Spec.Position, Spec.Insert, WithAt, EnvAt;
      Spec.InsertKeepsSorted(list, Spec.Entry(env, env.word));
      TimedInsert(envs, list, env);
      Link(envs, i, env, prev, node);
      if prev == null {
        head := env;
      }
      Now(longer, listed);
    }

    /**
     The loop that finds the insertion point behind the head. readable is what a read through NULL gives:
     Some(word) where address 0 can be read, None where it traps. The word read there is never used.
     */
    method Search(timeout: int, readable: Option<int>)
      returns (trapped: bool, ghost i: nat, prev: MsgEnv, node: MsgEnv?)
      requires Valid() && head != null && head.word < timeout
      ensures trapped <==> readable.None? && Spec.RunsOff(list, timeout)
      ensures 1 <= i <= |envs| && prev == envs[i - 1]
      ensures !trapped ==> i == Spec.Position(list, timeout) && node == EnvAt(envs, i)
    {
      prev := head;
      node := head.next;
      i := 1;
      if node != null {
        var timeoutSoFar := node.word;
        while timeoutSoFar < timeout && node != null
          invariant 1 <= i <= |envs| && prev == envs[i - 1] && node == EnvAt(envs, i)
          invariant if node != null then timeoutSoFar == node.word else readable.Some?
          invariant forall k | 0 <= k < i :: list[k].deadline < timeout
          invariant |list| >= 2
          decreases |list| - i
        {
          prev := node;
          node := node.next;
          i := i + 1;
          assert node == EnvAt(envs, i);
          if node != null {
            timeoutSoFar := node.word;
          } else if readable.Some? {
            timeoutSoFar := readable.value;
          } else {
            assert i == |list| && list[i - 1].deadline < timeout;
            trapped := true;
            return;
          }
        }
      }
      Spec.PositionIs(list, timeout, i);
      trapped := false;
    }

    /** The new entry goes to its place, unless the search traps; then only its word has been changed. */
    method Insert(env: MsgEnv, clock: int, readable: Option<int>) returns (trapped: bool, ghost at: nat)
      requires Valid() && env !in envs && env.next == null
      modifies this, envs`next, env`next, env`word
      ensures env.word == clock + old(env.word)
      ensures trapped <==> readable.None? && Spec.RunsOff(old(list), env.word)
      ensures Valid() && at <= |old(envs)| && envs == if trapped then old(envs) else WithAt(old(envs), at, env)
      ensures list == if trapped then old(list) else Spec.Insert(old(list), Spec.Entry(env, env.word))
    {
      assert forall k | 0 <= k < |list| :: list[0].deadline <= list[k].deadline;
      hide Spec.Sorted, Spec.Insert, Spec.Position, Linked, WithAt;
      var timeout := clock + env.word;
      env.word := timeout;
      trapped, at := false, 0;
      if head == null {
        LinkIn(env, 0, null, null);
      } else if timeout <= head.word {
        LinkIn(env, 0, null, head);
      } else {
        var prev, node;
        trapped, at, prev, node := Search(timeout, readable);
        if !trapped {
          LinkIn(env, at, prev, node);
        }
      }
    }

    /** The head, if it is due; its next field still names the rest of the list. */
    method CheckTimeout(clock: int) returns (env: MsgEnv?)
      requires Valid()
      modifies this
      ensures Valid()
      ensures if Spec.Due(old(list), clock) then env == old(list)[0].env && list == old(list)[1..]
              else env == null && list == old(list)
      ensures env != null ==> env in old(envs)
    {
      if head != null && head.word <= clock {
        env := head;
        head := head.next;
        list, envs := list[1..], envs[1..];
      } else {
        env := null;
      }
    }
  }
  /** The messages in a mailbox as requests: each with the delay in its first word. */
  ghost function Requests(items: seq<MsgEnv>): (r: seq<Spec.Request<MsgEnv>>)
    reads (set e | e in items)`word
    ensures |r| == |items|
  {
    if items == [] then [] else [Spec.Request(items[0], items[0].word)] + Requests(items[1..])
  }

  lemma FrontIsAlone(items: seq<MsgEnv>)
    requires Linked(items) && items != []
    ensures items[0] !in items[1..]
  {
  }

  class TimerProcess {
    const mailbox: MsgEnvQueue
    const timeouts: TimeoutQueue
    var clock: int

    ghost predicate Valid()
      reads this, mailbox, (set e | e in mailbox.items)`next
      reads timeouts, (set e | e in timeouts.envs)`next, (set e | e in timeouts.envs)`word
    {
      mailbox.Valid() && timeouts.Valid() && Separate(mailbox.items, timeouts.envs)
    }

    ghost function State(): Spec.TState<MsgEnv>
      reads this, timeouts
    {
      Spec.TState(clock, timeouts.list)
    }

    constructor ()
      ensures Valid() && clock == 0 && mailbox.items == [] && timeouts.list == []
      ensures fresh(mailbox) && fresh(timeouts)
    {
      clock := 0;
      mailbox := new MsgEnvQueue();
      timeouts := new TimeoutQueue();
    }

    method Take() returns (env: MsgEnv)
      requires Valid() && mailbox.items != []
      modifies mailbox, mailbox.items`next
      ensures Valid() && mailbox.items == old(mailbox.items)[1..] && env == old(mailbox.items)[0]
      ensures env !in timeouts.envs && env !in mailbox.items && env.next == null
      ensures old(Requests(mailbox.items)) == [Spec.Request(env, env.word)] + Requests(mailbox.items)
    {
      FrontIsAlone(mailbox.items);
      hide Linked, Timed, Spec.Sorted;
      env := mailbox.Dequeue();
    }

    /** One turn of the loop that drains the mailbox. */
    method InsertNext(readable: Option<int>) returns (trapped: bool)
      requires Valid() && mailbox.items != []
      modifies mailbox, timeouts, mailbox.items`next, {mailbox.items[0]}`word, timeouts.envs`next
      ensures Valid() && mailbox.items == old(mailbox.items)[1..]
      ensures Requests(mailbox.items) == old(Requests(mailbox.items))[1..]
      ensures
        var (list, r) := (old(timeouts.list), old(Requests(mailbox.items))[0]);
        var x := Spec.Entry(r.env, clock + r.delay);
        && (trapped <==> readable.None? && Spec.RunsOff(list, x.deadline))
        && timeouts.list == if trapped then list else Spec.Insert(list, x)
      ensures forall e | e in timeouts.envs :: e in old(timeouts.envs) || e == old(mailbox.items)[0]
    {
      hide Linked, Timed, Spec.Sorted, Spec.Insert, WithAt, Requests, Spec.RunsOff;
      var env := Take();
      ghost var rest := mailbox.items;
      assert forall e | e in rest :: e !in timeouts.envs && e != env;
      assert Linked(rest);
      ghost var at;
      trapped, at := timeouts.Insert(env, clock, readable);
      if !trapped {
        WithAtMembers<MsgEnv>(old(timeouts.envs), at, env);
      }
    }

    /** What the inserts still to be made will leave, and whether one of them will run off the end. */
    ghost function Outcome(): (seq<Spec.Entry<MsgEnv>>, bool)
      reads this, mailbox, timeouts, (set e | e in mailbox.items)`word
    {
      var requests := Requests(mailbox.items);
      (Spec.InsertAll(timeouts.list, requests, clock), Spec.SomeRunsOff(timeouts.list, requests, clock))
    }

    method InsertOne(readable: Option<int>) returns (trapped: bool)
      requires Valid() && mailbox.items != []
      modifies mailbox, timeouts, mailbox.items`next, {mailbox.items[0]}`word, timeouts.envs`next
      ensures Valid() && mailbox.items == old(mailbox.items)[1..]
      ensures if trapped then readable.None? && old(Outcome()).1
              else Outcome().0 == old(Outcome()).0 && (readable.None? ==> Outcome().1 == old(Outcome()).1)
      ensures forall e | e in timeouts.envs :: e in old(timeouts.envs) || e == old(mailbox.items)[0]
    {
      hide Linked, Timed, Spec.Sorted, Spec.Insert, Separate, Spec.InsertAll, Spec.SomeRunsOff, Spec.RunsOff, Requests;
      Spec.InsertAllStep(timeouts.list, Requests(mailbox.items), clock);
      trapped := InsertNext(readable);
    }

    /** The loop that drains the mailbox into the list. */
    method Drain(readable: Option<int>) returns (trapped: bool)
      requires Valid()
      modifies mailbox, timeouts, (set e | e in mailbox.items)`word
      modifies (set e | e in mailbox.items)`next, (set e | e in timeouts.envs)`next
      ensures Valid()
      ensures trapped <==> readable.None? && old(Outcome()).1
      ensures !trapped ==> timeouts.list == old(Outcome()).0 && mailbox.items == []
      ensures forall e | e in timeouts.envs :: e in old(mailbox.items) || e in old(timeouts.envs)
    {
      ghost var outcome := Outcome();
      hide Linked, Timed, Spec.Sorted, Separate, Requests, Outcome;
      while !mailbox.IsEmpty()
        invariant Valid()
        invariant forall e | e in mailbox.items :: e in old(mailbox.items)
        invariant forall e | e in timeouts.envs :: e in old(mailbox.items) || e in old(timeouts.envs)
        invariant Outcome().0 == outcome.0 && (readable.None? ==> Outcome().1 == outcome.1)
        decreases |mailbox.items|
      {
        assert mailbox.items[0] in mailbox.items;
        trapped := InsertOne(readable);
        if trapped {
          return;
        }
      }
      NothingLeft();
      trapped := false;
    }

    lemma NothingLeft()
      requires mailbox.items == []
      ensures Outcome() == (timeouts.list, false)
    {
    }

    /**
     One timer interrupt. due is the envelope that is sent back and pid the process it is sent to: the one that sent
     it. No tick changes the sender of an envelope, so it is the sender it had when the delay was requested.
     */
    method Tick(readable: Option<int>) returns (trapped: bool, due: MsgEnv?, pid: int)
      requires Valid()
      modifies this, mailbox, timeouts, (set e | e in mailbox.items)`word
      modifies (set e | e in mailbox.items)`next, (set e | e in timeouts.envs)`next
      ensures Valid()
      ensures trapped ==
        (readable.None? && Spec.SomeRunsOff(old(timeouts.list), old(Requests(mailbox.items)), clock))
      ensures !trapped ==>
        && State() == Spec.Tick(old(State()), old(Requests(mailbox.items))) && mailbox.items == []
        && Spec.Sent(old(State()), old(Requests(mailbox.items))) == if due == null then None else Some(due)
      ensures !trapped && due != null ==>
        (due in old(mailbox.items) || due in old(timeouts.envs)) && pid == old(due.sendPid)
    {
      hide Linked, Timed, Spec.Sorted, Spec.InsertAll, Spec.SomeRunsOff, Requests;
      clock := clock + 1;
      due, pid := null, 0;
      trapped := Drain(readable);
      if !trapped {
        due := timeouts.CheckTimeout(clock);
        if due != null {
          pid := due.sendPid;
        }
      }
    }
  }

  ghost predicate Separate(items: seq<MsgEnv>, envs: seq<MsgEnv>) {
    forall e | e in items :: e !in envs
  }
}
