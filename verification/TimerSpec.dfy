/** The timer service as values: the deadline list of timeout_queue.c and the tick of timer_i_process.c. */
module TimerSpec {
  import opened Common

  datatype Entry<E> = Entry(env: E, deadline: int)

  /** A request taken from the timer's mailbox: the envelope and the delay written in it. */
  datatype Request<E> = Request(env: E, delay: int)

  datatype TState<E> = TState(clock: int, list: seq<Entry<E>>)

  ghost predicate Sorted<E>(list: seq<Entry<E>>) {
    forall i, j | 0 <= i < j < |list| :: list[i].deadline <= list[j].deadline
  }

  /** Where timeout_queue_insert links a deadline in: before the first entry that is not earlier. */
  function Position<E>(list: seq<Entry<E>>, deadline: int): (p: nat)
    ensures p <= |list|
    ensures forall i | 0 <= i < p :: list[i].deadline < deadline
    ensures p < |list| ==> deadline <= list[p].deadline
  {
    if list == [] || deadline <= list[0].deadline then 0 else 1 + Position(list[1..], deadline)
  }

  lemma PositionIs<E>(list: seq<Entry<E>>, deadline: int, p: nat)
    requires p <= |list| && (p < |list| ==> deadline <= list[p].deadline)
    requires forall i | 0 <= i < p :: list[i].deadline < deadline
    ensures Position(list, deadline) == p
  {
    var q := Position(list, deadline);
  }

  function Insert<E>(list: seq<Entry<E>>, x: Entry<E>): seq<Entry<E>> {
    var p := Position(list, x.deadline);
    list[..p] + [x] + list[p..]
  }

  /** The requests of one tick, oldest first, each due clock + delay. */
  function InsertAll<E>(list: seq<Entry<E>>, requests: seq<Request<E>>, clock: int): seq<Entry<E>>
    decreases |requests|
  {
    if requests == [] then list
    else InsertAll(Insert(list, Entry(requests[0].env, clock + requests[0].delay)), requests[1..], clock)
  }

  /** The inserts whose search runs off the end of the list and reads through NULL there. */
  predicate RunsOff<E>(list: seq<Entry<E>>, deadline: int) {
    |list| >= 2 && list[|list| - 1].deadline < deadline
  }

  predicate SomeRunsOff<E>(list: seq<Entry<E>>, requests: seq<Request<E>>, clock: int)
    decreases |requests|
  {
    && requests != []
    && var x := Entry(requests[0].env, clock + requests[0].delay);
       RunsOff(list, x.deadline) || SomeRunsOff(Insert(list, x), requests[1..], clock)
  }

  predicate Due<E>(list: seq<Entry<E>>, clock: int) {
    list != [] && list[0].deadline <= clock
  }

  /** The list of a tick between its inserts and its release. */
  function Listed<E>(s: TState<E>, requests: seq<Request<E>>): seq<Entry<E>> {
    InsertAll(s.list, requests, s.clock + 1)
  }

  function Tick<E>(s: TState<E>, requests: seq<Request<E>>): TState<E> {
    var list := Listed(s, requests);
    TState(s.clock + 1, if Due(list, s.clock + 1) then list[1..] else list)
  }

  /** The envelope a tick sends back. */
  function Sent<E>(s: TState<E>, requests: seq<Request<E>>): Option<E> {
    var list := Listed(s, requests);
    if Due(list, s.clock + 1) then Some(list[0].env) else None
  }

  /** The state in which tick number i of a run starts. */
  function StateAt<E>(s: TState<E>, ticks: seq<seq<Request<E>>>, i: nat): (r: TState<E>)
    requires i <= |ticks|
    ensures r.clock == s.clock + i
  {
    if i == 0 then s else Tick(StateAt(s, ticks, i - 1), ticks[i - 1])
  }

  lemma InsertAllStep<E>(list: seq<Entry<E>>, requests: seq<Request<E>>, clock: int)
    ensures requests == [] ==> InsertAll(list, requests, clock) == list && !SomeRunsOff(list, requests, clock)
    ensures requests != [] ==>
      var x := Entry(requests[0].env, clock + requests[0].delay);
      && InsertAll(list, requests, clock) == InsertAll(Insert(list, x), requests[1..], clock)
      && SomeRunsOff(list, requests, clock) ==
        (RunsOff(list, x.deadline) || SomeRunsOff(Insert(list, x), requests[1..], clock))
  {
  }

  // ---- one insert ----

  lemma InsertKeepsSorted<E>(list: seq<Entry<E>>, x: Entry<E>)
    requires Sorted(list)
    ensures Sorted(Insert(list, x))
  {
    hide Position;
    var p := Position(list, x.deadline);
    forall i, j | 0 <= i < j < |Insert(list, x)|
      ensures Insert(list, x)[i].deadline <= Insert(list, x)[j].deadline
    {
      assert p < |list| ==> x.deadline <= list[p].deadline;
    }
  }

  /** An entry is passed by exactly the deadlines that are not later than its own. */
  lemma InsertShifts<E>(list: seq<Entry<E>>, x: Entry<E>, k: nat)
    requires Sorted(list) && k < |list|
    ensures
      var k' := if x.deadline <= list[k].deadline then k + 1 else k;
      k' < |Insert(list, x)| && Insert(list, x)[k'] == list[k]
  {
  }

  /** Of all places for a new entry, Insert takes the one that keeps the order and passes no equal deadline. */
  lemma InsertIsTheStableOne<E>(list: seq<Entry<E>>, x: Entry<E>, p: nat)
    requires Sorted(list) && p <= |list| && x !in list
    ensures list[..p] + [x] + list[p..] == Insert(list, x)
      <==> Sorted(list[..p] + [x] + list[p..]) && forall i | 0 <= i < p :: list[i].deadline != x.deadline
  {
    var (r, q) := (list[..p] + [x] + list[p..], Position(list, x.deadline));
    InsertKeepsSorted(list, x);
    if r == Insert(list, x) {
      assert r[p] == x && Insert(list, x)[q] == x;
      assert p == q;
    }
    if Sorted(r) && forall i | 0 <= i < p :: list[i].deadline != x.deadline {
      assert forall i | 0 <= i < p :: list[i] == r[i] && r[i].deadline <= r[p].deadline;
      assert p < |list| ==> r[p].deadline <= r[p + 1].deadline;
      PositionIs(list, x.deadline, p);
    }
  }

  // ---- one tick ----

  /** What the requests of a tick add to the list. */
  function Entries<E>(requests: seq<Request<E>>, clock: int): (r: seq<Entry<E>>)
    ensures |r| == |requests|
    ensures forall i | 0 <= i < |r| :: r[i] == Entry(requests[i].env, clock + requests[i].delay)
  {
    seq(|requests|, i requires 0 <= i < |requests| => Entry(requests[i].env, clock + requests[i].delay))
  }

  lemma InsertAdds<E>(list: seq<Entry<E>>, x: Entry<E>)
    ensures multiset(Insert(list, x)) == multiset(list) + multiset{x}
  {
    var p := Position(list, x.deadline);
    assert list == list[..p] + list[p..];
  }

  lemma {:induction false} InsertAllAdds<E>(list: seq<Entry<E>>, requests: seq<Request<E>>, clock: int)
    requires Sorted(list)
    ensures Sorted(InsertAll(list, requests, clock))
    ensures multiset(InsertAll(list, requests, clock)) == multiset(list) + multiset(Entries(requests, clock))
    decreases |requests|
  {
    hide Insert, Sorted;
    if requests != [] {
      var x := Entry(requests[0].env, clock + requests[0].delay);
      InsertKeepsSorted(list, x);
      InsertAdds(list, x);
      InsertAllAdds(Insert(list, x), requests[1..], clock);
      assert Entries(requests, clock) == [x] + Entries(requests[1..], clock);
    }
  }

  /** Entry x of all that are listed or requested is one with the earliest deadline, and that has come. */
  ghost predicate Earliest<E>(all: multiset<Entry<E>>, x: Entry<E>, clock: int) {
    x in all && x.deadline <= clock && forall y | y in all :: x.deadline <= y.deadline
  }

  /** Of all entries one with the earliest deadline is gone and its envelope sent, if its deadline has come. */
  ghost predicate SendsEarliest<E>(all: multiset<Entry<E>>, left: seq<Entry<E>>, sent: Option<E>, clock: int) {
    match sent
    case None => multiset(left) == all && forall x | x in all :: x.deadline > clock
    case Some(env) =>
      exists x | x in all :: Earliest(all, x, clock) && x.env == env && multiset(left) == all - multiset{x}
  }

  lemma FrontIsEarliest<E>(list: seq<Entry<E>>, clock: int)
    requires Sorted(list)
    ensures Sorted(Remaining(list, clock))
    ensures SendsEarliest(multiset(list), Remaining(list, clock),
                          if Due(list, clock) then Some(list[0].env) else None, clock)
  {
    forall x | x in multiset(list)
      ensures list != [] && list[0].deadline <= x.deadline
    {
      var i :| 0 <= i < |list| && list[i] == x;
    }
    if list != [] {
      assert list == [list[0]] + list[1..];
      assert list[0].deadline <= clock ==> Earliest(multiset(list), list[0], clock);
    }
  }

  /**
   A tick adds one to the clock, enters every request with that clock plus its delay, and sends back at most one
   envelope: one of those with the earliest deadline, if that has come. All other entries stay.
   */
  lemma TickSends<E>(s: TState<E>, requests: seq<Request<E>>)
    requires Sorted(s.list)
    ensures Tick(s, requests).clock == s.clock + 1 && Sorted(Tick(s, requests).list)
    ensures SendsEarliest(multiset(s.list) + multiset(Entries(requests, s.clock + 1)), Tick(s, requests).list,
                          Sent(s, requests), s.clock + 1)
  {
    hide SendsEarliest, Entries, InsertAll, Sorted;
    InsertAllAdds(s.list, requests, s.clock + 1);
    FrontIsEarliest(Listed(s, requests), s.clock + 1);
  }

  // ---- when the search of a tick runs off the end ----

  ghost predicate AllBefore<E>(list: seq<Entry<E>>, deadline: int) {
    forall k | 0 <= k < |list| :: list[k].deadline < deadline
  }

  /** Request i finds two entries or more in the list and is later than all of them. */
  ghost predicate LatestOf<E>(list: seq<Entry<E>>, requests: seq<Request<E>>, clock: int, i: nat) {
    && i < |requests| && |list| + i >= 2
    && AllBefore(list, clock + requests[i].delay)
    && forall h | 0 <= h < i :: requests[h].delay < requests[i].delay
  }

  lemma InsertBefore<E>(list: seq<Entry<E>>, x: Entry<E>, deadline: int)
    ensures AllBefore(Insert(list, x), deadline) <==> AllBefore(list, deadline) && x.deadline < deadline
  {
    hide Position;
    var (r, p) := (Insert(list, x), Position(list, x.deadline));
    assert r[p] == x;
    if AllBefore(r, deadline) {
      forall k | 0 <= k < |list|
        ensures list[k].deadline < deadline
      {
        assert list[k] == r[if k < p then k else k + 1];
      }
    }
  }

  /**
   A tick reads through NULL if and only if one of its requests is due after everything listed and everything requested
   before it in the tick, and these are two or more.
   */
  lemma {:induction false} RunsOffExactly<E>(list: seq<Entry<E>>, requests: seq<Request<E>>, clock: int)
    requires Sorted(list)
    ensures SomeRunsOff(list, requests, clock) <==> exists i: nat :: LatestOf(list, requests, clock, i)
    decreases |requests|
  {
    hide Insert, RunsOff, Sorted, AllBefore;
    if requests != [] {
      var (x, rest) := (Entry(requests[0].env, clock + requests[0].delay), requests[1..]);
      InsertKeepsSorted(list, x);
      RunsOffExactly(Insert(list, x), rest, clock);
      RunsOffAtOnce(list, requests, clock);
      forall i | 0 <= i < |rest|
        ensures LatestOf(Insert(list, x), rest, clock, i) <==> LatestOf(list, requests, clock, i + 1)
      {
        LatestLater(list, requests, clock, x, i);
      }
      if exists i: nat :: LatestOf(list, requests, clock, i) {
        var i: nat :| LatestOf(list, requests, clock, i);
        if i > 0 {
          assert LatestOf(Insert(list, x), rest, clock, i - 1);
        }
      }
    }
  }

  lemma RunsOffAtOnce<E>(list: seq<Entry<E>>, requests: seq<Request<E>>, clock: int)
    requires Sorted(list) && requests != []
    ensures RunsOff(list, clock + requests[0].delay) <==> LatestOf(list, requests, clock, 0)
  {
  }

  lemma LatestLater<E>(list: seq<Entry<E>>, requests: seq<Request<E>>, clock: int, x: Entry<E>, i: nat)
    requires i + 1 < |requests| && x == Entry(requests[0].env, clock + requests[0].delay)
    ensures LatestOf(Insert(list, x), requests[1..], clock, i) <==> LatestOf(list, requests, clock, i + 1)
  {
    hide AllBefore;
    InsertBefore(list, x, clock + requests[i + 1].delay);
    var rest := requests[1..];
    assert forall h | 0 < h <= i :: requests[h] == rest[h - 1];
    assert forall h | 0 <= h < i :: rest[h] == requests[h + 1];
  }

  // ---- one envelope in the list ----

  /** env is in the list once, at index k. */
  ghost predicate OnceAt<E>(list: seq<Entry<E>>, env: E, k: nat) {
    k < |list| && list[k].env == env && forall i | 0 <= i < |list| && i != k :: list[i].env != env
  }

  ghost predicate Absent<E>(list: seq<Entry<E>>, env: E) {
    forall i | 0 <= i < |list| :: list[i].env != env
  }

  ghost predicate NotRequested<E>(requests: seq<Request<E>>, env: E) {
    forall i | 0 <= i < |requests| :: requests[i].env != env
  }

  /** The requests that are due at the deadline or earlier. */
  function Passers<E>(requests: seq<Request<E>>, clock: int, deadline: int): nat {
    if requests == [] then 0
    else (if clock + requests[0].delay <= deadline then 1 else 0) + Passers(requests[1..], clock, deadline)
  }

  /** Requests other than env's move its entry by one for each deadline not later than its own. */
  lemma {:induction false} InsertAllOnce<E>(list: seq<Entry<E>>, requests: seq<Request<E>>, clock: int, env: E, k: nat)
    returns (k': nat)
    requires Sorted(list) && OnceAt(list, env, k) && NotRequested(requests, env)
    ensures Sorted(InsertAll(list, requests, clock))
    ensures OnceAt(InsertAll(list, requests, clock), env, k') && k' == k + Passers(requests, clock, list[k].deadline)
    ensures InsertAll(list, requests, clock)[k'].deadline == list[k].deadline
    decreases |requests|
  {
    if requests == [] {
      k' := k;
    } else {
      var x := Entry(requests[0].env, clock + requests[0].delay);
      InsertKeepsSorted(list, x);
      InsertShifts(list, x, k);
      var k1 := if x.deadline <= list[k].deadline then k + 1 else k;
      k' := InsertAllOnce(Insert(list, x), requests[1..], clock, env, k1);
    }
  }

  lemma {:induction false} InsertAllAbsent<E>(list: seq<Entry<E>>, requests: seq<Request<E>>, clock: int, env: E)
    requires Sorted(list) && Absent(list, env) && NotRequested(requests, env)
    ensures Sorted(InsertAll(list, requests, clock)) && Absent(InsertAll(list, requests, clock), env)
    decreases |requests|
  {
    if requests != [] {
      var x := Entry(requests[0].env, clock + requests[0].delay);
      InsertKeepsSorted(list, x);
      InsertAllAbsent(Insert(list, x), requests[1..], clock, env);
    }
  }

  /** The tick in which env itself is requested puts it into the list once, due clock + delay. */
  lemma {:induction false} InsertAllRequested<E>(list: seq<Entry<E>>, requests: seq<Request<E>>, clock: int, j: nat)
    returns (k: nat)
    requires Sorted(list) && j < |requests| && Absent(list, requests[j].env)
    requires forall i | 0 <= i < |requests| && i != j :: requests[i].env != requests[j].env
    ensures Sorted(InsertAll(list, requests, clock))
    ensures OnceAt(InsertAll(list, requests, clock), requests[j].env, k)
    ensures InsertAll(list, requests, clock)[k].deadline == clock + requests[j].delay
    decreases |requests|
  {
    var x := Entry(requests[0].env, clock + requests[0].delay);
    InsertKeepsSorted(list, x);
    if j == 0 {
      var p := Position(list, x.deadline);
      assert OnceAt(Insert(list, x), x.env, p);
      k := InsertAllOnce(Insert(list, x), requests[1..], clock, x.env, p);
    } else {
      k := InsertAllRequested(Insert(list, x), requests[1..], clock, j - 1);
    }
  }

  // ---- a whole run ----

  /** env is requested once in the run: in tick 0, as request number j. */
  ghost predicate RequestedOnce<E>(s: TState<E>, ticks: seq<seq<Request<E>>>, j: nat) {
    && Sorted(s.list) && ticks != [] && j < |ticks[0]| && Absent(s.list, ticks[0][j].env)
    && (forall i | 0 <= i < |ticks[0]| && i != j :: ticks[0][i].env != ticks[0][j].env)
    && (forall t | 0 < t < |ticks| :: NotRequested(ticks[t], ticks[0][j].env))
  }

  function Deadline<E>(s: TState<E>, ticks: seq<seq<Request<E>>>, j: nat): int
    requires ticks != [] && j < |ticks[0]|
  {
    s.clock + 1 + ticks[0][j].delay
  }

  /** The first tick whose clock has reached the deadline. */
  function DueTick<E>(ticks: seq<seq<Request<E>>>, j: nat): nat
    requires ticks != [] && j < |ticks[0]|
  {
    if ticks[0][j].delay > 0 then ticks[0][j].delay else 0
  }

  /** The list of tick number t of a run, between its inserts and its release. */
  function ListedAt<E>(s: TState<E>, ticks: seq<seq<Request<E>>>, t: nat): seq<Entry<E>>
    requires t < |ticks|
  {
    Listed(StateAt(s, ticks, t), ticks[t])
  }

  function SentAt<E>(s: TState<E>, ticks: seq<seq<Request<E>>>, t: nat): Option<E>
    requires t < |ticks|
  {
    Sent(StateAt(s, ticks, t), ticks[t])
  }

  /** What the next tick inserts into. */
  function Remaining<E>(list: seq<Entry<E>>, clock: int): seq<Entry<E>> {
    if Due(list, clock) then list[1..] else list
  }

  lemma NextListed<E>(s: TState<E>, ticks: seq<seq<Request<E>>>, t: nat)
    requires 0 < t < |ticks|
    ensures ListedAt(s, ticks, t)
      == InsertAll(Remaining(ListedAt(s, ticks, t - 1), s.clock + t), ticks[t], s.clock + 1 + t)
    ensures SentAt(s, ticks, t - 1) ==
      if Due(ListedAt(s, ticks, t - 1), s.clock + t) then Some(ListedAt(s, ticks, t - 1)[0].env) else None
  {
  }

  lemma NextOnce<E>(list: seq<Entry<E>>, requests: seq<Request<E>>, clock: int, env: E, k: nat) returns (k': nat)
    requires Sorted(list) && OnceAt(list, env, k) && NotRequested(requests, env) && (Due(list, clock) ==> k > 0)
    ensures
      var (list', gone) := (InsertAll(Remaining(list, clock), requests, clock + 1), if Due(list, clock) then 1 else 0);
      && Sorted(list') && OnceAt(list', env, k') && list'[k'].deadline == list[k].deadline
      && k' == k - gone + Passers(requests, clock + 1, list[k].deadline)
  {
    k' := InsertAllOnce(Remaining(list, clock), requests, clock + 1, env, if Due(list, clock) then k - 1 else k);
  }

  lemma NextAbsent<E>(list: seq<Entry<E>>, requests: seq<Request<E>>, clock: int, env: E)
    requires Sorted(list) && NotRequested(requests, env)
    requires Absent(list, env) || (OnceAt(list, env, 0) && Due(list, clock))
    ensures
      var list' := InsertAll(Remaining(list, clock), requests, clock + 1);
      Sorted(list') && Absent(list', env)
  {
    InsertAllAbsent(Remaining(list, clock), requests, clock + 1, env);
  }

  lemma FirstListed<E>(s: TState<E>, ticks: seq<seq<Request<E>>>)
    requires ticks != []
    ensures ListedAt(s, ticks, 0) == InsertAll(s.list, ticks[0], s.clock + 1)
  {
  }

  /** Up to its due tick the entry waits in the list. */
  lemma {:induction false} WaitsUntilDue<E>(s: TState<E>, ticks: seq<seq<Request<E>>>, j: nat, t: nat) returns (k: nat)
    requires RequestedOnce(s, ticks, j) && t < |ticks| && t <= DueTick(ticks, j)
    ensures Sorted(ListedAt(s, ticks, t)) && OnceAt(ListedAt(s, ticks, t), ticks[0][j].env, k)
    ensures ListedAt(s, ticks, t)[k].deadline == Deadline(s, ticks, j)
  {
    hide InsertAll, ListedAt, Sorted, StateAt, OnceAt;
    if t == 0 {
      assert ListedAt(s, ticks, 0) == InsertAll(s.list, ticks[0], s.clock + 1) by { FirstListed(s, ticks); }
      k := InsertAllRequested(s.list, ticks[0], s.clock + 1, j);
    } else {
      var before := WaitsUntilDue(s, ticks, j, t - 1);
      NextListed(s, ticks, t);
      k := NextOnce(ListedAt(s, ticks, t - 1), ticks[t], s.clock + t, ticks[0][j].env, before);
    }
  }

  /** How many requests have gone past the entry since its due tick, up to and including tick t. */
  function Overtakers<E>(s: TState<E>, ticks: seq<seq<Request<E>>>, j: nat, t: nat): nat
    requires ticks != [] && j < |ticks[0]| && t < |ticks|
  {
    if t <= DueTick(ticks, j) then 0
    else Overtakers(s, ticks, j, t - 1) + Passers(ticks[t], s.clock + 1 + t, Deadline(s, ticks, j))
  }

  /** The index of the entry after the inserts of tick t, if it was at q in its due tick and has not been released. */
  function IndexAt<E>(s: TState<E>, ticks: seq<seq<Request<E>>>, j: nat, q: nat, t: nat): int
    requires ticks != [] && j < |ticks[0]| && t < |ticks|
  {
    q + Overtakers(s, ticks, j, t) - (t - DueTick(ticks, j))
  }

  /** Before tick t the entry has not come to the front since its due tick. */
  ghost predicate NotYetInFront<E>(s: TState<E>, ticks: seq<seq<Request<E>>>, j: nat, q: nat, t: nat)
    requires ticks != [] && j < |ticks[0]| && t < |ticks|
  {
    forall u | DueTick(ticks, j) <= u < t :: IndexAt(s, ticks, j, q, u) > 0
  }

  /**
   From its due tick on the entry moves one place to the front each tick and one back for each request that overtakes
   it, and it is released when it is in front.
   */
  lemma {:induction false} AdvancesOnceDue<E>(s: TState<E>, ticks: seq<seq<Request<E>>>, j: nat, q: nat, t: nat)
    requires RequestedOnce(s, ticks, j) && DueTick(ticks, j) <= t < |ticks|
    requires OnceAt(ListedAt(s, ticks, DueTick(ticks, j)), ticks[0][j].env, q)
    ensures Sorted(ListedAt(s, ticks, t))
    ensures
      var (list, env, k) := (ListedAt(s, ticks, t), ticks[0][j].env, IndexAt(s, ticks, j, q, t));
      if NotYetInFront(s, ticks, j, q, t) then
        0 <= k && OnceAt(list, env, k) && list[k].deadline == Deadline(s, ticks, j)
      else Absent(list, env)
    decreases t
  {
    hide InsertAll, ListedAt, StateAt, Passers, Sorted, Absent;
    var w, env := DueTick(ticks, j), ticks[0][j].env;
    if t == w {
      var k := WaitsUntilDue(s, ticks, j, w);
    } else {
      AdvancesOnceDue(s, ticks, j, q, t - 1);
      NextListed(s, ticks, t);
      var list, k := ListedAt(s, ticks, t - 1), IndexAt(s, ticks, j, q, t - 1);
      if NotYetInFront(s, ticks, j, q, t) {
        FrontIsNotLater(list, k);
        var k' := NextOnce(list, ticks[t], s.clock + t, env, k);
      } else {
        assert NotYetInFront(s, ticks, j, q, t - 1) ==> k == 0;
        NextAbsent(list, ticks[t], s.clock + t, env);
      }
    }
  }

  lemma FrontIsNotLater<E>(list: seq<Entry<E>>, k: nat)
    requires Sorted(list) && k < |list|
    ensures list[0].deadline <= list[k].deadline
  {
  }

  lemma SentIsFront<E>(s: TState<E>, ticks: seq<seq<Request<E>>>, t: nat)
    requires t < |ticks|
    ensures SentAt(s, ticks, t) ==
      if Due(ListedAt(s, ticks, t), s.clock + 1 + t) then Some(ListedAt(s, ticks, t)[0].env) else None
  {
  }

  /**
   An envelope whose entry is at index q after the inserts of its due tick is sent back in the first tick from then on
   in which its index, q and one more for each overtaker and one less for each tick, is 0; never before its deadline,
   and at no other tick.
   */
  lemma ExactLateness<E>(s: TState<E>, ticks: seq<seq<Request<E>>>, j: nat) returns (q: nat)
    requires RequestedOnce(s, ticks, j) && DueTick(ticks, j) < |ticks|
    ensures OnceAt(ListedAt(s, ticks, DueTick(ticks, j)), ticks[0][j].env, q)
    ensures forall t | 0 <= t < |ticks| ::
      SentAt(s, ticks, t) == Some(ticks[0][j].env)
      <==> DueTick(ticks, j) <= t && IndexAt(s, ticks, j, q, t) == 0 && NotYetInFront(s, ticks, j, q, t)
  {
    hide SentAt, ListedAt, StateAt, IndexAt, NotYetInFront;
    q := WaitsUntilDue(s, ticks, j, DueTick(ticks, j));
    forall t | 0 <= t < |ticks|
      ensures SentAt(s, ticks, t) == Some(ticks[0][j].env)
        <==> DueTick(ticks, j) <= t && IndexAt(s, ticks, j, q, t) == 0 && NotYetInFront(s, ticks, j, q, t)
    {
      SentIsFront(s, ticks, t);
      if t < DueTick(ticks, j) {
        var k := WaitsUntilDue(s, ticks, j, t);
      } else {
        AdvancesOnceDue(s, ticks, j, q, t);
        var list, k := ListedAt(s, ticks, t), IndexAt(s, ticks, j, q, t);
        assert NotYetInFront(s, ticks, j, q, t) ==> list[0].deadline <= list[k].deadline;
      }
    }
  }

  lemma {:induction false} OvertakersGrow<E>(s: TState<E>, ticks: seq<seq<Request<E>>>, j: nat, u: nat, t: nat)
    requires ticks != [] && j < |ticks[0]| && u <= t < |ticks|
    ensures Overtakers(s, ticks, j, u) <= Overtakers(s, ticks, j, t)
    decreases t
  {
    if u < t {
      OvertakersGrow(s, ticks, j, u, t - 1);
    }
  }

  /** It comes q ticks after its due tick if and only if nothing has overtaken it by then. */
  lemma LateByPosition<E>(s: TState<E>, ticks: seq<seq<Request<E>>>, j: nat) returns (q: nat)
    requires RequestedOnce(s, ticks, j) && DueTick(ticks, j) < |ticks|
    ensures OnceAt(ListedAt(s, ticks, DueTick(ticks, j)), ticks[0][j].env, q)
    ensures
      var t := DueTick(ticks, j) + q;
      t < |ticks| ==> (SentAt(s, ticks, t) == Some(ticks[0][j].env) <==> Overtakers(s, ticks, j, t) == 0)
  {
    hide SentAt, ListedAt;
    q := ExactLateness(s, ticks, j);
    var w, t := DueTick(ticks, j), DueTick(ticks, j) + q;
    if t < |ticks| && Overtakers(s, ticks, j, t) == 0 {
      forall u | w <= u < t
        ensures IndexAt(s, ticks, j, q, u) > 0
      {
        OvertakersGrow(s, ticks, j, u, t);
      }
    }
  }

  lemma {:induction false} NonePasses<E>(requests: seq<Request<E>>, clock: int, deadline: int)
    requires deadline < clock && forall i | 0 <= i < |requests| :: requests[i].delay >= 0
    ensures Passers(requests, clock, deadline) == 0
  {
    if requests != [] {
      NonePasses(requests[1..], clock, deadline);
    }
  }

  /** Delays that are not negative never overtake. */
  lemma {:induction false} NonNegativeDelaysDoNotOvertake<E>(s: TState<E>, ticks: seq<seq<Request<E>>>, j: nat, t: nat)
    requires ticks != [] && j < |ticks[0]| && t < |ticks|
    requires forall u, i | DueTick(ticks, j) < u <= t && 0 <= i < |ticks[u]| :: ticks[u][i].delay >= 0
    ensures Overtakers(s, ticks, j, t) == 0
    decreases t
  {
    if t > DueTick(ticks, j) {
      NonNegativeDelaysDoNotOvertake(s, ticks, j, t - 1);
      NonePasses(ticks[t], s.clock + 1 + t, Deadline(s, ticks, j));
    }
  }

  /** A negative delay can put a due envelope off: 0 would be sent at clock 2, but the request of 1 overtakes it. */
  lemma NegativeDelayOvertakes()
    ensures
      var s := TState(1, [Entry(0, 2)]);
      Sent(s, []) == Some(0) && Sent(s, [Request(1, -1)]) == Some(1)
  {
    var list := [Entry(0, 2)];
    assert InsertAll(list, [Request(1, -1)], 2) == InsertAll(Insert(list, Entry(1, 1)), [], 2);
  }
}
