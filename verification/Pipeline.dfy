/**
 The counter that goes from process A through B to C (coldfire/user/src/a.c, b.c, c.c), with every interleaving of the
 three. A step is one call of a primitive with what the process does up to the next one.
 */
module Pipeline {
  import opened Common
  import S = Stash

  /** C prints and then waits for ten seconds when it takes a multiple of this. */
  const PERIOD := 20

  /**
   heldA and heldB are envelopes between a request or receive and the send that follows. c has C's mailbox, its
   message queue and its wait; passive says that C has printed and goes on to request the delay.
   */
  datatype State = State(
    started: bool,
    counter: nat,
    heldA: Option<nat>,
    mailB: seq<nat>,
    heldB: Option<nat>,
    c: S.State<nat>,
    passive: bool,
    printed: seq<nat>)

  datatype Event = StartA | RequestA | SendA | ReceiveB | SendB | TakeC | DelayC | WaitC | WakeUp

  predicate Enabled(s: State, e: Event) {
    match e
    case StartA => !s.started
    case RequestA => s.started && s.heldA.None?
    case SendA => s.heldA.Some?
    case ReceiveB => s.heldB.None? && s.mailB != []
    case SendB => s.heldB.Some?
    case TakeC => !s.passive && S.Enabled(s.c, S.Handle)
    case DelayC => s.passive && S.Enabled(s.c, S.Ask)
    case WaitC => !s.passive && S.Enabled(s.c, S.Wait)
    case WakeUp => S.Enabled(s.c, S.AwaitedArrives)
  }

  function Next(s: State, e: Event): State
    requires Enabled(s, e)
  {
    match e
    case StartA => s.(started := true)
    case RequestA => s.(heldA := Some(s.counter))
    case SendA => s.(mailB := s.mailB + [s.heldA.value], heldA := None, counter := s.counter + 1)
    case ReceiveB => s.(heldB := Some(s.mailB[0]), mailB := s.mailB[1..])
    case SendB => s.(c := S.Next(s.c, S.Arrive(s.heldB.value)), heldB := None)
    case TakeC =>
      var c := S.Next(s.c, S.Handle);
      if |c.handled| > |s.c.handled| && c.handled[|c.handled| - 1] % PERIOD == 0 then
        s.(c := c, passive := true, printed := s.printed + [c.handled[|c.handled| - 1]])
      else s.(c := c)
    case DelayC => s.(c := S.Next(s.c, S.Ask), passive := false)
    case WaitC => s.(c := S.Next(s.c, S.Wait))
    case WakeUp => s.(c := S.Next(s.c, S.AwaitedArrives))
  }

  function UpTo(n: nat): (r: seq<nat>)
    ensures |r| == n && forall i | 0 <= i < n :: r[i] == i
  {
    seq(n, i requires 0 <= i < n => i)
  }

  function Held(h: Option<nat>): seq<nat> {
    match h
    case None => []
    case Some(n) => [n]
  }

  function Multiples(s: seq<nat>): seq<nat> {
    if s == [] then []
    else
      var before := Multiples(s[..|s| - 1]);
      if s[|s| - 1] % PERIOD == 0 then before + [s[|s| - 1]] else before
  }

  /** All the values under way, oldest first. */
  function Line(s: State): seq<nat> {
    s.c.arrived + Held(s.heldB) + s.mailB + Held(s.heldA)
  }

  /** The values that have been produced, from C back to A, are 0, 1, 2 and so on. */
  ghost predicate InLine(s: State) {
    && S.Ordered(s.c)
    && (s.heldA.Some? ==> s.heldA.value == s.counter)
    && Line(s) == UpTo(s.counter + |Held(s.heldA)|)
    && s.printed == Multiples(s.c.handled)
  }

  lemma UpToNext(n: nat)
    ensures UpTo(n + 1) == UpTo(n) + [n]
  {
  }

  /** A and B move a value along, or add the next one at the end. */
  lemma LineMoves(s: State, e: Event)
    requires Enabled(s, e) && !e.TakeC?
    ensures Line(Next(s, e)) == Line(s) + if e.RequestA? then [s.counter] else []
  {
    var c, b, m, a := s.c.arrived, Held(s.heldB), s.mailB, Held(s.heldA);
    match e
    case StartA => assert Line(s) + [] == Line(s);
    case RequestA => assert c + b + m + [] + [s.counter] == c + b + m + [s.counter];
    case SendA => assert c + b + (m + a) + [] == c + b + m + a;
    case ReceiveB => assert c + [m[0]] + m[1..] + a == c + [] + m + a;
    case SendB => assert c + b + [] + m + a == c + b + m + a;
    case DelayC => LineStays(s, Next(s, e));
    case WaitC => LineStays(s, Next(s, e));
    case WakeUp => LineStays(s, Next(s, e));
  }

  lemma LineStays(s: State, s': State)
    requires s'.c.arrived == s.c.arrived && s'.heldB == s.heldB && s'.mailB == s.mailB && s'.heldA == s.heldA
    ensures Line(s') == Line(s) + []
  {
  }

  /** What a step of the pipeline is to C's queues. */
  function StepOfC(s: State, e: Event): Option<S.Event<nat>>
    requires Enabled(s, e)
  {
    match e
    case SendB => Some(S.Arrive(s.heldB.value))
    case TakeC => Some(S.Handle)
    case DelayC => Some(S.Ask)
    case WaitC => Some(S.Wait)
    case WakeUp => Some(S.AwaitedArrives)
    case _ => None
  }

  lemma QueuesKeepOrder(s: State, e: Event)
    requires S.Ordered(s.c) && Enabled(s, e)
    ensures S.Ordered(Next(s, e).c)
    ensures !e.TakeC? ==> Next(s, e).c.handled == s.c.handled
  {
    hide S.Ordered;
    if StepOfC(s, e).Some? {
      S.NextKeepsOrder(s.c, StepOfC(s, e).value);
    }
  }

  lemma HandleTakes(c: S.State<nat>)
    requires S.Enabled(c, S.Handle)
    ensures
      var after := S.Next(c, S.Handle);
      && after.arrived == c.arrived
      && (after.handled == c.handled
          || (|after.handled| == |c.handled| + 1 && after.handled[..|c.handled|] == c.handled))
  {
  }

  lemma TakeKeepsLine(s: State)
    requires InLine(s) && Enabled(s, TakeC)
    ensures InLine(Next(s, TakeC))
  {
    hide S.Ordered, UpTo, S.Next;
    QueuesKeepOrder(s, TakeC);
    HandleTakes(s.c);
    var c := S.Next(s.c, S.Handle);
    assert Line(Next(s, TakeC)) == Line(s);
    hide Line;
    if |c.handled| > |s.c.handled| {
      var n, before := c.handled[|s.c.handled|], Multiples(s.c.handled);
      assert Multiples(c.handled) == if n % PERIOD == 0 then before + [n] else before;
    }
  }

  lemma NextKeepsLine(s: State, e: Event)
    requires InLine(s) && Enabled(s, e)
    ensures InLine(Next(s, e))
  {
    hide S.Ordered, UpTo, Line, Multiples;
    if e.TakeC? {
      TakeKeepsLine(s);
    } else {
      QueuesKeepOrder(s, e);
      LineMoves(s, e);
      UpToNext(s.counter);
      assert Line(s) + [] == Line(s);
    }
  }

  /** Below n there are the multiples 0, 20, 40 and so on. */
  lemma {:induction false} MultiplesUpTo(n: nat)
    ensures Multiples(UpTo(n)) == seq((n + 19) / 20, k requires k >= 0 => 20 * k)
  {
    if n > 0 {
      MultiplesUpTo(n - 1);
      assert UpTo(n)[..n - 1] == UpTo(n - 1);
    }
  }

  ghost predicate Run(states: seq<State>, events: seq<Event>) {
    && |states| == |events| + 1
    && states[0] == State(false, 0, None, [], None, S.Start(), false, [])
    && forall i | 0 <= i < |events| :: Enabled(states[i], events[i]) && states[i + 1] == Next(states[i], events[i])
  }

  lemma {:induction false} RunKeepsLine(states: seq<State>, events: seq<Event>, i: nat)
    requires Run(states, events) && i <= |events|
    ensures InLine(states[i])
    decreases i
  {
    if i > 0 {
      RunKeepsLine(states, events, i - 1);
      NextKeepsLine(states[i - 1], events[i - 1]);
    }
  }

  /** Under every schedule C takes 0, 1, 2 and so on, and prints for exactly the multiples of twenty among them. */
  lemma CountsInOrder(states: seq<State>, events: seq<Event>, i: nat)
    requires Run(states, events) && i <= |events|
    ensures
      var c := states[i].c;
      c.handled == UpTo(|c.handled|) && |c.handled| <= states[i].counter
      && states[i].printed == Multiples(UpTo(|c.handled|)) && c.stray == 0
    ensures states[i].printed == seq((|states[i].c.handled| + 19) / 20, k requires k >= 0 => 20 * k)
  {
    RunKeepsLine(states, events, i);
    var s := states[i];
    hide S.Plains, S.Awaiteds, UpTo;
    assert s.c.handled <= s.c.arrived <= Line(s);
    assert s.c.handled == UpTo(s.counter + |Held(s.heldA)|)[..|s.c.handled|];
    assert s.c.handled == UpTo(|s.c.handled|);
    MultiplesUpTo(|s.c.handled|);
  }
}
