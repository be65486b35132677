/**
 Waiting for one kind of message and keeping the others: print_ack (coldfire/util/src/utils.c), RTX_printf
 (unix/rtx_util/src/rtx_util.c), and the ten-second wait of process C (coldfire/user/src/c.c), with the main loops that
 take from the private queue before they receive.
 */
module Stash {
  import opened Common
  import opened MsgEnvQueues

  // ---- a process and its two queues ----

  /** What arrives: the message that is waited for, or any other. */
  datatype Msg<T> = Awaited | Plain(value: T)

  /**
   due: the awaited message has been asked for and has not arrived. handled are the messages the main loop has taken,
   arrived the plain ones in the order in which they came. stray counts awaited messages that got to the main loop.
   */
  datatype State<T> = State(
    mailbox: seq<Msg<T>>,
    stash: seq<T>,
    waiting: bool,
    due: bool,
    handled: seq<T>,
    arrived: seq<T>,
    stray: nat)

  /** Ask sends the request and starts to wait; Wait and Handle take one message each. */
  datatype Event<T> = Arrive(value: T) | AwaitedArrives | Ask | Wait | Handle

  predicate Enabled<T>(s: State<T>, e: Event<T>) {
    match e
    case Arrive(_) => true
    case AwaitedArrives => s.due
    case Ask => !s.waiting
    case Wait => s.waiting && s.mailbox != []
    case Handle => !s.waiting && (s.stash != [] || s.mailbox != [])
  }

  function Next<T>(s: State<T>, e: Event<T>): State<T>
    requires Enabled(s, e)
  {
    match e
    case Arrive(v) => s.(mailbox := s.mailbox + [Plain(v)], arrived := s.arrived + [v])
    case AwaitedArrives => s.(mailbox := s.mailbox + [Awaited], due := false)
    case Ask => s.(waiting := true, due := true)
    case Wait =>
      var rest := s.(mailbox := s.mailbox[1..]);
      if s.mailbox[0].Awaited? then rest.(waiting := false) else rest.(stash := s.stash + [s.mailbox[0].value])
    case Handle =>
      if s.stash != [] then s.(stash := s.stash[1..], handled := s.handled + [s.stash[0]])
      else
        var rest := s.(mailbox := s.mailbox[1..]);
        if s.mailbox[0].Awaited? then rest.(stray := s.stray + 1)
        else rest.(handled := s.handled + [s.mailbox[0].value])
  }

  function Plains<T>(ms: seq<Msg<T>>): seq<T> {
    if ms == [] then []
    else
      var before := Plains(ms[..|ms| - 1]);
      match ms[|ms| - 1]
      case Awaited => before
      case Plain(v) => before + [v]
  }

  function Awaiteds<T>(ms: seq<Msg<T>>): nat {
    if ms == [] then 0 else Awaiteds(ms[..|ms| - 1]) + if ms[|ms| - 1].Awaited? then 1 else 0
  }

  function Start<T>(): State<T> {
    State([], [], false, false, [], [], 0)
  }

  /** What the main loop has still to get is in the stash first and then in the mailbox, in the order of arrival. */
  ghost predicate Ordered<T>(s: State<T>) {
    && s.handled + s.stash + Plains(s.mailbox) == s.arrived
    && Awaiteds(s.mailbox) + (if s.due then 1 else 0) == (if s.waiting then 1 else 0)
    && s.stray == 0
  }

  lemma {:induction false} TakeFront<T>(ms: seq<Msg<T>>)
    requires ms != []
    ensures Plains(ms) == (if ms[0].Plain? then [ms[0].value] else []) + Plains(ms[1..])
    ensures Awaiteds(ms) == (if ms[0].Plain? then 0 else 1) + Awaiteds(ms[1..])
    decreases |ms|
  {
    if |ms| > 1 {
      var shorter := ms[..|ms| - 1];
      TakeFront(shorter);
      assert shorter[1..] == ms[1..][..|ms| - 2];
    } else {
      assert ms[1..] == [] && ms[..0] == [];
    }
  }

  lemma PutBack<T>(ms: seq<Msg<T>>, m: Msg<T>)
    ensures Plains(ms + [m]) == Plains(ms) + (if m.Plain? then [m.value] else [])
    ensures Awaiteds(ms + [m]) == Awaiteds(ms) + (if m.Plain? then 0 else 1)
  {
    assert (ms + [m])[..|ms|] == ms;
  }

  lemma NextKeepsOrder<T>(s: State<T>, e: Event<T>)
    requires Ordered(s) && Enabled(s, e)
    ensures Ordered(Next(s, e))
  {
    hide Plains, Awaiteds;
    if s.mailbox != [] {
      TakeFront(s.mailbox);
    }
    match e
    case Arrive(v) => PutBack(s.mailbox, Plain(v));
    case AwaitedArrives => PutBack(s.mailbox, Awaited);
    case Ask =>
    case Wait =>
    case Handle =>
  }

  ghost predicate Run<T>(states: seq<State<T>>, events: seq<Event<T>>) {
    && |states| == |events| + 1 && states[0] == Start()
    && forall i | 0 <= i < |events| :: Enabled(states[i], events[i]) && states[i + 1] == Next(states[i], events[i])
  }

  /**
   Under every order of arrivals and waits, the main loop gets exactly the messages that were not waited for, in the
   order of their arrival, and never one that was.
   */
  lemma {:induction false} HandledInOrder<T>(states: seq<State<T>>, events: seq<Event<T>>, i: nat)
    requires Run(states, events) && i <= |events|
    ensures Ordered(states[i]) && states[i].handled <= states[i].arrived && states[i].stray == 0
    decreases i
  {
    if i > 0 {
      HandledInOrder(states, events, i - 1);
      NextKeepsOrder(states[i - 1], events[i - 1]);
    } else {
      assert states[0] == Start<T>();
    }
  }

  // ---- the waiting loop in place ----

  /** Where the first message of the type is. */
  function FirstOf(incoming: seq<MsgEnv>, msgType: int): (k: nat)
    reads incoming
    ensures k <= |incoming| && forall i | 0 <= i < k :: incoming[i].msgType != msgType
    ensures k < |incoming| ==> incoming[k].msgType == msgType
  {
    if incoming == [] || incoming[0].msgType == msgType then 0 else 1 + FirstOf(incoming[1..], msgType)
  }

  /** incoming are the messages that the calls of receive_message will return. */
  method AwaitMessage(queue: MsgEnvQueue, incoming: seq<MsgEnv>, msgType: int) returns (env: MsgEnv)
    requires queue.Valid() && NoDuplicates(incoming) && (forall e | e in incoming :: e !in queue.items)
    requires FirstOf(incoming, msgType) < |incoming|
    modifies queue, queue.items`next, incoming`next
    ensures queue.Valid()
    ensures
      var k := FirstOf(incoming, msgType);
      env == incoming[k] && queue.items == old(queue.items) + incoming[..k]
  {
    var next := 0;
    while true
      invariant 0 <= next <= FirstOf(incoming, msgType) < |incoming|
      invariant queue.Valid() && queue.items == old(queue.items) + incoming[..next]
      decreases |incoming| - next
    {
      env := incoming[next];
      if env.msgType == msgType {
        return;
      }
      var code := queue.Enqueue(env);
      next := next + 1;
    }
  }
}
