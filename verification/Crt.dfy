/**
 The handshake between the CRT i-process (unix/kern/src/crt_i_process.c) and its helper program
 (unix/crt/src/main.c). They share a buffer and a flag and run at the same time: one step of either is one read of the
 flag, one character copied, or one write of the flag. Other processes send messages while the i-process sleeps.
 */
module Crt {
  import opened Common
  import opened CStrings

  const CRT_BUF_SIZE := 1024

  /** A console message; id says how many were sent before it. */
  datatype Message = Message(id: nat, text: string)

  datatype Flag = FREE | WAIT

  /** What the i-process does next; the numbers are its lines. Copied has written the flag, and sets prev_msg next. */
  datatype IPc = Asleep | Test20 | Receive27 | Test30 | Copy(i: nat) | SetFlag | Copied

  datatype HPc = Poll | Print(j: nat) | SetFree

  datatype State = State(
    flag: Flag,
    data: seq<char>,
    ipc: IPc,
    prev: Option<Message>,
    message: Message,
    display: seq<Message>,
    mailbox: seq<Message>,
    hpc: HPc,
    printed: string,
    sent: seq<Message>,
    shown: seq<Message>,
    acked: seq<nat>,
    lost: seq<nat>,
    seen: Flag)

  datatype Event = Send(text: string) | Signal | IStep | HStep

  /** A text the caller has put into an envelope: it and its NUL fit. */
  predicate IsText(text: string) {
    |text| < CRT_BUF_SIZE && NUL !in text
  }

  predicate Enabled(s: State, e: Event) {
    match e
    case Send(text) => s.ipc == Asleep && IsText(text)
    case Signal => s.ipc == Asleep
    case IStep => s.ipc != Asleep
    case HStep => true
  }

  /** The i-process from one entry to the next. */
  function INext(s: State): State
    requires |s.data| == CRT_BUF_SIZE
  {
    match s.ipc
    case Asleep => s
    case Test20 =>
      var seen := s.(seen := s.flag, ipc := Receive27);
      if s.prev.Some? && s.flag == FREE then seen.(acked := s.acked + [s.prev.value.id], prev := None) else seen
    case Receive27 =>
      if s.mailbox == [] then s.(ipc := Test30)
      else s.(display := s.display + [s.mailbox[0]], mailbox := s.mailbox[1..], ipc := Test30)
    case Test30 =>
      if s.flag == FREE && s.display != [] then
        s.(message := s.display[0], display := s.display[1..], shown := s.shown + [s.display[0]], ipc := Copy(0))
      else s.(ipc := Asleep)
    case Copy(i) =>
      if i >= CRT_BUF_SIZE then s
      else if i < |s.message.text| then s.(data := s.data[i := s.message.text[i]], ipc := Copy(i + 1))
      else s.(data := s.data[i := NUL], ipc := SetFlag)
    case SetFlag => s.(flag := WAIT, ipc := Copied)
    case Copied =>
      s.(prev := Some(s.message), lost := if s.prev.Some? then s.lost + [s.prev.value.id] else s.lost, ipc := Asleep)
  }

  /** The helper's polling loop. */
  function HNext(s: State): State
    requires |s.data| == CRT_BUF_SIZE
  {
    match s.hpc
    case Poll => if s.flag == WAIT then s.(hpc := Print(0)) else s
    case Print(j) =>
      if j >= CRT_BUF_SIZE then s
      else if s.data[j] != NUL then s.(printed := s.printed + [s.data[j]], hpc := Print(j + 1))
      else s.(hpc := SetFree)
    case SetFree => s.(flag := FREE, hpc := Poll)
  }

  function Next(s: State, e: Event): State
    requires |s.data| == CRT_BUF_SIZE
  {
    match e
    case Send(text) =>
      var m := Message(|s.sent|, text);
      s.(sent := s.sent + [m], mailbox := s.mailbox + [m])
    case Signal => s.(ipc := Test20)
    case IStep => INext(s)
    case HStep => HNext(s)
  }

  // ---- the invariant ----

  /** Everything the messages say, in order. */
  function Texts(ms: seq<Message>): string {
    if ms == [] then "" else Texts(ms[..|ms| - 1]) + ms[|ms| - 1].text
  }

  predicate Writing(s: State) {
    s.ipc.Copy? || s.ipc == SetFlag
  }

  /** The last message shown is not in prev_msg yet. */
  predicate Pending(s: State) {
    Writing(s) || s.ipc == Copied
  }

  /** Messages shown before the one that is being copied. */
  function Before(s: State): seq<Message> {
    if Pending(s) && s.shown != [] then s.shown[..|s.shown| - 1] else s.shown
  }

  /** How many messages are done with: acknowledged, or forgotten. */
  function Settled(s: State): int {
    |Before(s)| - if s.prev.Some? then 1 else 0
  }

  predicate Holds(data: seq<char>, text: string) {
    |text| < |data| && data[..|text|] == text && data[|text|] == NUL
  }

  /** How much of the message in the buffer the helper has printed. */
  function Progress(s: State, text: string): nat {
    match s.hpc
    case Poll => 0
    case Print(j) => j
    case SetFree => |text|
  }

  ghost predicate InOrder(s: State) {
    && s.sent == s.shown + s.display + s.mailbox
    && forall k | 0 <= k < |s.sent| :: s.sent[k].id == k && IsText(s.sent[k].text)
  }

  ghost predicate WriterFits(s: State) {
    && (Pending(s) ==> s.shown != [] && s.message == s.shown[|s.shown| - 1])
    && (Writing(s) ==> s.flag == FREE)
    && (s.ipc.Copy? ==> s.ipc.i <= |s.message.text| < |s.data| && s.data[..s.ipc.i] == s.message.text[..s.ipc.i])
    && (s.ipc == SetFlag ==> Holds(s.data, s.message.text))
  }

  ghost predicate PrinterFits(s: State) {
    if s.flag == WAIT then
      && s.shown != []
      && var (n, text) := (|s.shown| - 1, s.shown[|s.shown| - 1].text);
         && Holds(s.data, text) && Progress(s, text) <= |text|
         && s.printed == Texts(s.shown[..n]) + text[..Progress(s, text)]
    else
      s.hpc == Poll && s.printed == Texts(if Writing(s) then Before(s) else s.shown)
  }

  ghost predicate PrevFits(s: State) {
    && (s.prev.Some? ==> Before(s) != [] && s.prev.value == Before(s)[|Before(s)| - 1])
    && (s.flag == WAIT && !Pending(s) ==> s.prev.Some?)
    && (s.ipc == Receive27 || s.ipc == Test30 ==> (s.prev.Some? <==> s.seen == WAIT))
  }

  ghost predicate Increasing(ids: seq<nat>, limit: int) {
    && (forall i, j | 0 <= i < j < |ids| :: ids[i] < ids[j])
    && (forall i | 0 <= i < |ids| :: ids[i] < limit)
  }

  /** Each message that is done with was acknowledged once or forgotten, and not both. */
  ghost predicate Accounted(s: State) {
    && Increasing(s.acked, Settled(s)) && Increasing(s.lost, Settled(s))
    && forall k: nat | k < Settled(s) :: k in s.acked <==> k !in s.lost
  }

  ghost predicate Inv(s: State) {
    |s.data| == CRT_BUF_SIZE && InOrder(s) && WriterFits(s) && PrinterFits(s) && PrevFits(s) && Accounted(s)
  }

  lemma TextsAppend(ms: seq<Message>, m: Message)
    ensures Texts(ms + [m]) == Texts(ms) + m.text
  {
    assert (ms + [m])[..|ms|] == ms;
  }

  lemma HStepPrints(s: State)
    requires Inv(s)
    ensures PrinterFits(HNext(s))
  {
    hide Accounted, PrevFits;
    if s.shown != [] {
      var (n, text) := (|s.shown| - 1, s.shown[|s.shown| - 1].text);
      assert s.shown[..n] + [s.shown[n]] == s.shown;
      assert s.sent[n] == s.shown[n];
      hide InOrder, WriterFits;
      if s.hpc.Print? && s.data[s.hpc.j] != NUL {
        assert s.hpc.j < |text| && text[..s.hpc.j + 1] == text[..s.hpc.j] + [text[s.hpc.j]];
      } else if s.hpc.Print? {
        assert s.hpc.j == |text|;
      } else if s.hpc.SetFree? {
        assert text[..|text|] == text;
      }
    }
  }

  lemma HStepWrites(s: State)
    requires Inv(s)
    ensures WriterFits(HNext(s)) && PrevFits(HNext(s))
  {
    assert s.hpc != Poll ==> s.flag == WAIT;
    hide Texts, Holds, IsText, Increasing, PrinterFits, Accounted;
  }

  lemma HStepCounts(s: State)
    requires Inv(s)
    ensures InOrder(HNext(s)) && Accounted(HNext(s))
  {
    assert s.hpc != Poll ==> s.flag == WAIT;
    hide Texts, Holds, IsText, Increasing, PrinterFits, WriterFits;
  }

  lemma HStepKeepsInv(s: State)
    requires Inv(s)
    ensures Inv(HNext(s))
  {
    HStepPrints(s);
    HStepWrites(s);
    HStepCounts(s);
    hide PrinterFits, WriterFits, PrevFits, InOrder, Accounted;
  }

  /** The message in prev_msg is the next one to be done with. */
  lemma PrevIsNext(s: State)
    requires Inv(s) && s.prev.Some?
    ensures s.prev.value.id == Settled(s)
  {
    assert s.prev.value == s.sent[|Before(s)| - 1];
  }

  lemma OneMore(ids: seq<nat>, others: seq<nat>, n: nat)
    requires Increasing(ids, n) && Increasing(others, n)
    requires forall k: nat | k < n :: k in ids <==> k !in others
    ensures Increasing(ids + [n], n + 1) && Increasing(others, n + 1)
    ensures forall k: nat | k < n + 1 :: k in ids + [n] <==> k !in others
  {
    assert n !in others;
  }

  lemma ITest20(s: State)
    requires Inv(s) && s.ipc == Test20
    ensures Inv(INext(s))
  {
    hide IsText, Texts, Holds, Increasing;
    if s.prev.Some? {
      PrevIsNext(s);
      OneMore(s.acked, s.lost, Settled(s));
    }
  }

  lemma IReceive(s: State)
    requires Inv(s) && s.ipc == Receive27
    ensures Inv(INext(s))
  {
    hide Texts, Holds, IsText, Increasing;
    assert s.mailbox != [] ==> [s.mailbox[0]] + s.mailbox[1..] == s.mailbox;
  }

  lemma ITest30(s: State)
    requires Inv(s) && s.ipc == Test30
    ensures Inv(INext(s))
  {
    assert forall k | 0 <= k < |s.sent| :: |s.sent[k].text| < |s.data|;
    hide Texts, Holds, Increasing, IsText;
    if s.flag == FREE && s.display != [] {
      assert s.display[0] == s.sent[|s.shown|];
      assert (s.shown + [s.display[0]])[..|s.shown|] == s.shown;
    }
  }

  lemma ICopy(s: State)
    requires Inv(s) && s.ipc.Copy?
    ensures Inv(INext(s))
  {
    hide Texts, Increasing;
    assert s.message == s.sent[|s.shown| - 1];
  }

  lemma ISetFlag(s: State)
    requires Inv(s) && s.ipc == SetFlag
    ensures Inv(INext(s))
  {
    hide Increasing, IsText, Texts;
    assert s.message.text[..0] == "" && Texts(Before(s)) + "" == Texts(Before(s));
  }

  lemma ICopied(s: State)
    requires Inv(s) && s.ipc == Copied
    ensures Inv(INext(s))
  {
    hide IsText, Texts, Holds, Increasing;
    if s.prev.Some? {
      PrevIsNext(s);
      OneMore(s.lost, s.acked, Settled(s));
    }
  }

  lemma IStepKeepsInv(s: State)
    requires Inv(s)
    ensures Inv(INext(s))
  {
    hide Inv;
    match s.ipc
    case Asleep =>
    case Test20 => ITest20(s);
    case Receive27 => IReceive(s);
    case Test30 => ITest30(s);
    case Copy(_) => ICopy(s);
    case SetFlag => ISetFlag(s);
    case Copied => ICopied(s);
  }

  lemma SendKeepsInv(s: State, text: string)
    requires Inv(s) && Enabled(s, Send(text))
    ensures Inv(Next(s, Send(text)))
  {
    hide Texts, Holds, Increasing;
  }

  lemma NextKeepsInv(s: State, e: Event)
    requires Inv(s) && Enabled(s, e)
    ensures Inv(Next(s, e))
  {
    match e
    case Send(text) => SendKeepsInv(s, text);
    case Signal => hide Texts, Holds, Increasing, IsText;
    case IStep => IStepKeepsInv(s);
    case HStep => HStepKeepsInv(s);
  }

  // ---- what the invariant says ----

  /**
   The two sides are never in the buffer together: while the i-process copies, the helper polls a flag that is FREE,
   and while the helper prints, the i-process is not copying. Both stay inside the buffer.
   */
  lemma NeverBothInBuffer(s: State)
    requires Inv(s)
    ensures !(Writing(s) && s.hpc != Poll)
    ensures Writing(s) ==> s.flag == FREE && HNext(s) == s
    ensures s.hpc != Poll ==> s.flag == WAIT
    ensures s.ipc.Copy? ==> s.ipc.i < CRT_BUF_SIZE
    ensures s.hpc.Print? ==> s.hpc.j < CRT_BUF_SIZE
  {
    hide Texts;
  }

  lemma {:induction false} TextsPrefix(ms: seq<Message>, n: nat)
    requires n <= |ms|
    ensures Texts(ms[..n]) <= Texts(ms)
    decreases |ms|
  {
    if n < |ms| {
      var shorter := ms[..|ms| - 1];
      TextsPrefix(shorter, n);
      assert shorter[..n] == ms[..n];
    } else {
      assert ms[..n] == ms;
    }
  }

  /** What has been printed is a prefix of all texts in the order in which they were sent. */
  lemma PrintedIsPrefix(s: State)
    requires Inv(s)
    ensures s.printed <= Texts(s.sent)
  {
    assert s.sent[..|s.shown|] == s.shown;
    TextsPrefix(s.sent, |s.shown|);
    if s.shown != [] {
      var n := |s.shown| - 1;
      TextsPrefix(s.shown, n);
      assert s.shown[..n] + [s.shown[n]] == s.shown;
      TextsAppend(s.shown[..n], s.shown[n]);
    }
  }

  lemma SettledIsPrinted(s: State)
    requires Inv(s)
    ensures 0 <= Settled(s) <= |s.sent| && Texts(s.sent[..Settled(s)]) <= s.printed
  {
    var b := Before(s);
    assert s.sent[..Settled(s)] == b[..Settled(s)];
    TextsPrefix(b, Settled(s));
    if s.flag == WAIT && !Pending(s) {
      assert Settled(s) == |s.shown| - 1;
    }
  }

  /** Everything that is done with, and so everything acknowledged, has been printed to its end. */
  lemma AckFollowsPrint(s: State, k: nat)
    requires Inv(s) && k in s.acked
    ensures k < |s.sent| && Texts(s.sent[..k + 1]) <= s.printed
  {
    assert k < Settled(s);
    SettledIsPrinted(s);
    TextsPrefix(s.sent[..Settled(s)], k + 1);
    assert s.sent[..Settled(s)][..k + 1] == s.sent[..k + 1];
  }

  // ---- whole runs ----

  ghost predicate Init(s: State) {
    && |s.data| == CRT_BUF_SIZE && s.flag == FREE && s.ipc == Test20 && s.prev.None? && s.hpc == Poll
    && s.display == [] && s.printed == "" && s.shown == [] && s.acked == [] && s.lost == []
    && s.mailbox == s.sent && forall k | 0 <= k < |s.sent| :: s.sent[k].id == k && IsText(s.sent[k].text)
  }

  ghost predicate Run(states: seq<State>, events: seq<Event>) {
    && |states| == |events| + 1 && Init(states[0])
    && forall i | 0 <= i < |events| ::
      Enabled(states[i], events[i]) && |states[i].data| == CRT_BUF_SIZE && states[i + 1] == Next(states[i], events[i])
  }

  lemma {:induction false} RunKeepsInv(states: seq<State>, events: seq<Event>, i: nat)
    requires Run(states, events) && i <= |events|
    ensures Inv(states[i])
    decreases i
  {
    if i == 0 {
      assert Texts([]) == "";
    } else {
      RunKeepsInv(states, events, i - 1);
      NextKeepsInv(states[i - 1], events[i - 1]);
    }
  }

  /** At line 20 the helper had not finished the message in prev_msg, at line 30 it has, and another one waits. */
  predicate Overtaken(s: State) {
    s.ipc == Test30 && s.seen == WAIT && s.flag == FREE && s.display != []
  }

  /** A message has been forgotten, or is about to be. */
  predicate Forgets(s: State) {
    s.lost != [] || (Pending(s) && s.prev.Some?)
  }

  lemma ForgetsStep(s: State, e: Event)
    requires Inv(s) && Enabled(s, e)
    ensures Forgets(Next(s, e)) <==> Forgets(s) || (e == IStep && Overtaken(s))
  {
    hide Texts, Holds, Increasing, IsText;
  }

  /** The flag has not changed between the two tests of one entry. */
  predicate Stable(s: State) {
    s.ipc == Test30 ==> s.seen == s.flag
  }

  lemma {:induction false} ForgetsExactly(states: seq<State>, events: seq<Event>, n: nat)
    requires Run(states, events) && n <= |events|
    ensures Forgets(states[n]) <==> exists i | 0 <= i < n :: events[i] == IStep && Overtaken(states[i])
    decreases n
  {
    if n == 0 {
      assert !Forgets(states[0]);
    } else {
      hide Inv, Init, Next, Forgets, Overtaken;
      ForgetsExactly(states, events, n - 1);
      RunKeepsInv(states, events, n - 1);
      ForgetsStep(states[n - 1], events[n - 1]);
    }
  }

  /**
   Every message that is done with has been acknowledged exactly once if and only if the helper never finished
   between the two tests of an entry that had another message to show.
   */
  lemma AckedExactlyOnce(states: seq<State>, events: seq<Event>)
    requires Run(states, events)
    ensures
      var last := states[|events|];
      && (forall i, j | 0 <= i < j < |last.acked| :: last.acked[i] < last.acked[j])
      && ((forall k: nat | k < Settled(last) :: k in last.acked) && !(Pending(last) && last.prev.Some?)
          <==> forall i | 0 <= i < |events| :: events[i] == IStep ==> !Overtaken(states[i]))
  {
    var last := states[|events|];
    RunKeepsInv(states, events, |events|);
    ForgetsExactly(states, events, |events|);
    if last.lost != [] {
      assert last.lost[0] in last.lost && last.lost[0] < Settled(last);
    }
  }

  /** In particular when the flag is stable between the tests. */
  lemma StableNeverForgets(states: seq<State>, events: seq<Event>)
    requires Run(states, events) && forall i | 0 <= i < |events| && events[i] == IStep :: Stable(states[i])
    ensures forall k: nat | k < Settled(states[|events|]) :: k in states[|events|].acked
  {
    AckedExactlyOnce(states, events);
  }

  ghost predicate Forgotten(s: State, m: Message) {
    m.id in s.lost || (Pending(s) && s.prev == Some(m))
  }

  lemma ForgottenNotAcked(s: State, m: Message)
    requires Inv(s) && Forgotten(s, m)
    ensures m.id !in s.acked
  {
    if m.id in s.lost {
      assert m.id < Settled(s);
    } else {
      PrevIsNext(s);
    }
  }

  lemma ForgottenStep(s: State, e: Event, m: Message)
    requires Enabled(s, e) && |s.data| == CRT_BUF_SIZE && Forgotten(s, m)
    ensures Forgotten(Next(s, e), m)
  {
  }

  lemma OvertakenHasPrev(s: State)
    requires Inv(s) && Overtaken(s)
    ensures s.prev.Some?
  {
  }

  /** A forgotten message is never acknowledged later. */
  lemma {:induction false} ForgottenForGood(states: seq<State>, events: seq<Event>, i: nat, n: nat)
    requires Run(states, events) && i < n <= |events| && events[i] == IStep && Overtaken(states[i])
    ensures states[i].prev.Some? && Forgotten(states[n], states[i].prev.value)
    ensures states[i].prev.value.id !in states[n].acked
    decreases n
  {
    hide Inv, Forgotten, INext, HNext, Init;
    RunKeepsInv(states, events, i);
    RunKeepsInv(states, events, n);
    OvertakenHasPrev(states[i]);
    if n > i + 1 {
      ForgottenForGood(states, events, i, n - 1);
      ForgottenStep(states[n - 1], events[n - 1], states[i].prev.value);
    } else {
      OvertakenForgets(states[i]);
    }
    ForgottenNotAcked(states[n], states[i].prev.value);
  }

  lemma OvertakenForgets(s: State)
    requires |s.data| == CRT_BUF_SIZE && Overtaken(s) && s.prev.Some?
    ensures Forgotten(INext(s), s.prev.value)
  {
  }

  ghost predicate Reachable(s: State) {
    exists states, events :: Run(states, events) && states[|events|] == s
  }

  lemma ReachableStart(s: State)
    requires Init(s)
    ensures Reachable(s)
  {
    var states, events: seq<Event> := [s], [];
    assert Run(states, events) && states[|events|] == s;
  }

  lemma ReachableStep(s: State, e: Event, s': State)
    requires Reachable(s) && Enabled(s, e) && |s.data| == CRT_BUF_SIZE && s' == Next(s, e)
    ensures Reachable(s')
  {
    hide Enabled, Next;
    var states, events :| Run(states, events) && states[|events|] == s;
    var longer, more := states + [s'], events + [e];
    assert Run(longer, more) && longer[|more|] == s';
  }

  /** The i-process copies "a" and sets the flag. */
  lemma CopyA(s: State) returns (s': State)
    requires Reachable(s) && s.ipc == Copy(0) && s.message.text == "a" && s.prev.None? && |s.data| == CRT_BUF_SIZE
    ensures Reachable(s')
    ensures s' == s.(data := s.data[0 := 'a'][1 := NUL], flag := WAIT, prev := Some(s.message), ipc := Asleep)
  {
    hide Reachable;
    var s1 := s.(data := s.data[0 := 'a'], ipc := Copy(1));
    ReachableStep(s, IStep, s1);
    var s2 := s1.(data := s1.data[1 := NUL], ipc := SetFlag);
    ReachableStep(s1, IStep, s2);
    var s3 := s2.(flag := WAIT, ipc := Copied);
    ReachableStep(s2, IStep, s3);
    s' := s3.(prev := Some(s.message), ipc := Asleep);
    ReachableStep(s3, IStep, s');
  }

  /** The first entry shows "a". */
  lemma ShowA(data: seq<char>) returns (s: State)
    requires |data| == CRT_BUF_SIZE
    ensures Reachable(s)
    ensures s == State(WAIT, data[0 := 'a'][1 := NUL], Asleep, Some(Message(0, "a")), Message(0, "a"), [], [], Poll, "",
                       [Message(0, "a")], [Message(0, "a")], [], [], FREE)
  {
    var a := Message(0, "a");
    var s0 := State(FREE, data, Test20, None, a, [], [a], Poll, "", [a], [], [], [], FREE);
    ReachableStart(s0);
    hide Reachable, Init;
    var s1 := s0.(ipc := Receive27);
    ReachableStep(s0, IStep, s1);
    var s2 := s1.(display := [a], mailbox := [], ipc := Test30);
    ReachableStep(s1, IStep, s2);
    var s3 := s2.(display := [], shown := [a], ipc := Copy(0));
    ReachableStep(s2, IStep, s3);
    s := CopyA(s3);
  }

  /** The helper prints a buffer that holds "a". */
  lemma PrintA(s: State) returns (s': State)
    requires Reachable(s) && s.flag == WAIT && s.hpc == Poll && |s.data| == CRT_BUF_SIZE
    requires s.data[0] == 'a' && s.data[1] == NUL
    ensures Reachable(s') && s' == s.(printed := s.printed + ['a'], flag := FREE)
  {
    hide Reachable;
    var s1 := s.(hpc := Print(0));
    ReachableStep(s, HStep, s1);
    var s2 := s1.(printed := s.printed + ['a'], hpc := Print(1));
    ReachableStep(s1, HStep, s2);
    var s3 := s2.(hpc := SetFree);
    ReachableStep(s2, HStep, s3);
    s' := s3.(flag := FREE, hpc := Poll);
    ReachableStep(s3, HStep, s');
  }

  /** It does happen: "a" is printed to its end between the tests of the entry that brings in "b". */
  lemma OvertakingHappens() returns (s: State)
    ensures Reachable(s) && Overtaken(s)
  {
    hide Reachable;
    var b := Message(1, "b");
    var s0 := ShowA(seq(CRT_BUF_SIZE, _ => NUL));
    var s1 := s0.(sent := s0.sent + [b], mailbox := [b]);
    ReachableStep(s0, Send("b"), s1);
    var s2 := s1.(ipc := Test20);
    ReachableStep(s1, Signal, s2);
    var s3 := s2.(seen := WAIT, ipc := Receive27);
    ReachableStep(s2, IStep, s3);
    var s4 := PrintA(s3);
    s := s4.(display := [b], mailbox := [], ipc := Test30);
    ReachableStep(s4, IStep, s);
  }

  // ---- a round that nothing disturbs ----

  /** n steps of the i-process, and of the helper. */
  function ISteps(s: State, n: nat): (r: State)
    requires |s.data| == CRT_BUF_SIZE
    ensures |r.data| == CRT_BUF_SIZE
    decreases n
  {
    if n == 0 then s else ISteps(INext(s), n - 1)
  }

  function HSteps(s: State, n: nat): (r: State)
    requires |s.data| == CRT_BUF_SIZE
    ensures |r.data| == CRT_BUF_SIZE
    decreases n
  {
    if n == 0 then s else HSteps(HNext(s), n - 1)
  }

  lemma {:induction false} CopyRuns(s: State)
    requires |s.data| == CRT_BUF_SIZE && IsText(s.message.text) && s.ipc.Copy? && s.ipc.i <= |s.message.text|
    requires s.data[..s.ipc.i] == s.message.text[..s.ipc.i]
    ensures
      var r := ISteps(s, |s.message.text| - s.ipc.i + 1);
      Holds(r.data, s.message.text) && r == s.(data := r.data, ipc := SetFlag)
    decreases |s.message.text| - s.ipc.i
  {
    var (i, text) := (s.ipc.i, s.message.text);
    var next := INext(s);
    assert ISteps(s, |text| - i + 1) == ISteps(next, |text| - i);
    if i < |text| {
      assert next.data[..i + 1] == text[..i + 1];
      CopyRuns(next);
    } else {
      assert next.data[..i] == text[..i] == text;
    }
  }

  lemma {:induction false} PrintRuns(s: State, text: string, printed: string)
    requires |s.data| == CRT_BUF_SIZE && IsText(text) && Holds(s.data, text)
    requires s.hpc.Print? && s.hpc.j <= |text| && s.printed == printed + text[..s.hpc.j]
    ensures HSteps(s, |text| - s.hpc.j + 1) == s.(printed := printed + text, hpc := SetFree)
    decreases |text| - s.hpc.j
  {
    var j := s.hpc.j;
    var next := HNext(s);
    assert HSteps(s, |text| - j + 1) == HSteps(next, |text| - j);
    if j < |text| {
      assert s.data[j] == s.data[..|text|][j] == text[j];
      assert text[..j + 1] == text[..j] + [text[j]];
      assert next.printed == printed + text[..j + 1];
      PrintRuns(next, text, printed);
    } else {
      assert text[..j] == text;
    }
  }

  lemma {:induction false} IStepsThen(s: State, m: nat, n: nat)
    requires |s.data| == CRT_BUF_SIZE
    ensures ISteps(s, m + n) == ISteps(ISteps(s, m), n)
    decreases m
  {
    if m > 0 {
      IStepsThen(INext(s), m - 1, n);
    }
  }

  lemma {:induction false} HStepsThen(s: State, m: nat, n: nat)
    requires |s.data| == CRT_BUF_SIZE
    ensures HSteps(s, m + n) == HSteps(HSteps(s, m), n)
    decreases m
  {
    if m > 0 {
      HStepsThen(HNext(s), m - 1, n);
    }
  }

  lemma {:induction false} StepsKeepInv(s: State, m: nat, n: nat)
    requires Inv(s)
    ensures Inv(ISteps(s, m)) && Inv(HSteps(ISteps(s, m), n))
    decreases m + n
  {
    hide Inv, INext, HNext;
    assert |s.data| == CRT_BUF_SIZE by { SizeStays(s); }
    if m > 0 {
      IStepKeepsInv(s);
      StepsKeepInv(INext(s), m - 1, n);
    } else if n > 0 {
      HStepKeepsInv(s);
      StepsKeepInv(HNext(s), 0, n - 1);
    }
  }

  lemma SizeStays(s: State)
    requires Inv(s)
    ensures |s.data| == CRT_BUF_SIZE
  {
  }

  /** An entry up to its second test: the message printed is acknowledged, and one more is received. */
  lemma EntryTests(s: State)
    requires |s.data| == CRT_BUF_SIZE && s.ipc == Asleep && s.flag == FREE
    ensures ISteps(Next(s, Signal), 2) == s.(
      ipc := Test30, seen := FREE, prev := None, acked := s.acked + if s.prev.Some? then [s.prev.value.id] else [],
      display := s.display + if s.mailbox == [] then [] else [s.mailbox[0]],
      mailbox := if s.mailbox == [] then [] else s.mailbox[1..])
  {
    var s0 := Next(s, Signal);
    var s1 := INext(s0);
    assert ISteps(s0, 2) == ISteps(s1, 1) == INext(s1);
  }

  /** The rest of it, where a message waits: its text and the flag are written. */
  lemma EntryShows(s: State)
    requires |s.data| == CRT_BUF_SIZE && s.ipc == Test30 && s.flag == FREE && s.display != [] && s.prev.None?
    requires IsText(s.display[0].text)
    ensures
      var (m, r) := (s.display[0], ISteps(s, |s.display[0].text| + 4));
      && Holds(r.data, m.text)
      && r == s.(data := r.data, message := m, display := s.display[1..], shown := s.shown + [m], flag := WAIT,
                 prev := Some(m), ipc := Asleep)
  {
    var m := s.display[0];
    var s1 := INext(s);
    assert s1.data[..0] == m.text[..0];
    CopyRuns(s1);
    var s2 := ISteps(s1, |m.text| + 1);
    IStepsThen(s1, |m.text| + 1, 2);
    var s3 := INext(s2);
    assert ISteps(s2, 2) == ISteps(s3, 1) == INext(s3);
  }

  /** The helper prints what the buffer holds and frees it. */
  lemma HelperPrints(s: State, text: string)
    requires |s.data| == CRT_BUF_SIZE && IsText(text) && Holds(s.data, text) && s.hpc == Poll && s.flag == WAIT
    ensures HSteps(s, |text| + 3) == s.(printed := s.printed + text, flag := FREE)
  {
    var s1 := HNext(s);
    assert s.printed + text[..0] == s.printed;
    PrintRuns(s1, text, s.printed);
    var s2 := HSteps(s1, |text| + 1);
    HStepsThen(s1, |text| + 1, 1);
    assert HSteps(s2, 1) == HNext(s2);
  }

  /** The messages that have not been shown. */
  function Unshown(s: State): seq<Message> {
    s.display + s.mailbox
  }

  /** A signal, the entry it causes and the turn of the helper, with nothing in between. */
  function Round(s: State): (r: State)
    requires |s.data| == CRT_BUF_SIZE
    ensures |r.data| == CRT_BUF_SIZE
  {
    var n := if Unshown(s) == [] then 0 else |Unshown(s)[0].text|;
    HSteps(ISteps(Next(s, Signal), n + 6), n + 3)
  }

  function Rounds(s: State, n: nat): (r: State)
    requires |s.data| == CRT_BUF_SIZE
    ensures |r.data| == CRT_BUF_SIZE
    decreases n
  {
    if n == 0 then s else Rounds(Round(s), n - 1)
  }

  ghost predicate AtRest(s: State) {
    Inv(s) && s.ipc == Asleep && s.flag == FREE
  }

  lemma RoundKeepsInv(s: State)
    requires AtRest(s)
    ensures |s.data| == CRT_BUF_SIZE && Inv(Round(s)) && s.hpc == Poll
    ensures Unshown(s) != [] ==> IsText(Unshown(s)[0].text)
  {
    NextKeepsInv(s, Signal);
    var n := if Unshown(s) == [] then 0 else |Unshown(s)[0].text|;
    StepsKeepInv(Next(s, Signal), n + 6, n + 3);
    if Unshown(s) != [] {
      assert Unshown(s)[0] == s.sent[|s.shown|];
    }
    hide Texts, Holds, Increasing;
  }

  /** What a round does: one message printed, and the one before it acknowledged. */
  lemma RoundServes(s: State)
    requires |s.data| == CRT_BUF_SIZE && s.ipc == Asleep && s.flag == FREE && s.hpc == Poll
    requires Unshown(s) != [] ==> IsText(Unshown(s)[0].text)
    ensures
      var (r, waiting) := (Round(s), Unshown(s));
      && r.ipc == Asleep && r.flag == FREE && r.lost == s.lost && r.sent == s.sent
      && r.acked == s.acked + (if s.prev.Some? then [s.prev.value.id] else [])
      && (if waiting == [] then Unshown(r) == [] && r.prev.None? && r.printed == s.printed
          else Unshown(r) == waiting[1..] && r.prev == Some(waiting[0]) && r.printed == s.printed + waiting[0].text)
  {
    EntryTests(s);
    hide INext, HNext;
    var n := if Unshown(s) == [] then 0 else |Unshown(s)[0].text|;
    var s2 := ISteps(Next(s, Signal), 2);
    IStepsThen(Next(s, Signal), 2, n + 4);
    assert Unshown(s2) == Unshown(s);
    if Unshown(s) == [] {
      IdleRound(s2);
    } else {
      assert s2.display[0] == Unshown(s)[0];
      EntryShows(s2);
      HelperPrints(ISteps(s2, n + 4), s2.display[0].text);
    }
  }

  lemma IdleRound(s: State)
    requires |s.data| == CRT_BUF_SIZE && s.ipc == Test30 && s.display == [] && s.flag == FREE && s.hpc == Poll
    ensures HSteps(ISteps(s, 4), 3) == s.(ipc := Asleep)
  {
    var r := INext(s);
    assert ISteps(s, 4) == ISteps(r, 3) == ISteps(r, 2) == ISteps(r, 1) == r;
    assert HSteps(r, 3) == HSteps(r, 2) == HSteps(r, 1) == r;
  }

  /**
   Left to themselves the two sides get everything done: with n messages not shown, n + 1 rounds print every text that
   was ever sent, acknowledge every message that was not forgotten before, and forget none.
   */
  lemma {:induction false} RoundsServeAll(s: State, n: nat)
    requires AtRest(s) && n == |Unshown(s)|
    ensures |s.data| == CRT_BUF_SIZE
    ensures
      var r := Rounds(s, n + 1);
      && AtRest(r) && r.sent == s.sent && r.printed == Texts(s.sent) && r.lost == s.lost
      && forall k: nat | k < |s.sent| :: k in r.acked <==> k !in s.lost
    decreases n
  {
    RoundKeepsInv(s);
    RoundServes(s);
    hide Inv, Round, Unshown, Texts;
    var next := Round(s);
    if n > 0 {
      assert |Unshown(next)| == n - 1;
      RoundsServeAll(next, n - 1);
    } else {
      assert Rounds(s, 1) == Rounds(next, 0) == next;
      NothingUnshown(next);
    }
  }

  lemma NothingUnshown(s: State)
    requires AtRest(s) && Unshown(s) == [] && s.prev.None?
    ensures s.printed == Texts(s.sent)
    ensures forall k: nat | k < |s.sent| :: k in s.acked <==> k !in s.lost
  {
    assert s.sent == s.shown && Settled(s) == |s.sent|;
  }

  /** The shared memory and the variables of both programs, changed in place one step at a time. */
  class Terminal {
    var flag: Flag
    const data: array<char>
    var ipc: IPc
    var prev: Option<Message>
    var message: Message
    var display: seq<Message>
    var mailbox: seq<Message>
    var hpc: HPc
    var printed: string
    ghost var sent: seq<Message>
    ghost var shown: seq<Message>
    ghost var acked: seq<nat>
    ghost var lost: seq<nat>
    ghost var seen: Flag

    ghost function Now(): State
      reads this, data
    {
      State(flag, data[..], ipc, prev, message, display, mailbox, hpc, printed, sent, shown, acked, lost, seen)
    }

    constructor ()
      ensures Init(Now()) && sent == []
    {
      flag, ipc, prev, message, display, mailbox := FREE, Test20, None, Message(0, ""), [], [];
      hpc, printed, sent, shown, acked, lost, seen := Poll, "", [], [], [], [], FREE;
      data := new char[CRT_BUF_SIZE](_ => NUL);
    }

    /** The test of line 20: the message that has been printed is acknowledged. */
    method Acknowledge()
      requires ipc == Test20 && data.Length == CRT_BUF_SIZE
      modifies `seen, `ipc, `acked, `prev
      ensures Now() == INext(old(Now()))
    {
      seen, ipc := flag, Receive27;
      if prev.Some? && flag == FREE {
        acked := acked + [prev.value.id];
        prev := None;
      }
    }

    /** The test of line 30: the next message to be shown, if there is one. */
    method Show()
      requires ipc == Test30 && data.Length == CRT_BUF_SIZE
      modifies `message, `shown, `display, `ipc
      ensures Now() == INext(old(Now()))
    {
      if flag == FREE && display != [] {
        message := display[0];
        shown := shown + [message];
        display := display[1..];
        ipc := Copy(0);
      } else {
        ipc := Asleep;
      }
    }

    /** One character of the message, or its NUL. */
    method CopyOne()
      requires ipc.Copy? && data.Length == CRT_BUF_SIZE && ipc.i < CRT_BUF_SIZE
      modifies `ipc, data
      ensures Now() == INext(old(Now()))
    {
      var i := ipc.i;
      if i < |message.text| {
        data[i] := message.text[i];
        ipc := Copy(i + 1);
      } else {
        data[i] := NUL;
        ipc := SetFlag;
      }
    }

    method StepIProcess()
      requires Inv(Now()) && ipc != Asleep
      modifies this, data
      ensures Now() == INext(old(Now()))
    {
      hide Inv, InOrder, PrinterFits, PrevFits, Accounted, WriterFits, Texts, Holds, IsText, Increasing;
      assert data.Length == CRT_BUF_SIZE && (ipc.Copy? ==> ipc.i < CRT_BUF_SIZE) by { WriterInBounds(Now()); }
      match ipc
      case Test20 => Acknowledge();
      case Receive27 =>
        if mailbox != [] {
          display := display + [mailbox[0]];
          mailbox := mailbox[1..];
        }
        ipc := Test30;
      case Test30 => Show();
      case Copy(_) => CopyOne();
      case SetFlag =>
        flag := WAIT;
        ipc := Copied;
      case Copied =>
        if prev.Some? {
          lost := lost + [prev.value.id];
        }
        prev := Some(message);
        ipc := Asleep;
    }

    method StepHelper()
      requires Inv(Now())
      modifies this
      ensures Now() == HNext(old(Now()))
    {
      hide InOrder, PrevFits, Accounted, WriterFits, Texts;
      match hpc
      case Poll =>
        if flag == WAIT {
          hpc := Print(0);
        }
      case Print(j) =>
        if data[j] != NUL {
          printed := printed + [data[j]];
          hpc := Print(j + 1);
        } else {
          hpc := SetFree;
        }
      case SetFree =>
        flag := FREE;
        hpc := Poll;
    }
  }

  lemma WriterInBounds(s: State)
    requires Inv(s)
    ensures |s.data| == CRT_BUF_SIZE && (s.ipc.Copy? ==> s.ipc.i < CRT_BUF_SIZE)
  {
  }
}
