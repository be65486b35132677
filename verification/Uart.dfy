/** The transmit half of the UART i-process (uart_i_process.c): one character per interrupt, over the output buffer. */
module Uart {
  import opened CStrings

  const IPC_MSG_ENV_MSG_SIZE := 1024

  /** The types of message that reach the UART, and the type of an acknowledgement. */
  datatype MsgType = CONSOLE_OUTPUT | CONSOLE_OUTPUT_REQUEST_ACK | DISPLAY_ACK | OTHER

  /** A console message with its raw text field. */
  datatype Message = Message(sendPid: int, msgType: MsgType, msg: seq<char>)

  predicate Terminated(msg: seq<char>) {
    |msg| == IPC_MSG_ENV_MSG_SIZE && NUL in msg
  }

  lemma TextStep(msg: seq<char>)
    requires msg != [] && msg[0] != NUL && NUL in msg
    ensures |msg| > 1 && NUL in msg[1..] && TextOf(msg) == [msg[0]] + TextOf(msg[1..])
  {
    assert msg == [msg[0]] + msg[1..];
  }

  lemma TextStepAt(a: array<char>, i: nat)
    requires i < a.Length && a[i] != NUL && NUL in a[i..]
    ensures i + 1 < a.Length && NUL in a[i + 1..]
    ensures TextOf(a[i..]) != "" && TextOf(a[i..])[0] == a[i] && TextOf(a[i..])[1..] == TextOf(a[i + 1..])
  {
    var rest := a[i..];
    TextStep(rest);
    hide TextOf;
    assert rest[1..] == a[i + 1..];
  }

  // ---- the transmitter as values ----

  /** rest is what is left in the buffer; written has gone to the data register. */
  datatype Line = Line(
    written: string,
    printing: bool,
    rest: string,
    mailbox: seq<Message>,
    released: seq<Message>,
    acked: seq<Message>)

  /** An envelope that wants no acknowledgement goes back to the pool, any other to its sender. */
  function Disposed(s: Line, m: Message): Line {
    if m.msgType == CONSOLE_OUTPUT then s.(released := s.released + [m])
    else s.(acked := s.acked + [m.(msgType := DISPLAY_ACK)])
  }

  /** k_receive_message and, if there was a message, what is done with it. */
  function Fetch(s: Line): Line {
    if s.mailbox == [] then s
    else
      var m := s.mailbox[0];
      Disposed(s.(printing := true, rest := TextOf(m.msg), mailbox := s.mailbox[1..]), m)
  }

  /** A transmit interrupt. */
  function Interrupt(s: Line): Line {
    var s1 := if s.printing then s else Fetch(s);
    if !s1.printing then s1
    else if s1.rest == "" then Fetch(s1.(printing := false))
    else s1.(written := s1.written + [s1.rest[0]], rest := s1.rest[1..])
  }

  datatype Event = Sent(m: Message) | Transmit

  function Next(s: Line, e: Event): Line {
    match e
    case Sent(m) => s.(mailbox := s.mailbox + [m])
    case Transmit => Interrupt(s)
  }

  function After(s: Line, events: seq<Event>): Line {
    if events == [] then s else Next(After(s, events[..|events| - 1]), events[|events| - 1])
  }

  /** The messages of a run in send order. */
  function SentIn(events: seq<Event>): seq<Message> {
    if events == [] then []
    else
      var before := SentIn(events[..|events| - 1]);
      match events[|events| - 1]
      case Sent(m) => before + [m]
      case Transmit => before
  }

  function Texts(ms: seq<Message>): string {
    if ms == [] then "" else TextOf(ms[0].msg) + Texts(ms[1..])
  }

  /** The envelopes among ms that are released, and those that go back to their senders. */
  function Outputs(ms: seq<Message>): seq<Message> {
    if ms == [] then []
    else
      var before := Outputs(ms[..|ms| - 1]);
      if ms[|ms| - 1].msgType == CONSOLE_OUTPUT then before + [ms[|ms| - 1]] else before
  }

  function Acks(ms: seq<Message>): seq<Message> {
    if ms == [] then []
    else
      var before := Acks(ms[..|ms| - 1]);
      if ms[|ms| - 1].msgType == CONSOLE_OUTPUT then before else before + [ms[|ms| - 1].(msgType := DISPLAY_ACK)]
  }

  const START := Line("", false, "", [], [], [])

  /** sent splits into what has been fetched and the mailbox; all its text is written, left over or still to come. */
  ghost predicate Flows(s: Line, sent: seq<Message>) {
    && |s.mailbox| <= |sent|
    && (var fetched := sent[..|sent| - |s.mailbox|];
        && sent == fetched + s.mailbox
        && s.released == Outputs(fetched) && s.acked == Acks(fetched))
    && (s.printing || s.rest == "")
    && s.written + s.rest + Texts(s.mailbox) == Texts(sent)
  }

  lemma {:induction false} TextsAppend(a: seq<Message>, b: seq<Message>)
    ensures Texts(a + b) == Texts(a) + Texts(b)
    decreases |a|
  {
    if a == [] {
      assert a + b == b;
    } else {
      assert (a + b)[1..] == a[1..] + b;
      TextsAppend(a[1..], b);
    }
  }

  lemma FetchMovesText(s: Line)
    requires s.rest == ""
    ensures Fetch(s).written + Fetch(s).rest + Texts(Fetch(s).mailbox) == s.written + s.rest + Texts(s.mailbox)
  {
    hide TextOf;
    if s.mailbox != [] {
      assert s.written + "" + Texts(s.mailbox) == s.written + TextOf(s.mailbox[0].msg) + Texts(s.mailbox[1..]);
    }
  }

  lemma FetchDisposes(s: Line, fetched: seq<Message>)
    requires s.mailbox != [] && s.released == Outputs(fetched) && s.acked == Acks(fetched)
    ensures Fetch(s).released == Outputs(fetched + [s.mailbox[0]])
    ensures Fetch(s).acked == Acks(fetched + [s.mailbox[0]])
  {
    assert (fetched + [s.mailbox[0]])[..|fetched|] == fetched;
    hide TextOf;
  }

  lemma FetchFlows(s: Line, sent: seq<Message>)
    requires Flows(s, sent) && s.rest == ""
    ensures Flows(Fetch(s), sent)
  {
    hide TextOf, Texts, Outputs, Acks;
    FetchMovesText(s);
    if s.mailbox != [] {
      var n := |sent| - |s.mailbox|;
      FetchDisposes(s, sent[..n]);
      assert sent[..n + 1] == sent[..n] + [s.mailbox[0]];
      assert sent[..n + 1] + s.mailbox[1..] == sent;
    }
  }

  lemma InterruptFlows(s: Line, sent: seq<Message>)
    requires Flows(s, sent)
    ensures Flows(Interrupt(s), sent)
  {
    hide TextOf, Texts, Outputs, Acks;
    if !s.printing {
      FetchFlows(s, sent);
    }
    var s1 := if s.printing then s else Fetch(s);
    if s1.printing && s1.rest == "" {
      FetchFlows(s1.(printing := false), sent);
    } else if s1.printing {
      assert s1.written + [s1.rest[0]] + s1.rest[1..] == s1.written + s1.rest;
    }
  }

  lemma SendFlows(s: Line, sent: seq<Message>, m: Message)
    requires Flows(s, sent)
    ensures Flows(Next(s, Sent(m)), sent + [m])
  {
    hide TextOf, Texts, Outputs, Acks;
    TextsAppend(s.mailbox, [m]);
    TextsAppend(sent, [m]);
    assert s.written + s.rest + (Texts(s.mailbox) + Texts([m])) == s.written + s.rest + Texts(s.mailbox) + Texts([m]);
    var n := |sent| - |s.mailbox|;
    assert (sent + [m])[..n] == sent[..n];
  }

  /**
   In every run the characters written, the rest of the buffer and the texts in the mailbox are together everything
   that was sent, in send order; and the envelopes fetched so far were each released or acknowledged once.
   */
  lemma {:induction false} StreamIsKept(events: seq<Event>)
    ensures Flows(After(START, events), SentIn(events))
    decreases |events|
  {
    if events != [] {
      var before := events[..|events| - 1];
      StreamIsKept(before);
      match events[|events| - 1]
      case Sent(m) => SendFlows(After(START, before), SentIn(before), m);
      case Transmit => InterruptFlows(After(START, before), SentIn(before));
    }
  }

  /** Released and acknowledged envelopes together are the fetched ones: each exactly once, by its type. */
  lemma {:induction false} DisposedOnce(ms: seq<Message>)
    ensures |Outputs(ms)| + |Acks(ms)| == |ms|
    ensures forall m | m in Outputs(ms) :: m.msgType == CONSOLE_OUTPUT && m in ms
    ensures forall m | m in ms ::
      if m.msgType == CONSOLE_OUTPUT then m in Outputs(ms) else m.(msgType := DISPLAY_ACK) in Acks(ms)
    decreases |ms|
  {
    if ms != [] {
      DisposedOnce(ms[..|ms| - 1]);
    }
  }

  /** Interrupts that are still needed: one a character, and at most two more a message. */
  function Owed(s: Line): nat {
    (if s.printing then |s.rest| + 1 else 0) + 2 * |s.mailbox| + |Texts(s.mailbox)|
  }

  lemma FetchOwes(s: Line)
    requires s.mailbox != []
    ensures Owed(Fetch(s)) == Owed(s.(printing := false)) - 1
  {
  }

  /** Which character an interrupt writes, if any: the next one of the stream, unless a text ends here. */
  lemma InterruptWrites(s: Line)
    ensures
      var next := if s.printing then s.rest else if s.mailbox == [] then "" else TextOf(s.mailbox[0].msg);
      Interrupt(s).written == s.written + if next == "" then "" else [next[0]]
  {
  }

  /** What is left of the text and of the mailbox: at the end of a text the next message is fetched, but not begun. */
  lemma InterruptMoves(s: Line)
    ensures s.printing && s.rest != "" ==>
      Interrupt(s) == s.(written := s.written + [s.rest[0]], rest := s.rest[1..])
    ensures s.printing && s.rest == "" && s.mailbox == [] ==> Interrupt(s) == s.(printing := false)
    ensures s.printing && s.rest == "" && s.mailbox != [] ==>
      && Interrupt(s).printing && Interrupt(s).rest == TextOf(s.mailbox[0].msg) && Interrupt(s).written == s.written
      && Interrupt(s).mailbox == s.mailbox[1..]
    ensures !s.printing && s.mailbox == [] ==> Interrupt(s) == s
    ensures !s.printing && s.mailbox != [] && TextOf(s.mailbox[0].msg) != "" ==>
      && Interrupt(s).printing && Interrupt(s).rest == TextOf(s.mailbox[0].msg)[1..]
      && Interrupt(s).mailbox == s.mailbox[1..]
    ensures !s.printing && s.mailbox != [] && TextOf(s.mailbox[0].msg) == "" ==>
      if |s.mailbox| == 1 then !Interrupt(s).printing && Interrupt(s).mailbox == []
      else
        && Interrupt(s).printing && Interrupt(s).rest == TextOf(s.mailbox[1].msg)
        && Interrupt(s).mailbox == s.mailbox[2..]
  {
    hide TextOf;
  }

  lemma InterruptOwes(s: Line)
    requires s.printing || s.rest == ""
    ensures Interrupt(s).printing || Interrupt(s).rest == ""
    ensures Owed(Interrupt(s)) < Owed(s) || Owed(Interrupt(s)) == Owed(s) == 0
  {
    hide Owed, TextOf;
    assert Owed(s) == (if s.printing then |s.rest| + 1 else 0) + 2 * |s.mailbox| + |Texts(s.mailbox)| by { OwedIs(s); }
    var s1 := if s.printing then s else Fetch(s);
    if !s.printing && s.mailbox != [] {
      FetchOwes(s);
      assert s.(printing := false) == s;
    }
    OwedIs(s1);
    OwedIs(Interrupt(s));
    if s1.printing && s1.rest == "" && s1.mailbox != [] {
      FetchOwes(s1.(printing := false));
      OwedIs(s1.(printing := false));
    }
  }

  lemma OwedIs(s: Line)
    ensures Owed(s) == (if s.printing then |s.rest| + 1 else 0) + 2 * |s.mailbox| + |Texts(s.mailbox)|
    ensures s.mailbox == [] ==> Texts(s.mailbox) == ""
  {
  }

  lemma {:induction false} OwedFalls(s: Line, events: seq<Event>)
    requires s.printing || s.rest == ""
    requires forall i | 0 <= i < |events| :: events[i] == Transmit
    ensures After(s, events).printing || After(s, events).rest == ""
    ensures Owed(After(s, events)) + |events| <= Owed(s) || Owed(After(s, events)) == 0
    decreases |events|
  {
    if events != [] {
      OwedFalls(s, events[..|events| - 1]);
      InterruptOwes(After(s, events[..|events| - 1]));
    }
  }

  /** When nothing more is sent, that many interrupts write everything there is. */
  lemma DrainsInTime(before: seq<Event>, n: nat)
    requires n >= Owed(After(START, before))
    ensures After(After(START, before), seq(n, _ => Transmit)).written == Texts(SentIn(before))
  {
    var s, events := After(START, before), seq(n, _ => Transmit);
    StreamIsKept(before);
    hide After, Owed, Flows;
    OwedFalls(s, events);
    DrainFlows(s, SentIn(before), events);
    NothingOwed(After(s, events), SentIn(before));
  }

  lemma NothingOwed(s: Line, sent: seq<Message>)
    requires Flows(s, sent) && Owed(s) == 0
    ensures s.written == Texts(sent)
  {
    OwedIs(s);
    hide Texts, Outputs, Acks;
    assert s.written + "" + "" == s.written;
  }

  lemma {:induction false} DrainFlows(s: Line, sent: seq<Message>, events: seq<Event>)
    requires Flows(s, sent) && forall i | 0 <= i < |events| :: events[i] == Transmit
    ensures Flows(After(s, events), sent)
    decreases |events|
  {
    if events != [] {
      DrainFlows(s, sent, events[..|events| - 1]);
      InterruptFlows(After(s, events[..|events| - 1]), sent);
    }
  }

  // ---- the transmitter in place ----

  class Transmitter {
    const outBuffer: array<char>
    var outputIndex: nat
    var outputPrintChar: bool
    var mailbox: seq<Message>
    var written: string
    var released: seq<Message>
    var acked: seq<Message>

    ghost predicate Valid()
      reads this, outBuffer
    {
      && outBuffer.Length == IPC_MSG_ENV_MSG_SIZE
      && (if outputPrintChar then outputIndex < outBuffer.Length && NUL in outBuffer[outputIndex..]
          else outputIndex == 0)
      && forall m | m in mailbox :: Terminated(m.msg)
    }

    ghost function Now(): Line
      requires Valid()
      reads this, outBuffer
    {
      Line(written, outputPrintChar, if outputPrintChar then TextOf(outBuffer[outputIndex..]) else "",
        mailbox, released, acked)
    }

    constructor ()
      ensures Valid() && Now() == START
    {
      outputIndex, outputPrintChar, mailbox, written, released, acked := 0, false, [], "", [], [];
      outBuffer := new char[IPC_MSG_ENV_MSG_SIZE](_ => NUL);
    }

    method Copy(msg: seq<char>)
      requires Terminated(msg) && outBuffer.Length == IPC_MSG_ENV_MSG_SIZE
      modifies outBuffer
      ensures NUL in outBuffer[..] && TextOf(outBuffer[..]) == TextOf(msg)
    {
      var i := 0;
      while msg[i] != NUL
        invariant 0 <= i <= |TextOf(msg)| < |msg|
        invariant outBuffer[..i] == msg[..i]
        decreases |msg| - i
      {
        outBuffer[i] := msg[i];
        i := i + 1;
      }
      outBuffer[i] := NUL;
      assert i == |TextOf(msg)|;
      assert outBuffer[..][..i] == msg[..i];
      TextIs(outBuffer[..], i);
    }

    /** k_receive_message and, if there was a message, what is done with it. */
    method FetchMessage() returns (some: bool)
      requires Valid() && !outputPrintChar
      modifies this, outBuffer
      ensures Valid() && Now() == Fetch(old(Now())) && some == (old(mailbox) != [])
    {
      if mailbox == [] {
        return false;
      }
      var message := mailbox[0];
      mailbox := mailbox[1..];
      Copy(message.msg);
      assert outBuffer[0..] == outBuffer[..];
      outputPrintChar := true;
      if message.msgType == CONSOLE_OUTPUT {
        released := released + [message];
      } else {
        acked := acked + [message.(msgType := DISPLAY_ACK)];
      }
      return true;
    }

    method WriteData()
      requires Valid() && outputPrintChar && outBuffer[outputIndex] != NUL
      modifies `written, `outputIndex
      ensures old(Now().rest) != ""
      ensures Valid() && Now() == old(Now()).(written := old(written + [Now().rest[0]]), rest := old(Now().rest)[1..])
    {
      hide TextOf, Terminated;
      TextStepAt(outBuffer, outputIndex);
      written := written + [outBuffer[outputIndex]];
      outputIndex := outputIndex + 1;
    }

    /** The whole text has been written. */
    method Rewind()
      requires Valid() && outputPrintChar && outBuffer[outputIndex] == NUL
      modifies `outputIndex, `outputPrintChar
      ensures old(Now().rest) == ""
      ensures Valid() && Now() == old(Now()).(printing := false) && !outputPrintChar
    {
      outputIndex := 0;
      outputPrintChar := false;
    }

    method TransmitInterrupt()
      requires Valid()
      modifies this, outBuffer
      ensures Valid() && Now() == Interrupt(old(Now()))
    {
      hide TextOf, Fetch;
      var some;
      if outputIndex == 0 && !outputPrintChar {
        some := FetchMessage();
      }
      if outputPrintChar {
        if outBuffer[outputIndex] == NUL {
          Rewind();
          some := FetchMessage();
        } else {
          WriteData();
        }
      }
    }

    method Receive(m: Message)
      requires Valid() && Terminated(m.msg)
      modifies `mailbox
      ensures Valid() && Now() == Next(old(Now()), Sent(m))
    {
      mailbox := mailbox + [m];
    }
  }
}
