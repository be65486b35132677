/** The ring of logged messages (k_ipc.c) and its dump. */
module TraceRing {
  const SIZE := 16
  const MAX_UINT32 := 0xFFFF_FFFF

  datatype Entry = Entry(destPid: int, sendPid: int, msgType: int, timeStamp: int)

  predicate IsEmpty(e: Entry) {
    e.timeStamp == MAX_UINT32
  }

  /** Every clock value but the one that marks empty entries. */
  predicate Logged(history: seq<Entry>) {
    forall i | 0 <= i < |history| :: !IsEmpty(history[i])
  }

  /** Position j of the ring holds the last event whose number is j modulo the size, if there was one. */
  ghost predicate Ring(buf: seq<Entry>, tail: int, history: seq<Entry>) {
    && |buf| == SIZE && tail == |history| % SIZE
    && (forall k | 0 <= k < |history| && |history| - SIZE <= k :: buf[k % SIZE] == history[k])
    && (forall j | |history| <= j < SIZE :: IsEmpty(buf[j]))
  }

  lemma RingGoesOn(buf: seq<Entry>, tail: nat, history: seq<Entry>, e: Entry)
    requires Ring(buf, tail, history)
    ensures tail < |buf| && Ring(buf[tail := e], (tail + 1) % SIZE, history + [e])
  {
  }

  function Position(tail: nat, k: nat): (r: nat)
    ensures tail < SIZE && k < SIZE ==> r == if tail + k < SIZE then tail + k else tail + k - SIZE
  {
    (tail + k) % SIZE
  }

  lemma PositionOfEvent(n: nat, i: nat)
    requires n >= SIZE && i < SIZE
    ensures Position(n % SIZE, i) == (n - SIZE + i) % SIZE
  {
  }

  /** What the ring says about its positions, without remainders. */
  lemma RingPositions(buf: seq<Entry>, tail: nat, history: seq<Entry>)
    requires Ring(buf, tail, history)
    ensures tail < SIZE
    ensures |history| < SIZE ==> tail == |history| && forall k | 0 <= k < |history| :: buf[k] == history[k]
    ensures |history| >= SIZE ==>
      (forall i | 0 <= i < SIZE :: buf[Position(tail, i)] == history[|history| - SIZE + i])
  {
    if |history| >= SIZE {
      hide Position;
      forall i | 0 <= i < SIZE
        ensures buf[Position(tail, i)] == history[|history| - SIZE + i]
      {
        PositionOfEvent(|history|, i);
        var k := |history| - SIZE + i;
        assert buf[k % SIZE] == history[k];
      }
    } else {
      forall k | 0 <= k < |history|
        ensures buf[k] == history[k]
      {
        assert buf[k % SIZE] == history[k];
      }
    }
  }

  /** circle_index(tail - 1) where tail is an unsigned 32-bit number. */
  function Before(tail: nat): (r: nat)
    requires tail < SIZE
    ensures r == Position(tail, SIZE - 1)
  {
    ((tail - 1) % 0x1_0000_0000) % SIZE
  }

  lemma PositionNext(tail: nat, k: nat)
    requires tail < SIZE && k < SIZE
    ensures Position(tail, k + 1) == (Position(tail, k) + 1) % SIZE
    ensures forall m | 0 <= m < k :: Position(tail, m) != Position(tail, k)
  {
  }

  /** Where the search ends: at the first entry from tail on that is not empty, or at the one before tail. */
  ghost predicate IsHead(buf: seq<Entry>, tail: nat, head: nat, k: nat)
    requires |buf| == SIZE
  {
    && k < SIZE && head == Position(tail, k)
    && (forall m | 0 <= m < k :: IsEmpty(buf[Position(tail, m)]))
    && (!IsEmpty(buf[head]) || k == SIZE - 1)
  }

  /** The last events, oldest first, and empty entries behind them. */
  ghost predicate IsDump(dump: seq<Entry>, history: seq<Entry>) {
    var n := if |history| < SIZE then |history| else SIZE;
    && |dump| == SIZE && dump[..n] == history[|history| - n..]
    && forall i | n <= i < SIZE :: IsEmpty(dump[i])
  }

  lemma DumpIsHistory(buf: seq<Entry>, tail: nat, history: seq<Entry>, head: nat, k: nat, dump: seq<Entry>)
    requires Ring(buf, tail, history) && Logged(history) && IsHead(buf, tail, head, k)
    requires |dump| == SIZE && forall i | 0 <= i < SIZE :: dump[i] == buf[Position(head, i)]
    ensures IsDump(dump, history)
  {
    var n := |history|;
    RingPositions(buf, tail, history);
    hide Position;
    if n >= SIZE {
      assert buf[Position(tail, 0)] == history[n - SIZE];
      assert k == 0 && head == tail;
      assert forall i | 0 <= i < SIZE :: dump[i] == history[n - SIZE + i];
    } else if n > 0 {
      assert buf[0] == history[0] && Position(tail, SIZE - n) == 0;
      assert forall m | 0 <= m < SIZE - n :: Position(tail, m) == n + m;
      assert k <= SIZE - n;
      assert head == 0;
      assert forall i | 0 <= i < SIZE :: Position(0, i) == i;
    } else {
      assert forall j | 0 <= j < SIZE :: IsEmpty(buf[j]);
    }
  }

  lemma LastPosition(tail: nat, k: nat)
    requires tail < SIZE && k < SIZE && Position(tail, k) == Position(tail, SIZE - 1)
    ensures k == SIZE - 1
  {
  }

  class TraceBuf {
    const buf: array<Entry>
    var tail: nat
    ghost var history: seq<Entry>

    ghost predicate Valid()
      reads this, buf
    {
      Ring(buf[..], tail, history)
    }

    constructor ()
      ensures Valid() && history == [] && fresh(buf)
    {
      tail, history := 0, [];
      buf := new Entry[SIZE](_ => Entry(0, 0, 0, MAX_UINT32));
    }

    method LogMsgEvent(e: Entry)
      requires Valid()
      modifies this, buf
      ensures Valid() && history == old(history) + [e]
    {
      RingGoesOn(buf[..], tail, history, e);
      hide Ring;
      buf[tail] := e;
      tail := (tail + 1) % SIZE;
      history := history + [e];
    }

    method FindHead() returns (head: nat)
      requires Valid()
      ensures exists k: nat :: IsHead(buf[..], tail, head, k)
    {
      head := tail % SIZE;
      ghost var k: nat := 0;
      hide Position, Ring;
      while IsEmpty(buf[head]) && head != Before(tail)
        invariant k < SIZE && head == Position(tail, k)
        invariant forall m | 0 <= m < k :: IsEmpty(buf[Position(tail, m)])
        decreases SIZE - k
      {
        PositionNext(tail, k);
        head := (head + 1) % SIZE;
        k := k + 1;
      }
      assert IsHead(buf[..], tail, head, k);
    }
  }

  /** The loop that copies both rings, each from its head on. */
  method CopyRings(send: array<Entry>, recv: array<Entry>, sendHead: nat, recvHead: nat,
                   sendDump: array<Entry>, recvDump: array<Entry>)
    requires send.Length == SIZE && recv.Length == SIZE && sendHead < SIZE && recvHead < SIZE
    requires sendDump.Length == SIZE && recvDump.Length == SIZE && sendDump != recvDump
    requires {send, recv} !! {sendDump, recvDump}
    modifies sendDump, recvDump
    ensures forall m | 0 <= m < SIZE :: sendDump[m] == send[Position(sendHead, m)]
    ensures forall m | 0 <= m < SIZE :: recvDump[m] == recv[Position(recvHead, m)]
  {
    hide Position;
    for i := 0 to SIZE
      invariant forall m | 0 <= m < i :: sendDump[m] == send[Position(sendHead, m)]
      invariant forall m | 0 <= m < i :: recvDump[m] == recv[Position(recvHead, m)]
    {
      sendDump[i] := send[Position(sendHead, i)];
      recvDump[i] := recv[Position(recvHead, i)];
    }
  }

  method GetTraceBuffers(send: TraceBuf, recv: TraceBuf, sendDump: array<Entry>, recvDump: array<Entry>)
    requires send.Valid() && recv.Valid() && Logged(send.history) && Logged(recv.history)
    requires sendDump.Length == SIZE && recvDump.Length == SIZE && sendDump != recvDump
    requires {send.buf, recv.buf} !! {sendDump, recvDump}
    modifies sendDump, recvDump
    ensures IsDump(sendDump[..], send.history) && IsDump(recvDump[..], recv.history)
  {
    assert send.buf.Length == SIZE && send.tail < SIZE && recv.buf.Length == SIZE && recv.tail < SIZE;
    hide Ring, IsHead, IsDump, Logged, Position;
    var sendHead := send.FindHead();
    var recvHead := recv.FindHead();
    ghost var k: nat :| IsHead(send.buf[..], send.tail, sendHead, k);
    ghost var l: nat :| IsHead(recv.buf[..], recv.tail, recvHead, l);
    CopyRings(send.buf, recv.buf, sendHead, recvHead, sendDump, recvDump);
    DumpIsHistory(send.buf[..], send.tail, send.history, sendHead, k, sendDump[..]);
    DumpIsHistory(recv.buf[..], recv.tail, recv.history, recvHead, l, recvDump[..]);
  }

  // ---- the ColdFire search ----

  /** C's remainder, which takes the sign of the dividend. */
  function Remainder(a: int): int {
    if a >= 0 then a % SIZE else -((-a) % SIZE)
  }

  /** The test of the loop in its k-th round, where uint32_t is a signed type. */
  predicate GoesOn(buf: seq<Entry>, tail: nat, k: nat)
    requires |buf| == SIZE
  {
    IsEmpty(buf[Position(tail, k)]) && Position(tail, k) != Remainder(tail - 1)
  }

  lemma {:induction false} FirstStop(buf: seq<Entry>, tail: nat, limit: nat) returns (k: nat)
    requires |buf| == SIZE && !GoesOn(buf, tail, limit)
    ensures k <= limit && !GoesOn(buf, tail, k) && forall m | 0 <= m < k :: GoesOn(buf, tail, m)
    decreases limit
  {
    k := limit;
    if m :| 0 <= m < limit && !GoesOn(buf, tail, m) {
      k := FirstStop(buf, tail, m);
    }
  }

  /** The signed search ends at k, in the place where the unsigned one ends. */
  ghost predicate EndsAt(buf: seq<Entry>, tail: nat, k: nat)
    requires |buf| == SIZE
  {
    !GoesOn(buf, tail, k) && (forall m | 0 <= m < k :: GoesOn(buf, tail, m)) && IsHead(buf, tail, Position(tail, k), k)
  }

  /** The signed search goes on for ever if and only if nothing has been logged; otherwise it finds the same head. */
  lemma SignedSearchEnds(buf: seq<Entry>, tail: nat, history: seq<Entry>)
    requires Ring(buf, tail, history) && Logged(history)
    ensures history == [] ==> forall k: nat :: GoesOn(buf, tail, k)
    ensures history != [] ==> exists k: nat :: EndsAt(buf, tail, k)
  {
    if history != [] {
      var k := 0;
      if tail > 0 {
        assert Position(tail, SIZE - 1) == tail - 1 == Remainder(tail - 1);
        k := FirstStop(buf, tail, SIZE - 1);
        if IsEmpty(buf[Position(tail, k)]) {
          LastPosition(tail, k);
        }
      } else {
        RingPositions(buf, tail, history);
        assert Position(0, 0) == 0 && !IsEmpty(history[|history| - SIZE]);
        assert !IsEmpty(buf[Position(tail, 0)]);
      }
      assert forall m | 0 <= m < k :: GoesOn(buf, tail, m) && IsEmpty(buf[Position(tail, m)]);
      assert EndsAt(buf, tail, k);
    }
  }
}
