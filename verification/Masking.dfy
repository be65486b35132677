/**
 atomic() and the signal handlers of the Unix kernel (k_atomic.c, k_signal_handler.c, k_process.c), one machine step
 at a time. Every process has a stack of frames: a primitive it has called, and the signal handlers that were
 delivered to it. atomic(ON) and atomic(OFF) each take two steps, because a signal can arrive in between.
 */
module Masking {
  import opened Common

  datatype Signal = ALRM | INT | USR1 | USR2

  /** The signals atomic(ON) blocks. */
  const ALL: set<Signal> := {ALRM, INT, USR1, USR2}

  datatype Pid = User(n: nat) | IProcess(sig: Signal)

  datatype Kind = Primitive | Handler(sig: Signal, saved: set<Signal>)

  /** What a frame does next. Away is a handler whose i-process is running. */
  datatype Pc = CountUp | Block | Body | Away | CountDown | Unblock | Leave

  datatype Frame = Frame(kind: Kind, pc: Pc)

  datatype State = State(
    current: Pid,
    interrupted: Option<Pid>,
    flag: bool,
    mask: set<Signal>,
    oldmask: set<Signal>,
    count: map<Pid, int>,
    stacks: map<Pid, seq<Frame>>)

  datatype Result = Running(s: State) | Terminated | AssertFailed

  datatype Event = Call | Advance | Switch(to: Pid) | Deliver(sig: Signal)

  /** Every process has a count and a stack, and there are the three i-processes and the current process. */
  ghost predicate Formed(s: State) {
    && s.count.Keys == s.stacks.Keys && s.current in s.count
    && (forall sig | sig != INT :: IProcess(sig) in s.count)
    && (s.interrupted.Some? ==> s.interrupted.value in s.count)
  }

  function Stack(s: State): seq<Frame>
    requires s.current in s.stacks
  {
    s.stacks[s.current]
  }

  function Push(s: State, f: Frame): State
    requires s.current in s.stacks
  {
    s.(stacks := s.stacks[s.current := Stack(s) + [f]])
  }

  function Pop(s: State): State
    requires s.current in s.stacks && Stack(s) != []
  {
    s.(stacks := s.stacks[s.current := Stack(s)[..|Stack(s)| - 1]])
  }

  function Top(s: State): Frame
    requires s.current in s.stacks && Stack(s) != []
  {
    Stack(s)[|Stack(s)| - 1]
  }

  function Goto(s: State, pc: Pc): State
    requires s.current in s.stacks && Stack(s) != []
  {
    s.(stacks := s.stacks[s.current := Stack(s)[|Stack(s)| - 1 := Top(s).(pc := pc)]])
  }

  function Counted(s: State, delta: int): State
    requires s.current in s.count
  {
    s.(count := s.count[s.current := s.count[s.current] + delta])
  }

  predicate Enabled(s: State, e: Event)
    requires s.current in s.stacks
  {
    match e
    case Call => s.current.User? && Stack(s) == []
    case Advance => s.current.IProcess? || Stack(s) != []
    case Switch(to) =>
      && s.current.User? && Stack(s) != [] && Top(s) == Frame(Primitive, Body)
      && to.User? && to in s.stacks
    case Deliver(sig) => sig !in s.mask
  }

  /** k_i_process_enter up to its context switch. */
  function Enter(s: State, sig: Signal): Result
    requires Formed(s) && Stack(s) != [] && sig != INT
  {
    if s.flag then AssertFailed
    else Running(Goto(s, Away).(flag := true, interrupted := Some(s.current), current := IProcess(sig)))
  }

  /** k_i_process_exit: the handler that entered the i-process goes on behind k_i_process_enter. */
  function Exit(s: State): Result
    requires Formed(s)
  {
    if !s.flag || s.interrupted.None? then AssertFailed
    else
      var back := s.(flag := false, current := s.interrupted.value, interrupted := None);
      if Stack(back) == [] then AssertFailed else Running(Goto(back, CountDown))
  }

  function AdvanceFrame(s: State): Result
    requires Formed(s) && Stack(s) != []
  {
    var f := Top(s);
    match f.pc
    case CountUp => Running(Goto(Counted(s, 1), Block))
    case Block =>
      Running(Goto(if s.count[s.current] == 1 then s.(oldmask := s.mask, mask := s.mask + ALL) else s, Body))
    case Body =>
      if f.kind.Primitive? then Running(Goto(s, CountDown))
      else if f.kind.sig == INT then Terminated
      else Enter(s, f.kind.sig)
    case Away => Running(s)
    case CountDown =>
      if s.count[s.current] - 1 < 0 then AssertFailed else Running(Goto(Counted(s, -1), Unblock))
    case Unblock =>
      Running(Goto(if s.count[s.current] == 0 then s.(mask := s.oldmask) else s, Leave))
    case Leave =>
      Running(if f.kind.Primitive? then Pop(s) else Pop(s).(mask := f.kind.saved))
  }

  function Next(s: State, e: Event): Result
    requires Formed(s) && Enabled(s, e)
  {
    match e
    case Call => Running(Push(s, Frame(Primitive, CountUp)))
    case Advance => if Stack(s) == [] then Exit(s) else AdvanceFrame(s)
    case Switch(to) => Running(s.(current := to))
    case Deliver(sig) => Running(Push(s, Frame(Handler(sig, s.mask), CountUp)).(mask := s.mask + {sig}))
  }

  // ---- the invariant ----

  /** The user process that is running or interrupted. */
  function InCharge(s: State): Pid {
    if s.current.User? || s.interrupted.None? then s.current else s.interrupted.value
  }

  /** The part of a frame between the end of atomic(ON) and the end of atomic(OFF). */
  predicate Covered(pc: Pc) {
    pc == Body || pc == Away || pc == CountDown || pc == Unblock
  }

  /** The part of a frame in which it is in the process's count. */
  predicate Counts(pc: Pc) {
    pc == Block || pc == Body || pc == Away || pc == CountDown
  }

  function CountOf(stack: seq<Frame>): nat {
    if stack == [] then 0
    else CountOf(stack[..|stack| - 1]) + if Counts(stack[|stack| - 1].pc) then 1 else 0
  }

  /**
   The frame on top came while a frame below it was counted, which was then at its Block. Its own atomic(ON) is not
   the first and its atomic(OFF) not the last, and neither changes the mask.
   */
  predicate Inner(stack: seq<Frame>) {
    stack != [] && CountOf(stack[..|stack| - 1]) > 0
  }

  /** The mask a frame starts with: a handler's own signal is blocked on top of the mask it was delivered in. */
  function BaseMask(stack: seq<Frame>): set<Signal> {
    if stack == [] || stack[|stack| - 1].kind.Primitive? then {}
    else stack[|stack| - 1].kind.saved + {stack[|stack| - 1].kind.sig}
  }

  /** Everything is blocked. */
  predicate TopCovered(stack: seq<Frame>) {
    stack != [] && Covered(stack[|stack| - 1].pc) && !Inner(stack)
  }

  /** Where the frame on top can be when a signal arrives. */
  predicate Interruptible(stack: seq<Frame>) {
    stack == [] || (!TopCovered(stack) && stack[|stack| - 1].pc != Away)
  }

  /** A frame above another one is a handler that came when the one below could be interrupted, and saved its mask. */
  ghost predicate Nested(stack: seq<Frame>) {
    stack == [] ||
    var (below, f) := (stack[..|stack| - 1], stack[|stack| - 1]);
    && Nested(below)
    && (below != [] ==> Interruptible(below) && f.kind.Handler?)
    && (f.kind.Handler? ==> f.kind.saved == BaseMask(below) && f.kind.sig !in BaseMask(below))
  }

  ghost predicate Descheduled(s: State, p: Pid)
    requires p in s.count && p in s.stacks
  {
    s.count[p] == 1 && (s.stacks[p] == [Frame(Primitive, Body)] || s.stacks[p] == [Frame(Primitive, CountDown)])
  }

  /** The user process in charge, whether it is running or interrupted. */
  ghost predicate Fits(mask: set<Signal>, oldmask: set<Signal>, flag: bool, current: Pid, stack: seq<Frame>,
                       count: int) {
    && Nested(stack)
    && count == CountOf(stack)
    && mask == (if TopCovered(stack) then ALL else BaseMask(stack))
    && (TopCovered(stack) ==> oldmask == BaseMask(stack))
    && (flag <==> stack != [] && stack[|stack| - 1].pc == Away)
    && (flag ==> stack[|stack| - 1].kind.Handler? && current == IProcess(stack[|stack| - 1].kind.sig))
  }

  ghost predicate ChargeFits(s: State, stack: seq<Frame>, count: int) {
    Fits(s.mask, s.oldmask, s.flag, s.current, stack, count)
  }

  ghost predicate OthersWait(s: State)
    requires Formed(s)
  {
    && (forall p | p in s.count && p.IProcess? :: s.count[p] == 0 && s.stacks[p] == [])
    && (forall p | p in s.count && p.User? && p != InCharge(s) :: Descheduled(s, p))
  }

  /** What holds as long as no signal is delivered to an i-process. */
  ghost predicate Sound(s: State) {
    && Formed(s) && InCharge(s).User?
    && (s.flag <==> s.current.IProcess?) && (s.flag <==> s.interrupted.Some?)
    && OthersWait(s)
    && ChargeFits(s, s.stacks[InCharge(s)], s.count[InCharge(s)])
  }

  /** Besides, no frame has been interrupted in its window. */
  ghost predicate Good(s: State) {
    Sound(s) && !Inner(s.stacks[InCharge(s)])
  }

  /** Between the count and the sigprocmask call of atomic(ON). */
  predicate InWindow(s: State)
    requires s.current in s.stacks
  {
    Stack(s) != [] && Top(s).pc == Block
  }

  function WithTop(stack: seq<Frame>, pc: Pc): seq<Frame>
    requires stack != []
  {
    stack[|stack| - 1 := stack[|stack| - 1].(pc := pc)]
  }

  /** A frame on top that changes its pc changes nothing but its own part of the count. */
  lemma TopMoves(stack: seq<Frame>, pc: Pc)
    requires Nested(stack) && stack != []
    ensures
      var (other, f) := (WithTop(stack, pc), stack[|stack| - 1]);
      && Nested(other) && |other| == |stack| && other[|other| - 1] == f.(pc := pc)
      && BaseMask(other) == BaseMask(stack) && Inner(other) == Inner(stack)
      && CountOf(other) - (if Counts(pc) then 1 else 0) == CountOf(stack) - (if Counts(f.pc) then 1 else 0)
    ensures
      var below := CountOf(stack) - if Counts(stack[|stack| - 1].pc) then 1 else 0;
      below >= 0 && (below > 0 <==> Inner(stack))
  {
    assert WithTop(stack, pc)[..|stack| - 1] == stack[..|stack| - 1];
  }

  lemma PushNested(stack: seq<Frame>, f: Frame)
    requires Nested(stack) && Interruptible(stack) && f.pc == CountUp
    requires if f.kind.Handler? then f.kind.saved == BaseMask(stack) && f.kind.sig !in BaseMask(stack) else stack == []
    ensures Nested(stack + [f]) && (stack + [f])[|stack|] == f && CountOf(stack + [f]) == CountOf(stack)
    ensures BaseMask(stack + [f]) == if f.kind.Primitive? then {} else f.kind.saved + {f.kind.sig}
    ensures Inner(stack + [f]) <==> CountOf(stack) > 0
  {
    assert (stack + [f])[..|stack|] == stack;
  }

  lemma AllSignals(m: set<Signal>)
    ensures m <= ALL && m + ALL == ALL
  {
    forall sig: Signal
      ensures sig in ALL
    {
      match sig case ALRM => case INT => case USR1 => case USR2 =>
    }
  }

  ghost predicate OnlyChargeMoves(s: State, s': State) {
    && s'.count.Keys == s.count.Keys && s'.stacks.Keys == s.stacks.Keys
    && InCharge(s') == InCharge(s) && s'.current in s'.count
    && (s'.flag <==> s'.current.IProcess?) && (s'.flag <==> s'.interrupted.Some?)
    && (forall p | p in s.count && p in s.stacks && p != InCharge(s) ::
          s'.count[p] == s.count[p] && s'.stacks[p] == s.stacks[p])
  }

  lemma OnlyChargeMovesKeeps(s: State, s': State)
    requires Sound(s) && OnlyChargeMoves(s, s')
    requires ChargeFits(s', s'.stacks[InCharge(s)], s'.count[InCharge(s)])
    ensures Sound(s')
  {
    hide ChargeFits;
  }

  lemma GotoIs(s: State, pc: Pc)
    requires s.current in s.stacks && Stack(s) != []
    ensures Goto(s, pc) == s.(stacks := s.stacks[s.current := WithTop(Stack(s), pc)])
  {
  }

  lemma SoundHasStack(s: State)
    requires Sound(s)
    ensures InCharge(s) in s.stacks && InCharge(s) in s.count
  {
  }

  lemma SoundWhileUserRuns(s: State)
    requires Sound(s) && s.current.User?
    ensures Formed(s) && s.count.Keys == s.stacks.Keys && s.current in s.stacks
    ensures !s.flag && s.interrupted.None? && InCharge(s) == s.current
    ensures ChargeFits(s, Stack(s), s.count[s.current])
    ensures forall sig | sig != INT :: IProcess(sig) in s.count
  {
  }

  lemma AdvanceBlocks(s: State)
    requires Sound(s) && s.current.User? && Stack(s) != [] && Top(s).pc == Block
    ensures AdvanceFrame(s).Running? && Sound(AdvanceFrame(s).s)
    ensures AdvanceFrame(s).s.current == s.current && Stack(AdvanceFrame(s).s) == WithTop(Stack(s), Body)
  {
    hide Sound, Formed, Nested, BaseMask, Inner, CountOf;
    SoundWhileUserRuns(s);
    AllSignals(s.mask);
    TopMoves(Stack(s), Body);
    GotoIs(s, Body);
    GotoIs(s.(oldmask := s.mask, mask := s.mask + ALL), Body);
    OnlyChargeMovesKeeps(s, AdvanceFrame(s).s);
  }

  lemma AdvanceUnblocks(s: State)
    requires Sound(s) && s.current.User? && Stack(s) != [] && Top(s).pc == Unblock
    ensures AdvanceFrame(s).Running? && Sound(AdvanceFrame(s).s)
    ensures AdvanceFrame(s).s.current == s.current && Stack(AdvanceFrame(s).s) == WithTop(Stack(s), Leave)
  {
    hide Sound, Formed, Nested, BaseMask, Inner, CountOf;
    SoundWhileUserRuns(s);
    TopMoves(Stack(s), Leave);
    GotoIs(s, Leave);
    GotoIs(s.(mask := s.oldmask), Leave);
    OnlyChargeMovesKeeps(s, AdvanceFrame(s).s);
  }

  /** A step of the frame on top that changes no mask. */
  lemma AdvanceStays(s: State, pc: Pc, delta: int)
    requires Sound(s) && s.current.User? && Stack(s) != [] && Top(s).pc != Away && pc != Away
    requires Covered(pc) == Covered(Top(s).pc)
    requires delta == (if Counts(pc) then 1 else 0) - if Counts(Top(s).pc) then 1 else 0
    ensures Sound(Goto(Counted(s, delta), pc))
    ensures Goto(Counted(s, delta), pc).current == s.current
    ensures Stack(Goto(Counted(s, delta), pc)) == WithTop(Stack(s), pc)
  {
    hide Sound, Formed, Nested, BaseMask, Inner, CountOf;
    SoundWhileUserRuns(s);
    TopMoves(Stack(s), pc);
    GotoIs(Counted(s, delta), pc);
    OnlyChargeMovesKeeps(s, Goto(Counted(s, delta), pc));
  }

  lemma AdvanceEnters(s: State)
    requires Sound(s) && s.current.User? && Stack(s) != [] && Top(s).pc == Body && Top(s).kind.Handler?
    requires Top(s).kind.sig != INT
    ensures AdvanceFrame(s).Running? && Sound(AdvanceFrame(s).s)
    ensures InCharge(AdvanceFrame(s).s) == s.current && AdvanceFrame(s).s.stacks[s.current] == WithTop(Stack(s), Away)
  {
    hide Sound, Formed, Nested, BaseMask, Inner, CountOf;
    SoundWhileUserRuns(s);
    TopMoves(Stack(s), Away);
    GotoIs(s, Away);
    OnlyChargeMovesKeeps(s, AdvanceFrame(s).s);
  }

  lemma PopFits(mask: set<Signal>, oldmask: set<Signal>, current: Pid, stack: seq<Frame>, count: int)
    requires Fits(mask, oldmask, false, current, stack, count) && stack != [] && stack[|stack| - 1].pc == Leave
    ensures
      var (below, kind) := (stack[..|stack| - 1], stack[|stack| - 1].kind);
      && Fits(if kind.Primitive? then mask else kind.saved, oldmask, false, current, below, count)
      && (Inner(below) ==> Inner(stack))
  {
  }

  lemma AdvanceLeaves(s: State)
    requires Sound(s) && s.current.User? && Stack(s) != [] && Top(s).pc == Leave
    ensures AdvanceFrame(s).Running? && Sound(AdvanceFrame(s).s)
    ensures AdvanceFrame(s).s.current == s.current && Stack(AdvanceFrame(s).s) == Stack(s)[..|Stack(s)| - 1]
  {
    hide Sound, Formed, Fits;
    SoundWhileUserRuns(s);
    PopFits(s.mask, s.oldmask, s.current, Stack(s), s.count[s.current]);
    OnlyChargeMovesKeeps(s, AdvanceFrame(s).s);
  }

  lemma SoundWhileIProcessRuns(s: State)
    requires Sound(s) && s.current.IProcess?
    ensures Formed(s) && s.count.Keys == s.stacks.Keys && Stack(s) == []
    ensures s.flag && s.interrupted.Some? && s.interrupted.value.User? && s.interrupted.value in s.count
    ensures InCharge(s) == s.interrupted.value && ChargeFits(s, s.stacks[InCharge(s)], s.count[InCharge(s)])
  {
    hide Fits;
  }

  lemma AdvanceExits(s: State)
    requires Sound(s) && s.current.IProcess?
    ensures InCharge(s) in s.stacks && s.stacks[InCharge(s)] != []
    ensures Next(s, Advance).Running? && Sound(Next(s, Advance).s)
    ensures
      var s' := Next(s, Advance).s;
      s'.current == InCharge(s) && s'.stacks[InCharge(s)] == WithTop(s.stacks[InCharge(s)], CountDown)
  {
    hide Sound, Formed, Nested, BaseMask, Inner, CountOf, Goto;
    SoundWhileIProcessRuns(s);
    TopMoves(s.stacks[InCharge(s)], CountDown);
    GotoIs(s.(flag := false, current := s.interrupted.value, interrupted := None), CountDown);
    OnlyChargeMovesKeeps(s, Next(s, Advance).s);
  }

  lemma SwitchKeepsSound(s: State, to: Pid)
    requires Sound(s) && Enabled(s, Switch(to))
    ensures Sound(Next(s, Switch(to)).s) && !Inner(Stack(s)) && |s.stacks[to]| == 1
  {
    assert Stack(s) == [Frame(Primitive, Body)];
    assert CountOf(Stack(s)[..0]) == 0;
    if to != s.current {
      assert Descheduled(s, to) && s.stacks[to][..0] == [];
    }
  }

  lemma NotCovered(mask: set<Signal>, oldmask: set<Signal>, current: Pid, stack: seq<Frame>, count: int, sig: Signal)
    requires Fits(mask, oldmask, false, current, stack, count) && sig !in mask
    ensures Interruptible(stack) && mask == BaseMask(stack)
  {
    hide Nested, CountOf, Inner;
    AllSignals({sig});
    assert sig in ALL;
  }

  lemma DeliverFits(mask: set<Signal>, oldmask: set<Signal>, current: Pid, stack: seq<Frame>, count: int, sig: Signal)
    requires Fits(mask, oldmask, false, current, stack, count) && sig !in mask
    ensures Fits(mask + {sig}, oldmask, false, current, stack + [Frame(Handler(sig, mask), CountUp)], count)
    ensures Inner(stack + [Frame(Handler(sig, mask), CountUp)]) <==> CountOf(stack) > 0
  {
    hide Nested, BaseMask, CountOf, Inner, Interruptible;
    NotCovered(mask, oldmask, current, stack, count, sig);
    PushNested(stack, Frame(Handler(sig, mask), CountUp));
  }

  lemma DeliverKeepsSound(s: State, sig: Signal)
    requires Sound(s) && s.current.User? && sig !in s.mask
    ensures Sound(Next(s, Deliver(sig)).s) && Interruptible(Stack(s))
    ensures
      var s' := Next(s, Deliver(sig)).s;
      s'.current == s.current && (Inner(Stack(s')) <==> CountOf(Stack(s)) > 0)
  {
    hide Sound, Formed, Fits, Inner, CountOf, Interruptible;
    SoundWhileUserRuns(s);
    NotCovered(s.mask, s.oldmask, s.current, Stack(s), s.count[s.current], sig);
    DeliverFits(s.mask, s.oldmask, s.current, Stack(s), s.count[s.current], sig);
    OnlyChargeMovesKeeps(s, Next(s, Deliver(sig)).s);
  }

  lemma CallKeepsSound(s: State)
    requires Sound(s) && Enabled(s, Call)
    ensures Sound(Next(s, Call).s) && !Inner(Stack(Next(s, Call).s))
  {
    hide Sound, Formed, Nested, CountOf, Inner;
    SoundWhileUserRuns(s);
    NothingCounted();
    PushNested(Stack(s), Frame(Primitive, CountUp));
    OnlyChargeMovesKeeps(s, Next(s, Call).s);
  }

  lemma NothingCounted()
    ensures CountOf([]) == 0 && Nested([])
  {
  }

  /** As long as no signal is delivered to an i-process, no assertion fails and everything fits. */
  lemma NextKeepsSound(s: State, e: Event)
    requires Sound(s) && Enabled(s, e) && (e.Deliver? ==> s.current.User?)
    ensures Next(s, e) != AssertFailed
    ensures Next(s, e).Running? ==> Sound(Next(s, e).s)
  {
    hide Sound, Goto, Counted;
    match e
    case Call => CallKeepsSound(s);
    case Switch(to) => SwitchKeepsSound(s, to);
    case Deliver(sig) => DeliverKeepsSound(s, sig);
    case Advance => AdvanceKeepsSound(s);
  }

  lemma InnerStays(stack: seq<Frame>, pc: Pc)
    requires stack != []
    ensures Inner(WithTop(stack, pc)) == Inner(stack)
  {
    assert WithTop(stack, pc)[..|stack| - 1] == stack[..|stack| - 1];
  }

  lemma InnerAfterPop(stack: seq<Frame>)
    requires stack != [] && Inner(stack[..|stack| - 1])
    ensures Inner(stack)
  {
    var below := stack[..|stack| - 1];
    assert CountOf(below) >= CountOf(below[..|below| - 1]);
  }

  /** Frames that were interrupted outside their windows stay so. */
  ghost predicate KeepsOut(s: State, s': State)
    requires InCharge(s) in s.stacks
  {
    InCharge(s') in s'.stacks && (Inner(s'.stacks[InCharge(s')]) ==> Inner(s.stacks[InCharge(s)]))
  }

  lemma TopKeepsSound(s: State)
    requires Sound(s) && s.current.User? && Stack(s) != []
    ensures AdvanceFrame(s) != AssertFailed
    ensures AdvanceFrame(s).Running? ==> Sound(AdvanceFrame(s).s) && KeepsOut(s, AdvanceFrame(s).s)
  {
    hide Sound, Formed, Fits, Inner, CountOf, Goto, Counted;
    SoundWhileUserRuns(s);
    StepOfTop(s);
    if AdvanceFrame(s).Running? {
      SoundHasStack(AdvanceFrame(s).s);
    }
  }

  lemma StepOfTop(s: State)
    requires Sound(s) && s.current.User? && s.current in s.stacks && Stack(s) != []
    ensures AdvanceFrame(s) != AssertFailed
    ensures AdvanceFrame(s).Running? ==>
      var s' := AdvanceFrame(s).s;
      Sound(s') && InCharge(s') == s.current && s.current in s'.stacks
      && (Inner(s'.stacks[s.current]) ==> Inner(Stack(s)))
  {
    hide Sound, Formed, Fits, Inner, CountOf, Goto, Counted;
    SoundWhileUserRuns(s);
    match Top(s).pc {
      case CountUp =>
        AdvanceStays(s, Block, 1);
        InnerStays(Stack(s), Block);
      case Block =>
        AdvanceBlocks(s);
        InnerStays(Stack(s), Body);
      case Body =>
        if Top(s).kind.Primitive? {
          CountedNothing(s);
          AdvanceStays(s, CountDown, 0);
          InnerStays(Stack(s), CountDown);
        } else if Top(s).kind.sig != INT {
          AdvanceEnters(s);
          InnerStays(Stack(s), Away);
        }
      case Away =>
        NotAway(s);
      case CountDown =>
        CountIsPositive(s);
        AdvanceStays(s, Unblock, -1);
        InnerStays(Stack(s), Unblock);
      case Unblock =>
        AdvanceUnblocks(s);
        InnerStays(Stack(s), Leave);
      case Leave =>
        AdvanceLeaves(s);
        if Inner(Stack(s)[..|Stack(s)| - 1]) {
          InnerAfterPop(Stack(s));
        }
    }
    if AdvanceFrame(s).Running? {
      SoundHasStack(AdvanceFrame(s).s);
    }
  }

  lemma CountedNothing(s: State)
    requires s.current in s.count
    ensures Counted(s, 0) == s
  {
  }

  lemma NotAway(s: State)
    requires Sound(s) && s.current.User? && Stack(s) != []
    ensures Top(s).pc != Away
  {
    hide Nested, CountOf, Inner, OthersWait;
  }

  lemma CountIsPositive(s: State)
    requires Sound(s) && s.current.User? && Stack(s) != [] && Counts(Top(s).pc)
    ensures s.count[s.current] > 0
  {
    hide Nested, Inner, OthersWait;
  }

  lemma AdvanceKeepsSound(s: State)
    requires Sound(s) && Enabled(s, Advance)
    ensures Next(s, Advance) != AssertFailed
    ensures Next(s, Advance).Running? ==> Sound(Next(s, Advance).s) && KeepsOut(s, Next(s, Advance).s)
  {
    hide Sound, Formed, Fits, Inner, CountOf, Goto, Counted;
    if s.current.IProcess? {
      SoundWhileIProcessRuns(s);
      AdvanceExits(s);
      SoundHasStack(Next(s, Advance).s);
      assert InCharge(Next(s, Advance).s) == InCharge(s);
      InnerStays(s.stacks[InCharge(s)], CountDown);
    } else {
      SoundWhileUserRuns(s);
      TopKeepsSound(s);
    }
  }

  // ---- states without an interrupted window ----

  lemma IProcessBlocksAll(s: State, sig: Signal)
    requires Good(s) && s.current.IProcess?
    ensures sig in s.mask
  {
    AllSignals({sig});
    hide Formed, OthersWait, Nested, CountOf;
  }

  lemma OutsideWindow(s: State, sig: Signal)
    requires Good(s) && s.current.User? && sig !in s.mask
    ensures CountOf(Stack(s)) > 0 <==> InWindow(s)
  {
    SoundWhileUserRuns(s);
    NotCovered(s.mask, s.oldmask, s.current, Stack(s), s.count[s.current], sig);
  }

  /** As long as no signal arrives inside the window, no frame is interrupted there. */
  lemma NextKeepsGood(s: State, e: Event)
    requires Good(s) && Enabled(s, e) && (e.Deliver? ==> !InWindow(s))
    ensures e.Deliver? ==> s.current.User?
    ensures Next(s, e) != AssertFailed
    ensures Next(s, e).Running? ==> Good(Next(s, e).s)
  {
    hide Sound, Formed, Goto, Counted, Inner, CountOf;
    match e
    case Call => CallKeepsSound(s);
    case Switch(to) =>
      SwitchKeepsSound(s, to);
      OneFrameIsNotInner(s.stacks[to]);
    case Deliver(sig) =>
      if s.current.IProcess? {
        IProcessBlocksAll(s, sig);
      } else {
        OutsideWindow(s, sig);
        DeliverKeepsSound(s, sig);
      }
    case Advance => AdvanceKeepsSound(s);
  }

  lemma OneFrameIsNotInner(stack: seq<Frame>)
    requires |stack| == 1
    ensures !Inner(stack)
  {
    assert stack[..0] == [];
  }

  lemma WindowIsOfUser(s: State)
    requires Sound(s) && s.current in s.stacks && InWindow(s)
    ensures s.current.User?
  {
  }

  /** The exact condition: the only step out of the good states is a delivery inside the window. */
  lemma OnlyTheWindowIsBad(s: State, e: Event)
    requires Good(s) && Enabled(s, e) && Next(s, e).Running?
    ensures Good(Next(s, e).s) <==> !(e.Deliver? && InWindow(s))
  {
    assert s.current in s.stacks;
    hide Sound, Formed, Goto, Counted, Inner, CountOf;
    if e.Deliver? && InWindow(s) {
      WindowIsOfUser(s);
      OutsideWindow(s, e.sig);
      DeliverKeepsSound(s, e.sig);
    } else {
      NextKeepsGood(s, e);
    }
  }

  // ---- what the masks say ----

  ghost predicate HandlerFor(stack: seq<Frame>, sig: Signal) {
    exists i | 0 <= i < |stack| :: stack[i].kind.Handler? && stack[i].kind.sig == sig
  }

  lemma HandlerAtTop(stack: seq<Frame>, sig: Signal)
    requires stack != []
    ensures
      var (below, kind) := (stack[..|stack| - 1], stack[|stack| - 1].kind);
      HandlerFor(stack, sig) <==> HandlerFor(below, sig) || (kind.Handler? && kind.sig == sig)
  {
    var below := stack[..|stack| - 1];
    if i :| 0 <= i < |stack| && stack[i].kind.Handler? && stack[i].kind.sig == sig && i < |stack| - 1 {
      assert below[i].kind.sig == sig;
    }
  }

  lemma {:induction false} BaseMaskIsHandlers(stack: seq<Frame>, sig: Signal)
    requires Nested(stack)
    ensures sig in BaseMask(stack) <==> HandlerFor(stack, sig)
    decreases |stack|
  {
    if stack != [] {
      HandlerAtTop(stack, sig);
      hide HandlerFor;
      BaseMaskIsHandlers(stack[..|stack| - 1], sig);
      NoHandlerIn([], sig);
    }
  }

  lemma NoHandlerIn(stack: seq<Frame>, sig: Signal)
    requires stack == []
    ensures !HandlerFor(stack, sig)
  {
  }

  /**
   While a user process runs: a signal is blocked if its handler has not returned, and all are when the count is
   positive, but for the two points at which the sigprocmask call that belongs to the count is still to come.
   A process that waits has count 1.
   */
  lemma CountTellsMask(s: State, sig: Signal)
    requires Good(s) && s.current.User?
    ensures
      var allBlocked :=
        if Stack(s) != [] && Top(s).pc == Block then false
        else if Stack(s) != [] && Top(s).pc == Unblock then true
        else s.count[s.current] > 0;
      sig in s.mask <==> allBlocked || HandlerFor(Stack(s), sig)
    ensures s.count[s.current] <= 1
    ensures forall p | p in s.count && p.User? && p != s.current :: s.count[p] == 1
  {
    BaseMaskIsHandlers(Stack(s), sig);
    AllSignals({sig});
    hide Nested, HandlerFor;
  }

  /** An i-process can be interrupted if and only if the process below it was interrupted in its window. */
  lemma IProcessIsOpen(s: State, sig: Signal)
    requires Sound(s) && s.current.IProcess?
    ensures InCharge(s) in s.stacks
    ensures Enabled(s, Deliver(sig)) <==> Inner(s.stacks[InCharge(s)]) && !HandlerFor(s.stacks[InCharge(s)], sig)
  {
    SoundWhileIProcessRuns(s);
    BaseMaskIsHandlers(s.stacks[InCharge(s)], sig);
    AllSignals({sig});
    hide Nested, HandlerFor, Inner, OthersWait;
  }

  /** Without an interrupted window nothing but its own steps can happen to an i-process. */
  lemma IProcessIsAlone(s: State)
    requires Good(s) && s.current.IProcess?
    ensures forall e | Enabled(s, e) :: e == Advance
    ensures s.interrupted.Some? && s.interrupted.value.User? && s.count[s.interrupted.value] == 1
    ensures Next(s, Advance).Running? && Next(s, Advance).s.current == s.interrupted.value
  {
    forall sig: Signal
      ensures sig in s.mask
    {
      IProcessBlocksAll(s, sig);
    }
    SoundWhileIProcessRuns(s);
    AdvanceExits(s);
  }

  lemma {:induction false} NestedIsShallow(stack: seq<Frame>)
    requires Nested(stack)
    ensures |stack| <= |BaseMask(stack)| + 1
    decreases |stack|
  {
    if stack != [] {
      NestedIsShallow(stack[..|stack| - 1]);
    }
  }

  ghost predicate Distinct(stack: seq<Frame>) {
    forall i, j | 0 <= i < j < |stack| && stack[i].kind.Handler? && stack[j].kind.Handler? ::
      stack[i].kind.sig != stack[j].kind.sig
  }

  lemma {:induction false} NestedIsDistinct(stack: seq<Frame>)
    requires Nested(stack)
    ensures Distinct(stack)
    decreases |stack|
  {
    if stack != [] {
      var below, kind := stack[..|stack| - 1], stack[|stack| - 1].kind;
      NestedIsDistinct(below);
      if kind.Handler? {
        BaseMaskIsHandlers(below, kind.sig);
        assert forall i | 0 <= i < |below| && below[i].kind.Handler? :: below[i].kind.sig != kind.sig;
      }
    }
  }

  lemma MaskSize(mask: set<Signal>)
    ensures |mask| <= 4
  {
    AllSignals(mask);
    SubsetSize(mask, ALL);
  }

  lemma {:induction false} SubsetSize<T>(a: set<T>, b: set<T>)
    requires a <= b
    ensures |a| <= |b|
    decreases a
  {
    if x :| x in a {
      SubsetSize(a - {x}, b - {x});
    }
  }

  // ---- signals to an i-process ----

  /** The i-process has a handler on top of it that has not got to k_i_process_enter. */
  ghost predicate Doomed(s: State) {
    && Formed(s) && s.count.Keys == s.stacks.Keys && s.current.IProcess? && s.flag
    && Stack(s) != [] && Top(s).kind.Handler?
    && (Top(s).pc == CountUp || Top(s).pc == Block || Top(s).pc == Body)
  }

  /** An upper bound on the steps that are left. */
  function StepsLeft(s: State): nat
    requires s.current in s.stacks && Stack(s) != []
  {
    4 * |ALL - s.mask| + match Top(s).pc case CountUp => 3 case Block => 2 case _ => 1
  }

  lemma FewerSignals(mask: set<Signal>, more: set<Signal>)
    requires mask <= more
    ensures |ALL - more| <= |ALL - mask| <= 4
    ensures mask != more ==> |ALL - more| < |ALL - mask|
  {
    AllSignals(more);
    SubsetSize(ALL - more, ALL - mask);
    SubsetSize(ALL - mask, ALL);
    if x :| x in more && x !in mask {
      SubsetSize(ALL - more, ALL - mask - {x});
    }
  }

  /** From there on nothing returns: another handler comes on top, or the one on top gets to an end of the program. */
  lemma DoomedStep(s: State, e: Event)
    requires Doomed(s) && Enabled(s, e)
    ensures match Next(s, e)
      case AssertFailed => e == Advance && Top(s).kind.sig != INT
      case Terminated => e == Advance && Top(s).kind.sig == INT
      case Running(s') => Doomed(s') && s'.current == s.current && StepsLeft(s') < StepsLeft(s)
  {
    if e.Deliver? {
      DoomedDelivery(s, e.sig);
    } else {
      assert e == Advance;
      DoomedAdvance(s);
    }
  }

  lemma DoomedDelivery(s: State, sig: Signal)
    requires Doomed(s) && sig !in s.mask
    ensures var s' := Next(s, Deliver(sig)).s; Doomed(s') && s'.current == s.current && StepsLeft(s') < StepsLeft(s)
  {
    FewerSignals(s.mask, s.mask + {sig});
    var s' := Next(s, Deliver(sig)).s;
    assert Stack(s')[|Stack(s')| - 1] == Frame(Handler(sig, s.mask), CountUp);
  }

  lemma DoomedAdvance(s: State)
    requires Doomed(s)
    ensures match Next(s, Advance)
      case AssertFailed => Top(s).kind.sig != INT
      case Terminated => Top(s).kind.sig == INT
      case Running(s') => Doomed(s') && s'.current == s.current && StepsLeft(s') < StepsLeft(s)
  {
    FewerSignals(s.mask, s.mask + ALL);
    FewerSignals(s.mask, s.mask);
  }

  lemma SignalDooms(s: State, sig: Signal)
    requires Sound(s) && s.current.IProcess? && Enabled(s, Deliver(sig))
    ensures Doomed(Next(s, Deliver(sig)).s)
  {
    hide Fits;
    SoundWhileIProcessRuns(s);
  }

  // ---- whole runs ----

  ghost predicate Run(states: seq<State>, events: seq<Event>) {
    && |states| == |events| + 1
    && forall i | 0 <= i < |events| ::
      Formed(states[i]) && Enabled(states[i], events[i]) && Next(states[i], events[i]) == Running(states[i + 1])
  }

  ghost predicate NoneInWindow(states: seq<State>, events: seq<Event>)
    requires Run(states, events)
  {
    forall i | 0 <= i < |events| :: events[i].Deliver? ==> !InWindow(states[i])
  }

  /** Step i delivers a signal while an i-process runs. */
  ghost predicate ToIProcess(states: seq<State>, events: seq<Event>, i: nat)
    requires i < |events| && i < |states|
  {
    events[i].Deliver? && states[i].current.IProcess?
  }

  /** Before step n no signal was delivered while an i-process ran. */
  ghost predicate NoneToIProcess(states: seq<State>, events: seq<Event>, n: nat)
    requires n <= |events| && n <= |states|
  {
    forall i | 0 <= i < n :: !ToIProcess(states, events, i)
  }

  /** The first process has been through its first atomic(OFF); the others will start with theirs. */
  function Boot(users: set<nat>, first: nat): State {
    var pids := (set n | n in users :: User(n)) + {IProcess(ALRM), IProcess(USR1), IProcess(USR2)};
    State(User(first), None, false, {}, {},
      map p | p in pids :: if p.IProcess? || p == User(first) then 0 else 1,
      map p | p in pids :: if p.IProcess? || p == User(first) then [] else [Frame(Primitive, CountDown)])
  }

  lemma BootIsGood(users: set<nat>, first: nat)
    requires first in users
    ensures Good(Boot(users, first))
  {
    var s := Boot(users, first);
    forall sig: Signal | sig != INT
      ensures IProcess(sig) in s.count
    {
      match sig case ALRM => case USR1 => case USR2 =>
    }
  }

  ghost predicate BootedRun(users: set<nat>, first: nat, states: seq<State>, events: seq<Event>) {
    first in users && Run(states, events) && states[0] == Boot(users, first)
  }

  lemma {:induction false} RunStaysGood(states: seq<State>, events: seq<Event>, i: nat)
    requires Run(states, events) && Good(states[0]) && NoneInWindow(states, events) && i <= |events|
    ensures Good(states[i]) && NoneToIProcess(states, events, i)
    decreases i
  {
    if i > 0 {
      hide Good, Formed, Enabled, Next;
      RunStaysGood(states, events, i - 1);
      NextKeepsGood(states[i - 1], events[i - 1]);
    }
  }

  /** Every state of a run is sound up to the first signal to an i-process, and doomed from it on. */
  lemma {:induction false} RunDivides(states: seq<State>, events: seq<Event>, n: nat)
    requires Run(states, events) && Sound(states[0]) && n <= |events|
    ensures if NoneToIProcess(states, events, n) then Sound(states[n]) else Doomed(states[n])
    decreases n
  {
    if n > 0 {
      hide Sound, Doomed, Formed, Enabled, Next;
      RunDivides(states, events, n - 1);
      var s, e := states[n - 1], events[n - 1];
      if !NoneToIProcess(states, events, n - 1) {
        DoomedStep(s, e);
      } else if ToIProcess(states, events, n - 1) {
        SignalDooms(s, e.sig);
      } else {
        NextKeepsSound(s, e);
      }
    }
  }

  /**
   In a run in which no signal is delivered while an i-process runs, wherever else signals come, no assertion fails, and
   an i-process is entered only when none runs and the slot is free.
   */
  lemma RunIsSafe(users: set<nat>, first: nat, states: seq<State>, events: seq<Event>, e: Event)
    requires BootedRun(users, first, states, events) && NoneToIProcess(states, events, |events|)
    requires
      var s := states[|events|];
      Formed(s) && Enabled(s, e) && (e.Deliver? ==> s.current.User?)
    ensures
      var (s, r) := (states[|events|], Next(states[|events|], e));
      && Sound(s) && r != AssertFailed
      && (r.Running? && r.s.current.IProcess? && s.current.User? ==> !s.flag && s.interrupted.None?)
  {
    hide Sound, Formed, Next;
    BootIsGood(users, first);
    RunDivides(states, events, |events|);
    NextKeepsSound(states[|events|], e);
    if states[|events|].current.User? {
      SoundWhileUserRuns(states[|events|]);
    }
  }

  /**
   Once a signal has been delivered while an i-process ran, the i-process never goes on: within twenty steps the run
   ends, by the assertion, or by the handler of SIGINT.
   */
  lemma SignalToIProcessIsFatal(users: set<nat>, first: nat, states: seq<State>, events: seq<Event>, i: nat, e: Event)
    requires BootedRun(users, first, states, events) && i < |events| && ToIProcess(states, events, i)
    requires Formed(states[|events|]) && Enabled(states[|events|], e)
    ensures forall j | i < j <= |events| :: Doomed(states[j]) && states[j].current == states[i].current
    ensures Doomed(states[|events|]) && |events| - i <= 20
    ensures match Next(states[|events|], e)
      case AssertFailed => Top(states[|events|]).kind.sig != INT
      case Terminated => Top(states[|events|]).kind.sig == INT
      case Running(s') => Doomed(s') && s'.current == states[i].current && |events| - i < 20
  {
    hide Good, Sound, Formed, Enabled, StepsLeft;
    BootIsGood(users, first);
    GoodIsSound(states[0]);
    assert states[i + 1].current == states[i].current;
    hide Next, Doomed;
    RunDivides(states, events, i + 1);
    forall j | i < j <= |events|
      ensures Doomed(states[j]) && states[j].current == states[i].current
    {
      DoomedSince(states, events, i + 1, j);
    }
    DoomedSince(states, events, i + 1, |events|);
    DoomedStep(states[|events|], e);
  }

  lemma GoodIsSound(s: State)
    requires Good(s)
    ensures Sound(s)
  {
  }

  lemma {:induction false} DoomedSince(states: seq<State>, events: seq<Event>, i: nat, n: nat)
    requires Run(states, events) && i <= n <= |events| && Doomed(states[i])
    ensures Doomed(states[n]) && states[n].current == states[i].current
    ensures StepsLeft(states[n]) + n - i <= StepsLeft(states[i]) <= 19
    decreases n
  {
    FewerSignals({}, states[i].mask);
    if n > i {
      DoomedSince(states, events, i, n - 1);
      hide Doomed, Formed, Enabled, Next, StepsLeft;
      DoomedStep(states[n - 1], events[n - 1]);
    }
  }

  /** So the assertion fails only after such a signal. */
  lemma FailsOnlyAfterSignalToIProcess(
    users: set<nat>, first: nat, states: seq<State>, events: seq<Event>, e: Event)
    requires BootedRun(users, first, states, events)
    requires Formed(states[|events|]) && Enabled(states[|events|], e) && Next(states[|events|], e) == AssertFailed
    ensures exists i | 0 <= i < |events| :: ToIProcess(states, events, i)
  {
    hide Sound, Formed, Next;
    BootIsGood(users, first);
    RunDivides(states, events, |events|);
    if NoneToIProcess(states, events, |events|) {
      if e.Deliver? {
        DeliveryDoesNotFail(states[|events|], e);
      } else {
        NextKeepsSound(states[|events|], e);
      }
    }
  }

  lemma DeliveryDoesNotFail(s: State, e: Event)
    requires Formed(s) && Enabled(s, e) && e.Deliver?
    ensures Next(s, e) != AssertFailed
  {
  }

  /** In a run without a signal in a window none comes to an i-process. */
  lemma WindowsComeFirst(users: set<nat>, first: nat, states: seq<State>, events: seq<Event>)
    requires BootedRun(users, first, states, events) && NoneInWindow(states, events)
    ensures NoneToIProcess(states, events, |events|) && Good(states[|events|])
  {
    hide Good;
    BootIsGood(users, first);
    RunStaysGood(states, events, |events|);
  }

  /** At every moment of a safe run at most five frames are stacked, and no two handlers are for the same signal. */
  lemma StacksAreShallow(users: set<nat>, first: nat, states: seq<State>, events: seq<Event>)
    requires BootedRun(users, first, states, events) && NoneToIProcess(states, events, |events|)
    ensures
      var s := states[|events|];
      InCharge(s) in s.stacks
      && |s.stacks[InCharge(s)]| <= 5 && Distinct(s.stacks[InCharge(s)])
  {
    BootIsGood(users, first);
    RunDivides(states, events, |events|);
    var s := states[|events|];
    SoundHasStack(s);
    hide Nested, OthersWait, Formed, Distinct;
    NestedIsShallow(s.stacks[InCharge(s)]);
    NestedIsDistinct(s.stacks[InCharge(s)]);
    MaskSize(BaseMask(s.stacks[InCharge(s)]));
  }

  // ---- what a signal in the window does ----

  ghost function Execute(s: State, events: seq<Event>): Result
    decreases |events|
  {
    if events == [] then Running(s)
    else if !Formed(s) || !Enabled(s, events[0]) then Running(s)
    else
      var r := Next(s, events[0]);
      if r.Running? then Execute(r.s, events[1..]) else r
  }

  lemma ExecuteNothing(s: State)
    ensures Execute(s, []) == Running(s)
  {
  }

  lemma ExecuteStep(s: State, e: Event, rest: seq<Event>)
    requires Formed(s) && Enabled(s, e) && Next(s, e).Running?
    ensures Execute(s, [e] + rest) == Execute(Next(s, e).s, rest)
  {
    assert ([e] + rest)[1..] == rest;
  }

  /** A signal that is not blocked starts its handler, which is through atomic(ON) two steps later. */
  lemma HandlerGetsToBody(s: State, sig: Signal) returns (b: State)
    requires Formed(s) && sig !in s.mask
    ensures Formed(b) && Stack(b) != [] && Top(b).pc == Body && Top(b).kind == Handler(sig, s.mask)
    ensures b.current == s.current && b.flag == s.flag && b.interrupted == s.interrupted
    ensures forall rest :: Execute(s, [Deliver(sig), Advance, Advance] + rest) == Execute(b, rest)
  {
    var s1 := Next(s, Deliver(sig)).s;
    var s2 := Next(s1, Advance).s;
    b := Next(s2, Advance).s;
    hide Execute;
    forall rest
      ensures Execute(s, [Deliver(sig), Advance, Advance] + rest) == Execute(b, rest)
    {
      ExecuteStep(s2, Advance, rest);
      ExecuteStep(s1, Advance, [Advance] + rest);
      ExecuteStep(s, Deliver(sig), [Advance] + ([Advance] + rest));
      assert [Deliver(sig), Advance, Advance] + rest == [Deliver(sig)] + ([Advance] + ([Advance] + rest));
    }
  }

  /** SIGINT, whenever it gets through, ends the program in four steps of its handler. */
  lemma IntTerminates(s: State)
    requires Formed(s) && INT !in s.mask
    ensures Execute(s, [Deliver(INT), Advance, Advance] + [Advance]) == Terminated
  {
    var b := HandlerGetsToBody(s, INT);
    assert Next(b, Advance) == Terminated;
  }

  /** Nothing else does. */
  lemma OnlyIntTerminates(s: State, e: Event)
    requires Formed(s) && Enabled(s, e)
    ensures Next(s, e) == Terminated <==>
      e == Advance && Stack(s) != [] && Top(s).pc == Body && Top(s).kind.Handler? && Top(s).kind.sig == INT
  {
  }

  /** Any other signal that interrupts a user process, with no i-process entered, runs its own i-process. */
  lemma SignalRunsItsIProcess(s: State, sig: Signal)
    requires Formed(s) && sig !in s.mask && sig != INT && !s.flag
    ensures
      var r := Execute(s, [Deliver(sig), Advance, Advance] + [Advance]);
      r.Running? && r.s.current == IProcess(sig) && r.s.interrupted == Some(s.current) && r.s.flag
  {
    var b := HandlerGetsToBody(s, sig);
    assert Next(b, Advance) == Enter(b, sig) && Enter(b, sig).Running?;
    ExecuteStep(b, Advance, []);
    ExecuteNothing(Next(b, Advance).s);
    assert [Advance] + [] == [Advance];
  }

  /** s with a handler for sig in front, counts raised by up, ready to do pc. */
  function Handling(s: State, sig: Signal, up: int, pc: Pc): State
    requires Formed(s)
  {
    Push(Counted(s, up), Frame(Handler(sig, s.mask), pc)).(mask := s.mask + {sig})
  }

  /** The i-process of sig is running because of a signal in the window; other signals are not blocked. */
  function Inside(s: State, sig: Signal): State
    requires Formed(s)
  {
    Handling(s, sig, 1, Away).(flag := true, interrupted := Some(s.current), current := IProcess(sig))
  }

  lemma HandlingMoves(s: State, sig: Signal, up: int, pc: Pc, to: Pc, delta: int)
    requires Formed(s)
    ensures Top(Handling(s, sig, up, pc)) == Frame(Handler(sig, s.mask), pc)
    ensures Goto(Handling(s, sig, up, pc), to) == Handling(s, sig, up, to)
    ensures Goto(Counted(Handling(s, sig, up, pc), delta), to) == Handling(s, sig, up + delta, to)
  {
    var before, after := Stack(s) + [Frame(Handler(sig, s.mask), pc)], Stack(s) + [Frame(Handler(sig, s.mask), to)];
    assert before[|before| - 1 := Frame(Handler(sig, s.mask), to)] == after;
    assert Goto(Handling(s, sig, up, pc), to).stacks == Handling(s, sig, up, to).stacks;
    assert Counted(Handling(s, sig, up, pc), delta).count == Handling(s, sig, up + delta, to).count;
  }

  lemma HandlingStartsAndEnds(s: State, sig: Signal)
    requires Formed(s)
    ensures Push(s, Frame(Handler(sig, s.mask), CountUp)).(mask := s.mask + {sig}) == Handling(s, sig, 0, CountUp)
    ensures Pop(Handling(s, sig, 0, Leave)).(mask := s.mask) == s
  {
    assert s.count[s.current := s.count[s.current] + 0] == s.count;
    assert Pop(Handling(s, sig, 0, Leave)).stacks == s.stacks;
  }

  lemma StepsInWindow(s: State, sig: Signal)
    requires Formed(s) && s.current.User? && s.interrupted.None? && !s.flag && s.count[s.current] > 0
    requires sig != INT && sig !in s.mask
    ensures
      var (s1, s2, s3) := (Handling(s, sig, 0, CountUp), Handling(s, sig, 1, Block), Handling(s, sig, 1, Body));
      && Formed(s1) && Formed(s2) && Formed(s3)
      && Enabled(s1, Advance) && Enabled(s2, Advance) && Enabled(s3, Advance)
      && Next(s, Deliver(sig)) == Running(s1)
      && Next(s1, Advance) == Running(s2) && Next(s2, Advance) == Running(s3)
      && Next(s3, Advance) == Running(Inside(s, sig))
  {
    var s1, s2, s3 := Handling(s, sig, 0, CountUp), Handling(s, sig, 1, Block), Handling(s, sig, 1, Body);
    HandlingStartsAndEnds(s, sig);
    HandlingMoves(s, sig, 0, CountUp, Block, 1);
    HandlingMoves(s, sig, 1, Block, Body, 0);
    HandlingMoves(s, sig, 1, Body, Away, 0);
    hide Goto, Counted, Push;
    assert s1.stacks[s1.current] != [] && s2.stacks[s2.current] != [] && s3.stacks[s3.current] != [];
  }

  lemma SignalInWindow(s: State, sig: Signal, rest: seq<Event>)
    requires Formed(s) && s.current.User? && s.interrupted.None? && !s.flag && s.count[s.current] > 0
    requires sig != INT && sig !in s.mask
    ensures Execute(s, [Deliver(sig), Advance, Advance, Advance] + rest) == Execute(Inside(s, sig), rest)
  {
    hide Execute, Handling, Next, Inside;
    StepsInWindow(s, sig);
    ExecuteStep(Handling(s, sig, 1, Body), Advance, rest);
    ExecuteStep(Handling(s, sig, 1, Block), Advance, [Advance] + rest);
    ExecuteStep(Handling(s, sig, 0, CountUp), Advance, [Advance] + ([Advance] + rest));
    ExecuteStep(s, Deliver(sig), [Advance] + ([Advance] + ([Advance] + rest)));
    assert [Deliver(sig), Advance, Advance, Advance] + rest
      == [Deliver(sig)] + ([Advance] + ([Advance] + ([Advance] + rest)));
  }

  lemma SignalServed(s: State, sig: Signal)
    requires Formed(s) && s.current.User? && s.interrupted.None? && !s.flag && s.count[s.current] > 0
    requires sig != INT && s.stacks[IProcess(sig)] == []
    ensures Execute(Inside(s, sig), [Advance, Advance, Advance, Advance]) == Running(s)
  {
    var s1, s2, s3 := Handling(s, sig, 1, CountDown), Handling(s, sig, 0, Unblock), Handling(s, sig, 0, Leave);
    HandlingStartsAndEnds(s, sig);
    HandlingMoves(s, sig, 1, Away, CountDown, 0);
    HandlingMoves(s, sig, 1, CountDown, Unblock, -1);
    HandlingMoves(s, sig, 0, Unblock, Leave, 0);
    ServedExits(s, sig);
    ExecuteNothing(s);
    hide Execute, Goto, Counted, Push, Pop, Handling, Inside;
    assert s1.stacks[s1.current] != [] && s2.stacks[s2.current] != [] && s3.stacks[s3.current] != [];
    assert Next(s1, Advance) == Running(s2);
    assert Next(s2, Advance) == Running(s3);
    assert Next(s3, Advance) == Running(s);
    ExecuteStep(s3, Advance, []);
    ExecuteStep(s2, Advance, [Advance] + []);
    ExecuteStep(s1, Advance, [Advance] + ([Advance] + []));
    ExecuteStep(Inside(s, sig), Advance, [Advance] + ([Advance] + ([Advance] + [])));
    assert [Advance] + ([Advance] + ([Advance] + ([Advance] + []))) == [Advance, Advance, Advance, Advance];
  }

  lemma ServedExits(s: State, sig: Signal)
    requires Formed(s) && s.current.User? && s.interrupted.None? && !s.flag
    requires sig != INT && s.stacks[IProcess(sig)] == []
    ensures Formed(Inside(s, sig)) && Enabled(Inside(s, sig), Advance)
    ensures Next(Inside(s, sig), Advance) == Running(Goto(Handling(s, sig, 1, Away), CountDown))
  {
  }

  /** A signal that gets through a positive count, and so into a window, is served and leaves no trace. */
  lemma OneInWindowIsHarmless(s: State, sig: Signal)
    requires Sound(s) && s.current.User? && s.count[s.current] > 0 && sig != INT && sig !in s.mask
    ensures Execute(s, [Deliver(sig), Advance, Advance, Advance] + [Advance, Advance, Advance, Advance]) == Running(s)
  {
    hide Execute, Handling;
    SignalInWindow(s, sig, [Advance, Advance, Advance, Advance]);
    SignalServed(s, sig);
  }

  lemma SecondSignalFails(i: State, other: Signal)
    requires Formed(i) && i.current.IProcess? && i.flag && i.stacks[i.current] == [] && i.count[i.current] == 0
    requires other != INT && other !in i.mask
    ensures Execute(i, [Deliver(other), Advance, Advance, Advance]) == AssertFailed
  {
    var s1, s2 := Handling(i, other, 0, CountUp), Handling(i, other, 1, Block);
    var s3 := Handling(i, other, 1, Block).(oldmask := s2.mask, mask := s2.mask + ALL);
    HandlingStartsAndEnds(i, other);
    HandlingMoves(i, other, 0, CountUp, Block, 1);
    var s4 := Goto(s3, Body);
    SecondEnters(i, other);
    hide Execute, Goto, Counted, Push, Pop, Handling;
    assert s1.stacks[s1.current] != [] && s2.stacks[s2.current] != [];
    assert Next(i, Deliver(other)) == Running(s1);
    assert Next(s1, Advance) == Running(s2);
    assert Next(s2, Advance) == Running(s4);
    ExecuteFails(s4, Advance);
    ExecuteStep(s2, Advance, [Advance]);
    ExecuteStep(s1, Advance, [Advance] + [Advance]);
    ExecuteStep(i, Deliver(other), [Advance] + ([Advance] + [Advance]));
    assert [Deliver(other)] + ([Advance] + ([Advance] + [Advance])) == [Deliver(other), Advance, Advance, Advance];
  }

  lemma ExecuteFails(s: State, e: Event)
    requires Formed(s) && Enabled(s, e) && Next(s, e) == AssertFailed
    ensures Execute(s, [e]) == AssertFailed
  {
  }

  lemma SecondEnters(i: State, other: Signal)
    requires Formed(i) && i.flag && i.count[i.current] == 0 && other != INT
    ensures
      var s2 := Handling(i, other, 1, Block);
      var s4 := Goto(s2.(oldmask := s2.mask, mask := s2.mask + ALL), Body);
      && s2.count[s2.current] == 1 && Top(s2).pc == Block
      && Formed(s4) && Enabled(s4, Advance) && Next(s4, Advance) == AssertFailed
  {
  }

  /** A second one while the i-process of the first runs finds flag set: the assertion of k_i_process_enter fails. */
  lemma TwoInWindowFail(s: State, sig: Signal, other: Signal)
    requires Sound(s) && s.current.User? && s.count[s.current] > 0 && sig != INT && sig !in s.mask
    requires other != INT && other != sig && other !in s.mask
    ensures Execute(s, [Deliver(sig), Advance, Advance, Advance] + [Deliver(other), Advance, Advance, Advance])
      == AssertFailed
  {
    SignalInWindow(s, sig, [Deliver(other), Advance, Advance, Advance]);
    assert Formed(Inside(s, sig));
    assert Inside(s, sig).stacks[IProcess(sig)] == [] && Inside(s, sig).count[IProcess(sig)] == 0;
    hide Execute, Handling;
    SecondSignalFails(Inside(s, sig), other);
  }

  /** It does happen: the first process calls a primitive, and two signals come after its count. */
  lemma AssertionCanFail(users: set<nat>, first: nat)
    requires first in users
    ensures Execute(Boot(users, first), [Call] + ([Advance] +
      ([Deliver(ALRM), Advance, Advance, Advance] + [Deliver(USR1), Advance, Advance, Advance]))) == AssertFailed
  {
    BootIsGood(users, first);
    var s := Boot(users, first);
    var s1 := Next(s, Call).s;
    var s2 := Next(s1, Advance).s;
    NextKeepsSound(s, Call);
    NextKeepsSound(s1, Advance);
    assert s2.current == User(first) && s2.count[User(first)] == 1 && s2.mask == {};
    hide Execute, Sound, Boot, Next;
    TwoInWindowFail(s2, ALRM, USR1);
    ExecuteStep(s1, Advance, [Deliver(ALRM), Advance, Advance, Advance] + [Deliver(USR1), Advance, Advance, Advance]);
    ExecuteStep(s, Call, [Advance] +
      ([Deliver(ALRM), Advance, Advance, Advance] + [Deliver(USR1), Advance, Advance, Advance]));
  }

  /** The kernel's variables, changed in place. */
  class Machine {
    var current: Pid
    var interrupted: Option<Pid>
    var flag: bool
    var mask: set<Signal>
    var oldmask: set<Signal>
    var count: map<Pid, int>
    var stacks: map<Pid, seq<Frame>>

    function Now(): State
      reads this
    {
      State(current, interrupted, flag, mask, oldmask, count, stacks)
    }

    constructor (users: set<nat>, first: nat)
      requires first in users
      ensures Now() == Boot(users, first)
    {
      var s := Boot(users, first);
      current, interrupted, flag, mask, oldmask, count, stacks :=
        s.current, s.interrupted, s.flag, s.mask, s.oldmask, s.count, s.stacks;
    }

    method SetPc(pc: Pc)
      requires current in stacks && stacks[current] != []
      modifies `stacks
      ensures Now() == Goto(old(Now()), pc)
    {
      var stack := stacks[current];
      stacks := stacks[current := stack[|stack| - 1 := stack[|stack| - 1].(pc := pc)]];
    }

    /** sigprocmask(SIG_BLOCK, &newmask, &oldmask), if this is the first atomic(ON). */
    method BlockSignals()
      requires current in count
      modifies `mask, `oldmask
      ensures Now() == if count[current] == 1 then old(Now()).(oldmask := old(mask), mask := old(mask) + ALL)
                         else old(Now())
    {
      if count[current] == 1 {
        oldmask := mask;
        mask := mask + {ALRM, INT, USR1, USR2};
      }
    }

    method EnterIProcess(sig: Signal) returns (ok: bool)
      requires Formed(Now()) && stacks[current] != [] && sig != INT
      modifies this
      ensures (if ok then Running(Now()) else AssertFailed) == Enter(old(Now()), sig)
    {
      if flag {
        return false;
      }
      flag := true;
      SetPc(Away);
      interrupted := Some(current);
      current := IProcess(sig);
      return true;
    }

    method ExitIProcess() returns (ok: bool)
      requires Formed(Now())
      modifies this
      ensures (if ok then Running(Now()) else AssertFailed) == Exit(old(Now()))
    {
      if !flag || interrupted.None? || stacks[interrupted.value] == [] {
        return false;
      }
      flag := false;
      current := interrupted.value;
      interrupted := None;
      SetPc(CountDown);
      return true;
    }

    /** One step of the process that is running. */
    method Advance() returns (ok: bool, terminated: bool)
      requires Formed(Now()) && Enabled(Now(), Event.Advance)
      modifies this
      ensures Next(old(Now()), Event.Advance)
        == if terminated then Terminated else if ok then Running(Now()) else AssertFailed
    {
      ok, terminated := true, false;
      if stacks[current] == [] {
        ok := ExitIProcess();
        return;
      }
      var f := stacks[current][|stacks[current]| - 1];
      match f.pc
      case CountUp =>
        count := count[current := count[current] + 1];
        SetPc(Block);
      case Block =>
        BlockSignals();
        SetPc(Body);
      case Body =>
        if f.kind.Primitive? {
          SetPc(CountDown);
        } else if f.kind.sig == INT {
          terminated := true;
        } else {
          ok := EnterIProcess(f.kind.sig);
        }
      case Away =>
      case CountDown =>
        if count[current] - 1 < 0 {
          return false, false;
        }
        count := count[current := count[current] - 1];
        SetPc(Unblock);
      case Unblock =>
        if count[current] == 0 {
          mask := oldmask;
        }
        SetPc(Leave);
      case Leave =>
        if f.kind.Handler? {
          mask := f.kind.saved;
        }
        stacks := stacks[current := stacks[current][..|stacks[current]| - 1]];
    }

    /** A signal that is not blocked arrives: its handler starts with the signal itself blocked as well. */
    method Deliver(sig: Signal)
      requires Formed(Now()) && sig !in mask
      modifies this
      ensures Next(old(Now()), Event.Deliver(sig)) == Running(Now())
    {
      stacks := stacks[current := stacks[current] + [Frame(Handler(sig, mask), CountUp)]];
      mask := mask + {sig};
    }

    /** The running process calls a primitive. */
    method Call()
      requires Formed(Now()) && Enabled(Now(), Event.Call)
      modifies this
      ensures Next(old(Now()), Event.Call) == Running(Now())
    {
      stacks := stacks[current := stacks[current] + [Frame(Primitive, CountUp)]];
    }

    /** k_process_switch inside a primitive. */
    method SwitchTo(to: Pid)
      requires Formed(Now()) && Enabled(Now(), Event.Switch(to))
      modifies this
      ensures Next(old(Now()), Event.Switch(to)) == Running(Now())
    {
      current := to;
    }
  }
}
