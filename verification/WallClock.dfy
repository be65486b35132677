/** The text of the clock: CLOCK_FORMAT and _setWallClock (coldfire/user/src/wallclock.c). */
module WallClock {
  import opened Common
  import opened CStrings
  import opened Numbers
  import opened Printf

  const CLOCK_FORMAT := "%02d:%02d:%02d"
  const DAY := 86400

  // ---- the clock as text ----

  function Two(n: nat): string
    requires n < 100
  {
    [DigitChar(n / 10), DigitChar(n % 10)]
  }

  function ClockText(time: nat): string
    requires time < DAY
  {
    Two(time / 3600) + ":" + Two(time % 3600 / 60) + ":" + Two(time % 60)
  }

  lemma ShortDecimal(t: string, n: nat)
    requires IsDecimal(t, n) && 1 <= |t| <= 2 && n < 100
    ensures if |t| == 1 then n < 10 && t == [DigitChar(n)] else t == Two(n)
  {
    assert IsDigit(t[0]);
    BehindFirst(0, t[0], t[1..]);
    assert t == [t[0]] + t[1..];
    if |t| == 2 {
      assert IsDigit(t[1]) && t[1..] == [t[1]] + "";
      BehindFirst(t[0] as int - '0' as int, t[1], "");
    }
  }

  lemma SizeOfTwo(n: nat)
    requires 0 < n < 100
    ensures Size(n, 0) == if n < 10 then 1 else 2
  {
    SizeOfSmall(n);
    assert Pow10(1) == 10 && Pow10(2) == 100;
    hide Size;
    if Size(n, 0) > 2 {
      Pow10Grows(2, Size(n, 0) - 1);
    }
  }

  /** %02d prints two digits. */
  lemma TwoDigits(out: string, n: nat)
    requires n < 100
    ensures Number(out, n, true, 2) == Printed(out + Two(n))
  {
    if n == 0 {
      ZeroPrints(out, true, 2);
      assert Fill(1, true) == "0" && out + "0" + "0" == out + "00";
    } else {
      hide Number, Size, IsDecimal;
      var t := NumberPrints(out, n, true, 2);
      SizeOfTwo(n);
      ShortDecimal(t, n);
      hide DigitChar;
      if |t| == 1 {
        assert Padding(1, false, true, 2) == "0";
        assert out + "0" + "" + t == out + ("0" + t) && "0" + t == Two(n);
      } else {
        assert out + "" + "" + t == out + t;
      }
    }
  }

  /** What %02d makes of a number of at most two digits; a sign takes the place of the zero. */
  function Field(n: int): string
    requires -100 < n < 100
  {
    if n >= 0 then Two(n) else if n > -10 then "-" + [DigitChar(-n)] else "-" + Two(-n)
  }

  lemma SignedField(out: string, n: int)
    requires -100 < n < 0
    ensures Number(out, n, true, 2) == Printed(out + Field(n))
  {
    hide Number, Size, IsDecimal;
    var t := NumberPrints(out, n, true, 2);
    SizeOfTwo(-n);
    ShortDecimal(t, -n);
    hide DigitChar, Two;
    assert Padding(|t|, true, true, 2) == "";
    assert out + "" + "-" + t == out + ("-" + t);
  }

  lemma FieldIsPrinted(out: string, n: int, flags: Flags)
    requires -100 < n < 100 && flags.zero && flags.spaces == 2
    ensures Convert(out, 'd', flags, Num(n)) == Some(out + Field(n))
  {
    hide Number, Two;
    if n < 0 {
      SignedField(out, n);
    } else {
      TwoDigits(out, n);
    }
    assert Number(out, n, true, 2) == Printed(out + Field(n));
  }

  /** One conversion of CLOCK_FORMAT. */
  lemma FormatTwo(params: seq<Option<Param>>, k: nat, i: nat, out: string, n: int)
    requires k in {0, 5, 10} && i < |params| && params[i] == Some(Num(n)) && -100 < n < 100
    ensures Format(CLOCK_FORMAT, params, k, i, out) == Format(CLOCK_FORMAT, params, k + 4, i + 1, out + Field(n))
  {
    assert FlagsAt(CLOCK_FORMAT, k) == Flags(true, 2, k + 3) && CLOCK_FORMAT[k] == '%' && CLOCK_FORMAT[k + 3] == 'd';
    hide Convert, Field, FlagsAt, Format;
    FieldIsPrinted(out, n, FlagsAt(CLOCK_FORMAT, k));
    FormatStep(CLOCK_FORMAT, params, k, i, out);
  }

  lemma FormatColon(params: seq<Option<Param>>, k: nat, i: nat, out: string)
    requires k == 4 || k == 9
    ensures Format(CLOCK_FORMAT, params, k, i, out) == Format(CLOCK_FORMAT, params, k + 1, i, out + ":")
  {
    hide FlagsAt, Convert;
  }

  lemma FormatField(params: seq<Option<Param>>, k: nat, i: nat, out: string, n: int)
    requires (k == 0 || k == 5) && i < |params| && params[i] == Some(Num(n)) && -100 < n < 100
    ensures Format(CLOCK_FORMAT, params, k, i, out) == Format(CLOCK_FORMAT, params, k + 5, i + 1, out + Field(n) + ":")
  {
    hide Format, Field;
    FormatTwo(params, k, i, out, n);
    FormatColon(params, k + 4, i + 1, out + Field(n));
  }

  lemma FormatLast(params: seq<Option<Param>>, i: nat, out: string, n: int)
    requires i < |params| && params[i] == Some(Num(n)) && -100 < n < 100
    ensures Format(CLOCK_FORMAT, params, 10, i, out) == Text(out + Field(n))
  {
    hide Format, Field;
    FormatTwo(params, 10, i, out, n);
    FormatEnds(CLOCK_FORMAT, params, i + 1, out + Field(n));
  }

  lemma FormatClock(params: seq<Option<Param>>, h: int, m: int, s: int)
    requires |params| >= 3 && params[0] == Some(Num(h)) && params[1] == Some(Num(m)) && params[2] == Some(Num(s))
    requires -100 < h < 100 && -100 < m < 100 && -100 < s < 100
    ensures Format(CLOCK_FORMAT, params, 0, 0, "") == Text(Field(h) + ":" + Field(m) + ":" + Field(s))
  {
    hide Format, Field;
    FormatField(params, 0, 0, "", h);
    assert "" + Field(h) == Field(h);
    FormatField(params, 5, 1, Field(h) + ":", m);
    FormatLast(params, 2, Field(h) + ":" + Field(m) + ":", s);
  }

  // ---- the display ----

  /** C's remainder, which goes with the quotient that drops the fraction. */
  function Remainder(a: int, b: int): int
    requires b != 0
  {
    a - Quotient(a, b) * b
  }

  /** clock_time of the main loop. */
  function TimeOfDay(now: int, ref: int, offset: int): int {
    Remainder(Quotient(now - ref, 100) + offset, DAY)
  }

  /** What the main loop prints for clock_time. */
  function Shown(time: int): Formatted {
    var (hr, min, sec) := (Quotient(time, 3600), Quotient(Remainder(time, 3600), 60), Remainder(time, 60));
    Format(CLOCK_FORMAT, [Some(Num(hr)), Some(Num(min)), Some(Num(sec)), None], 0, 0, "")
  }

  /** Hours, minutes and seconds of a time, all of its sign. */
  lemma Parts(time: int) returns (h: int, m: int, s: int)
    requires -DAY < time < DAY
    ensures time == h * 3600 + m * 60 + s
    ensures if time >= 0 then 0 <= h <= 23 && 0 <= m <= 59 && 0 <= s <= 59
            else -23 <= h <= 0 && -59 <= m <= 0 && -59 <= s <= 0
    ensures Quotient(time, 3600) == h && Quotient(Remainder(time, 3600), 60) == m && Remainder(time, 60) == s
  {
    h, m, s := Quotient(time, 3600), Quotient(Remainder(time, 3600), 60), Remainder(time, 60);
  }

  lemma ShownIs(time: int) returns (h: int, m: int, s: int)
    requires -DAY < time < DAY
    ensures time == h * 3600 + m * 60 + s
    ensures if time >= 0 then 0 <= h <= 23 && 0 <= m <= 59 && 0 <= s <= 59
            else -23 <= h <= 0 && -59 <= m <= 0 && -59 <= s <= 0
    ensures Shown(time) == Text(Field(h) + ":" + Field(m) + ":" + Field(s))
    ensures time >= 0 ==> h == time / 3600 && m == time % 3600 / 60 && s == time % 60
  {
    h, m, s := Parts(time);
    if time >= 0 {
      HoursMinutesSeconds(h, m, s);
    }
    hide Quotient, Remainder, Format, Field;
    FormatClock([Some(Num(h)), Some(Num(m)), Some(Num(s)), None], h, m, s);
  }

  /** For every time of day the clock shows eight characters, two digits a field. */
  lemma ClockIsPrinted(time: nat)
    requires time < DAY
    ensures |ClockText(time)| == 8 && Shown(time) == Text(ClockText(time))
  {
    hide Shown;
    var h, m, s := ShownIs(time);
  }

  // ---- setting the clock ----

  datatype Setting = Set(offset: int) | NullArg | IllegalArg

  /** _setWallClock: the offset it sets, or the error it returns. */
  function Parse(t: Option<string>): Setting {
    if t.None? then NullArg
    else
      var s := t.value;
      if |s| != 8 || s[2] != ':' || s[5] != ':' then IllegalArg
      else
        match (Atoi(s[0..2]), Atoi(s[3..5]), Atoi(s[6..8]))
        case ((1, Some(h)), (1, Some(m)), (1, Some(sec))) =>
          if h > 23 || m > 59 || sec > 59 then IllegalArg else Set(h * 3600 + m * 60 + sec)
        case _ => IllegalArg
  }

  /** s has digits in all the places where a time of day has them. */
  predicate DigitPairs(s: string) {
    |s| == 8 && IsDigit(s[0]) && IsDigit(s[1]) && IsDigit(s[3]) && IsDigit(s[4]) && IsDigit(s[6]) && IsDigit(s[7])
  }

  /** What two characters are read as. */
  function PairValue(a: char, b: char): int {
    10 * (a as int - '0' as int) + (b as int - '0' as int)
  }

  lemma PairIsRead(s: string, i: nat)
    requires i + 1 < |s| && TakenForDigit(s[i]) && TakenForDigit(s[i + 1])
    ensures Atoi(s[i..i + 2]) == (1, Some(PairValue(s[i], s[i + 1])))
  {
    var t := s[i..i + 2];
    assert SkipBlanks(t) == 0 && t[0..] == t && t[1..][0] == s[i + 1] && t[1..][1..] == "";
    var a := s[i] as int - '0' as int;
    assert ReadDigits(t, 0) == ReadDigits(t[1..], a);
    assert ReadDigits(t[1..], a) == ReadDigits("", PairValue(s[i], s[i + 1]));
    hide Int32, ReadDigits;
    assert ReadSigned(t) == (1, Some(PairValue(s[i], s[i + 1])));
  }

  /** Where the characters are digits, the documented times of day are accepted, and nothing else. */
  lemma AcceptsTimesOfDay(s: string)
    requires DigitPairs(s)
    ensures Parse(Some(s)) ==
      var (h, m, sec) := (PairValue(s[0], s[1]), PairValue(s[3], s[4]), PairValue(s[6], s[7]));
      if s[2] == ':' && s[5] == ':' && h <= 23 && m <= 59 && sec <= 59 then Set(h * 3600 + m * 60 + sec) else IllegalArg
  {
    hide Atoi;
    PairIsRead(s, 0);
    PairIsRead(s, 3);
    PairIsRead(s, 6);
  }

  lemma TwoIsPair(n: nat)
    requires n < 100
    ensures IsDigit(Two(n)[0]) && IsDigit(Two(n)[1]) && PairValue(Two(n)[0], Two(n)[1]) == n
  {
  }

  lemma PairIsTwo(a: char, b: char)
    requires IsDigit(a) && IsDigit(b)
    ensures 0 <= PairValue(a, b) < 100 && Two(PairValue(a, b)) == [a, b]
  {
  }

  lemma HoursMinutesSeconds(h: nat, m: nat, s: nat)
    requires m < 60 && s < 60
    ensures var t := h * 3600 + m * 60 + s; t / 3600 == h && t % 3600 / 60 == m && t % 60 == s
  {
  }

  lemma TimeParts(time: nat)
    requires time < DAY
    ensures time / 3600 <= 23 && time % 3600 / 60 <= 59 && time % 60 <= 59
    ensures time / 3600 * 3600 + time % 3600 / 60 * 60 + time % 60 == time
  {
  }

  /** Every time of day that the clock can show is set again from its text. */
  lemma ClockRoundTrip(time: nat)
    requires time < DAY
    ensures DigitPairs(ClockText(time)) && Parse(Some(ClockText(time))) == Set(time)
  {
    TimeParts(time);
    TwoIsPair(time / 3600);
    TwoIsPair(time % 3600 / 60);
    TwoIsPair(time % 60);
    hide Two, PairValue, Parse;
    AcceptsTimesOfDay(ClockText(time));
  }

  lemma PairsAreShown(s: string)
    requires DigitPairs(s) && s[2] == ':' && s[5] == ':'
    ensures
      var (h, m, sec) := (PairValue(s[0], s[1]), PairValue(s[3], s[4]), PairValue(s[6], s[7]));
      h <= 23 && m <= 59 && sec <= 59 ==> 0 <= h * 3600 + m * 60 + sec < DAY && s == ClockText(h * 3600 + m * 60 + sec)
  {
    var h, m, sec := PairValue(s[0], s[1]), PairValue(s[3], s[4]), PairValue(s[6], s[7]);
    if h <= 23 && m <= 59 && sec <= 59 {
      PairIsTwo(s[0], s[1]);
      PairIsTwo(s[3], s[4]);
      PairIsTwo(s[6], s[7]);
      HoursMinutesSeconds(h, m, sec);
      hide Two, PairValue;
      assert s == [s[0], s[1]] + ":" + [s[3], s[4]] + ":" + [s[6], s[7]];
    }
  }

  // ---- which texts are shown as they were typed ----

  /** The two characters at i are 00, or a minus sign with one of 1 to 9. */
  predicate MinusPair(s: string, i: nat)
    requires i + 1 < |s|
  {
    (s[i] == '0' && s[i + 1] == '0') || (s[i] == '-' && '1' <= s[i + 1] <= '9')
  }

  predicate MinusPairs(s: string) {
    |s| == 8 && s[2] == ':' && s[5] == ':' && MinusPair(s, 0) && MinusPair(s, 3) && MinusPair(s, 6)
  }

  function MinusValue(s: string, i: nat): int
    requires i + 1 < |s| && MinusPair(s, i)
  {
    '0' as int - s[i + 1] as int
  }

  lemma MinusPairIsRead(s: string, i: nat)
    requires i + 1 < |s| && MinusPair(s, i)
    ensures Atoi(s[i..i + 2]) == (1, Some(MinusValue(s, i))) && -9 <= MinusValue(s, i) <= 0
    ensures s[i..i + 2] == Field(MinusValue(s, i))
  {
    if s[i] == '0' {
      PairIsRead(s, i);
    } else {
      var t := [s[i + 1]];
      BehindFirst(0, s[i + 1], "");
      assert t + "" == t;
      AtoiReads("", true, t);
      assert "" + ("-" + t) == s[i..i + 2];
    }
  }

  lemma MinusPairsAreShown(s: string)
    requires MinusPairs(s)
    ensures Parse(Some(s)).Set? && -DAY < Parse(Some(s)).offset <= 0 && Shown(Parse(Some(s)).offset) == Text(s)
  {
    hide Atoi, Shown, Field, MinusPair;
    MinusPairIsRead(s, 0);
    MinusPairIsRead(s, 3);
    MinusPairIsRead(s, 6);
    var h, m, sec := MinusValue(s, 0), MinusValue(s, 3), MinusValue(s, 6);
    hide MinusValue;
    var h', m', sec' := ShownIs(h * 3600 + m * 60 + sec);
    assert h == h' && m == m' && sec == sec';
    assert s == s[0..2] + ":" + s[3..5] + ":" + s[6..8];
  }

  lemma FieldOfTwo(n: int)
    requires -60 < n < 60
    ensures |Field(n)| >= 2
    ensures n >= 0 ==> |Field(n)| == 2 && IsDigit(Field(n)[0]) && IsDigit(Field(n)[1])
    ensures n <= 0 && |Field(n)| == 2 ==> MinusPair(Field(n), 0)
  {
  }

  /** The texts that can be on the display and have eight characters. */
  lemma ShownHasForm(s: string, time: int)
    requires -DAY < time < DAY && |s| == 8 && Shown(time) == Text(s)
    ensures if time >= 0 then DigitPairs(s) else MinusPairs(s)
  {
    hide Shown, Field;
    var h, m, sec := ShownIs(time);
    FieldOfTwo(h);
    FieldOfTwo(m);
    FieldOfTwo(sec);
    assert s == Field(h) + ":" + Field(m) + ":" + Field(sec);
    assert s[0] == Field(h)[0] && s[1] == Field(h)[1];
    assert s[3] == Field(m)[0] && s[4] == Field(m)[1] && s[6] == Field(sec)[0] && s[7] == Field(sec)[1];
  }

  lemma TimeInDay(now: int, ref: int, offset: int)
    ensures -DAY < TimeOfDay(now, ref, offset) < DAY
    ensures -DAY < offset < DAY && now == ref ==> TimeOfDay(now, ref, offset) == offset
  {
  }

  lemma DigitsAreShown(s: string)
    requires DigitPairs(s) && Parse(Some(s)).Set?
    ensures 0 <= Parse(Some(s)).offset < DAY && Shown(Parse(Some(s)).offset) == Text(s)
  {
    hide Parse, Shown, ClockText;
    AcceptsTimesOfDay(s);
    PairsAreShown(s);
    ClockIsPrinted(Parse(Some(s)).offset);
  }

  /**
   When the clock has been set, what it shows is what was typed if and only if all six characters are digits, or every
   field is 00 or a minus sign with one of 1 to 9.
   */
  lemma AcceptedIsShown(s: string, now: int)
    requires Parse(Some(s)).Set?
    ensures Shown(TimeOfDay(now, now, Parse(Some(s)).offset)) == Text(s) <==> DigitPairs(s) || MinusPairs(s)
  {
    var offset := Parse(Some(s)).offset;
    assert |s| == 8;
    hide Parse, Shown, TimeOfDay;
    TimeInDay(now, now, offset);
    if Shown(TimeOfDay(now, now, offset)) == Text(s) {
      ShownHasForm(s, TimeOfDay(now, now, offset));
    }
    if DigitPairs(s) {
      DigitsAreShown(s);
    }
    if MinusPairs(s) {
      MinusPairsAreShown(s);
    }
  }

  /** A text that is no time of day and is accepted: a colon is read as ten. The time it sets is one, 20:00:00. */
  lemma AcceptsColon()
    ensures !DigitPairs("1::00:00") && Parse(Some("1::00:00")) == Parse(Some("20:00:00")) == Set(20 * 3600)
  {
    hide Atoi;
    PairIsRead("1::00:00", 0);
    PairIsRead("1::00:00", 3);
    PairIsRead("1::00:00", 6);
    AcceptsTimesOfDay("20:00:00");
  }

  lemma MinusOne()
    ensures Atoi("-1") == (1, Some(-1))
  {
    AtoiReads("", true, "1");
    assert "" + ("-" + "1") == "-1" && Value("1") == 1;
  }

  /** A sign is allowed, and can set the clock to what is no time of day, a time before midnight. */
  lemma AcceptsSign()
    ensures Parse(Some("-1:00:00")) == Set(-3600)
  {
    var s := "-1:00:00";
    MinusOne();
    hide Atoi;
    assert s[0..2] == "-1";
    PairIsRead(s, 3);
    PairIsRead(s, 6);
  }

  lemma FewDigits(d: string)
    requires |d| <= 2 && ReadDigits(d, 0).Some?
    ensures 0 <= ReadDigits(d, 0).value <= if |d| == 2 then 110 else 10
  {
    if d != "" {
      var a := d[0] as int - '0' as int;
      assert ReadDigits(d, 0) == ReadDigits(d[1..], a);
      if |d| == 2 {
        assert ReadDigits(d[1..], a) == ReadDigits(d[1..][1..], 10 * a + (d[1] as int - '0' as int));
      }
    }
  }

  /** A field is read as a number between -10 and 110. */
  lemma FieldBounds(p: string)
    requires |p| == 2 && Atoi(p).0 == 1 && Atoi(p).1.Some?
    ensures -10 <= Atoi(p).1.value <= 110
  {
    var t := p[SkipBlanks(p)..];
    var digits := if At(t, 0) == '-' || At(t, 0) == '+' then t[1..] else t;
    FewDigits(digits);
    hide ReadDigits, Int32;
  }

  /** What _setWallClock takes the two characters at i for. */
  function FieldAt(s: string, i: nat): int
    requires i + 2 <= |s|
  {
    if Atoi(s[i..i + 2]).1.Some? then Atoi(s[i..i + 2]).1.value else 0
  }

  /** An accepted text sets a time of day if and only if its first field that is not zero, if any, is positive. */
  lemma SetsTimeOfDay(s: string)
    requires Parse(Some(s)).Set?
    ensures
      var (h, m, sec, offset) := (FieldAt(s, 0), FieldAt(s, 3), FieldAt(s, 6), Parse(Some(s)).offset);
      0 <= offset < DAY <==> h > 0 || (h == 0 && (m > 0 || (m == 0 && sec >= 0)))
  {
    hide Atoi;
    FieldBounds(s[0..2]);
    FieldBounds(s[3..5]);
    FieldBounds(s[6..8]);
  }

  lemma UnsignedField(p: string)
    requires |p| == 2 && Atoi(p).0 == 1 && Atoi(p).1.Some? && p[0] != '-' && p[1] != '-'
    ensures Atoi(p).1.value >= 0
  {
    var t := p[SkipBlanks(p)..];
    FewDigits(if At(t, 0) == '+' then t[1..] else t);
    hide ReadDigits, Int32;
  }

  /** Without a minus sign every accepted text sets a time of day. */
  lemma UnsignedSetsTimeOfDay(s: string)
    requires Parse(Some(s)).Set? && forall i | 0 <= i < |s| :: s[i] != '-'
    ensures 0 <= Parse(Some(s)).offset < DAY
  {
    hide Atoi;
    UnsignedField(s[0..2]);
    UnsignedField(s[3..5]);
    UnsignedField(s[6..8]);
    SetsTimeOfDay(s);
  }

  lemma SettingBounds(t: Option<string>)
    requires Parse(t).Set?
    ensures -DAY < Parse(t).offset < DAY
  {
    hide Atoi;
    FieldBounds(t.value[0..2]);
    FieldBounds(t.value[3..5]);
    FieldBounds(t.value[6..8]);
  }

  // ---- exactly which texts are accepted ----

  /** Two characters that are read as a number: two digits, or a blank or a sign and a digit. A colon is a digit. */
  predicate ReadsAsField(a: char, b: char) {
    ('0' <= a <= ':' || a in {' ', '-', '+'}) && '0' <= b <= ':'
  }

  /** The number they are read as. */
  function FieldRead(a: char, b: char): int
    requires ReadsAsField(a, b)
  {
    if a == '-' then '0' as int - b as int
    else if a == ' ' || a == '+' then b as int - '0' as int
    else PairValue(a, b)
  }

  lemma OneIsRead(front: string, c: char)
    requires front in {" ", "-", "+"} && '0' <= c <= ':'
    ensures
      var n := c as int - '0' as int;
      Atoi(front + [c]) == (1, Some(if front == "-" then -n else n))
  {
    var p := front + [c];
    assert p[1..] == [c] && [c][1..] == "";
    assert ReadDigits([c], 0) == ReadDigits("", c as int - '0' as int);
    if front == " " {
      assert SkipBlanks(p) == 1 + SkipBlanks([c]);
    } else {
      assert SkipBlanks(p) == 0 && p[0..] == p;
    }
  }

  lemma FieldIsRead(p: string)
    requires |p| == 2
    ensures if ReadsAsField(p[0], p[1]) then Atoi(p) == (1, Some(FieldRead(p[0], p[1]))) else Atoi(p).0 == 0
  {
    hide Atoi, Worth, Int32;
    var (a, b) := (p[0], p[1]);
    assert p == [a, b] && p == [a] + [b] && p[0..2] == p;
    if ReadsAsField(a, b) {
      if '0' <= a <= ':' {
        PairIsRead(p, 0);
      } else {
        OneIsRead([a], b);
      }
    } else if a != ' ' {
      var sign := if a == '-' || a == '+' then [a] else "";
      assert "" + (sign + p[|sign|..]) == p;
      AtoiExactly("", sign, p[|sign|..]);
    } else if b == ' ' {
      assert p + ("" + "") == p;
      AtoiExactly(p, "", "");
    } else {
      var sign := if b == '-' || b == '+' then [b] else "";
      assert [a] + (sign + [b][|sign|..]) == p;
      AtoiExactly([a], sign, [b][|sign|..]);
    }
  }

  /** The whole of _setWallClock: the texts it accepts, the offset each sets, and the two errors. */
  lemma AcceptsExactly(s: string)
    ensures Parse(None) == NullArg
    ensures Parse(Some(s)) ==
      if |s| == 8 && s[2] == ':' && s[5] == ':'
         && ReadsAsField(s[0], s[1]) && ReadsAsField(s[3], s[4]) && ReadsAsField(s[6], s[7])
         && FieldRead(s[0], s[1]) <= 23 && FieldRead(s[3], s[4]) <= 59 && FieldRead(s[6], s[7]) <= 59
      then Set(FieldRead(s[0], s[1]) * 3600 + FieldRead(s[3], s[4]) * 60 + FieldRead(s[6], s[7]))
      else IllegalArg
  {
    hide Atoi, FieldRead, ReadsAsField;
    if |s| == 8 {
      FieldIsRead(s[0..2]);
      FieldIsRead(s[3..5]);
      FieldIsRead(s[6..8]);
    }
  }

  /** One time of day, shown and set. */
  lemma ShownAndSet()
    ensures Shown(45296) == Text("12:34:56") && Parse(Some("12:34:56")) == Set(45296)
  {
    hide Shown, Parse;
    ClockIsPrinted(45296);
    assert ClockText(45296) == "12:34:56";
    ClockRoundTrip(45296);
  }

  /**
   Between two settings the clock goes on by one second for every hundred ticks and starts again at 0 after a day, from
   whatever offset a text can set: a negative one counts up to midnight first.
   */
  lemma ClockRuns(now: int, ref: int, offset: int)
    requires ref <= now && -DAY < offset
    ensures
      var t := (now - ref) / 100 + offset;
      TimeOfDay(now, ref, offset) == if t < 0 then t else t % DAY
    ensures
      var t := TimeOfDay(now, ref, offset);
      TimeOfDay(now + 100, ref, offset) == if t == DAY - 1 then 0 else t + 1
  {
    var t := (now - ref) / 100 + offset;
    assert Quotient(now - ref, 100) == (now - ref) / 100;
    assert Quotient(now + 100 - ref, 100) == (now - ref) / 100 + 1;
    RemainderInDay(t);
    RemainderInDay(t + 1);
    hide Remainder, Quotient;
    NextInDay(t);
  }

  lemma RemainderInDay(t: int)
    requires -DAY < t
    ensures Remainder(t, DAY) == if t < 0 then t else t % DAY
  {
  }

  lemma NextInDay(t: int)
    ensures (t + 1) % DAY == if t % DAY == DAY - 1 then 0 else t % DAY + 1
  {
  }

  class Clock {
    var offset: int
    var ref: int

    method SetWallClock(timeParam: Option<string>, now: int) returns (r: Setting)
      requires timeParam.Some? ==> NUL !in timeParam.value
      modifies this
      ensures r == Parse(timeParam)
      ensures if r.Set? then offset == r.offset && ref == now else offset == old(offset) && ref == old(ref)
    {
      if timeParam.None? {
        return NullArg;
      }
      var s := timeParam.value;
      if |s| != 8 || s[2] != ':' || s[5] != ':' {
        return IllegalArg;
      }
      var ret, more, hr, min, sec;
      ret, hr := AtoiOf(s[0..2]);
      more, min := AtoiOf(s[3..5]);
      ret := ret + more;
      more, sec := AtoiOf(s[6..8]);
      ret := ret + more;
      if ret < 3 || hr.value > 23 || min.value > 59 || sec.value > 59 {
        return IllegalArg;
      }
      offset := hr.value * 3600 + min.value * 60 + sec.value;
      ref := now;
      return Set(offset);
    }
  }
}
