/** Numbers as text (coldfire/util/src/utils.c): the %d conversion of rtx_sprintf, and rtx_atoi, on 32-bit integers. */
module Numbers {
  import opened Common
  import opened CStrings

  const MAX_INT := 0x7FFF_FFFF
  const BILLION := 1000000000

  /** The low 32 bits of x as a signed number. */
  function Int32(x: int): (r: int)
    ensures -MAX_INT - 1 <= r <= MAX_INT
    ensures -MAX_INT - 1 <= x <= MAX_INT ==> r == x
  {
    var m := x % 0x1_0000_0000;
    if m > MAX_INT then m - 0x1_0000_0000 else m
  }

  /** C's division, which drops the fraction. */
  function Quotient(a: int, b: int): int
    requires b != 0
  {
    var q := (if a < 0 then -a else a) / (if b < 0 then -b else b);
    if (a < 0) == (b < 0) then q else -q
  }

  /** The low eight bits of a character code. */
  function CharOf(code: int): char {
    (code % 256) as char
  }

  function Pow10(n: nat): (r: nat)
    ensures r > 0
  {
    if n == 0 then 1 else 10 * Pow10(n - 1)
  }

  predicate IsDigit(c: char) {
    '0' <= c <= '9'
  }

  predicate Digits(t: string) {
    forall i | 0 <= i < |t| :: IsDigit(t[i])
  }

  /** The number that the digits of t make behind num. */
  function Behind(num: nat, t: string): nat
    requires Digits(t)
    decreases |t|
  {
    if t == "" then num else Behind(10 * num + (t[0] as int - '0' as int), t[1..])
  }

  /** The number a text of digits stands for. */
  function Value(t: string): nat
    requires Digits(t)
  {
    Behind(0, t)
  }

  /** t is the way to write n: digits, without leading zeros. */
  ghost predicate IsDecimal(t: string, n: nat) {
    t != "" && Digits(t) && Value(t) == n && (t[0] == '0' ==> |t| == 1)
  }

  // ---- printing as values ----

  datatype Printed = Printed(text: string) | DividedByZero | BeforeStart

  /** div after size rounds of the first loop. */
  function Div(size: nat): int {
    if size == 0 then 1 else Int32(Div(size - 1) * 10)
  }

  /** The first loop: how many rounds find a positive quotient. Div(12) is negative, so twelve are the most. */
  function Size(num: int, size: nat): (r: nat)
    requires size <= 12
    ensures size <= r <= 12
    decreases 12 - size
  {
    if size < 12 && Div(size) != 0 && Quotient(num, Div(size)) > 0 then Size(num, size + 1) else size
  }

  function Fill(n: int, zero: bool): (t: string)
    ensures |t| == if n < 0 then 0 else n
    ensures forall i | 0 <= i < |t| :: t[i] == if zero then '0' else ' '
  {
    if n <= 0 then "" else Fill(n - 1, zero) + [if zero then '0' else ' ']
  }

  /** num -= digit*div */
  function Left(num: int, digit: int, div: int): int {
    Int32(num - Int32(digit * div))
  }

  /** The last loop: one digit a round. */
  function DigitLoop(out: string, num: int, div: int, size: nat): Printed
    decreases size
  {
    if size == 0 then Printed(out)
    else if div == 0 then DividedByZero
    else
      var digit := Quotient(num, div);
      DigitLoop(out + [CharOf('0' as int + digit)], Left(num, digit, div), Quotient(div, 10), size - 1)
  }

  /** Blanks or zeros up to the width, one less for a sign. */
  function Padding(size: nat, neg: bool, zero: bool, spaces: nat): string {
    if size < spaces then Fill(spaces - size - (if neg then 1 else 0), zero) else ""
  }

  /** The number zero goes over the character in front of it. */
  function Number(out: string, num: int, zero: bool, spaces: nat): Printed {
    var n := if num < 0 then Int32(-num) else num;
    var size := Size(n, 0);
    var padded := out + Padding(size, num < 0, zero, spaces);
    if size == 0 && padded == "" then BeforeStart
    else
      var started := if size == 0 then padded[..|padded| - 1] + "0" else padded;
      DigitLoop(if num < 0 then started + "-" else started, n, Quotient(Div(size), 10), size)
  }

  // ---- what is printed ----

  lemma {:induction false} Pow10Grows(a: nat, b: nat)
    requires a <= b
    ensures Pow10(a) <= Pow10(b)
    decreases b
  {
    if a < b {
      Pow10Grows(a, b - 1);
    }
  }

  lemma QuotientIsDigit(n: nat, p: nat)
    requires 0 < p && n < 10 * p
    ensures 0 <= n / p <= 9 && n == (n / p) * p + n % p && 0 <= n % p < p
  {
  }

  /** The first of the size digits of n, and the number the others make. */
  function Lead(n: nat, size: nat): (d: nat)
    requires size > 0 && n < Pow10(size)
    ensures d <= 9
  {
    QuotientIsDigit(n, Pow10(size - 1));
    n / Pow10(size - 1)
  }

  function Trail(n: nat, size: nat): (r: nat)
    requires size > 0 && n < Pow10(size)
    ensures r < Pow10(size - 1) && n == Lead(n, size) * Pow10(size - 1) + r
  {
    QuotientIsDigit(n, Pow10(size - 1));
    n % Pow10(size - 1)
  }

  function DigitChar(d: nat): (c: char)
    requires d <= 9
    ensures IsDigit(c) && c as int == '0' as int + d
  {
    CharOf('0' as int + d)
  }

  /** The size digits of n, most significant first. */
  function Ten(n: nat, size: nat): (t: string)
    requires n < Pow10(size)
    ensures |t| == size && Digits(t)
  {
    if size == 0 then "" else [DigitChar(Lead(n, size))] + Ten(Trail(n, size), size - 1)
  }

  lemma BehindFirst(num: nat, c: char, t: string)
    requires IsDigit(c) && Digits(t)
    ensures Digits([c] + t) && Behind(num, [c] + t) == Behind(10 * num + (c as int - '0' as int), t)
  {
    assert ([c] + t)[1..] == t;
  }

  lemma Scale(num: nat, d: nat, p: nat)
    ensures (10 * num + d) * p == num * (10 * p) + d * p
  {
  }

  lemma {:induction false} TenBehind(num: nat, n: nat, size: nat)
    requires n < Pow10(size)
    ensures Behind(num, Ten(n, size)) == num * Pow10(size) + n
    decreases size
  {
    if size > 0 {
      var p, d, r := Pow10(size - 1), Lead(n, size), Trail(n, size);
      var c := DigitChar(d);
      assert Ten(n, size) == [c] + Ten(r, size - 1) && Pow10(size) == 10 * p && c as int - '0' as int == d;
      hide Behind, Ten, Pow10, DigitChar, Lead, Trail;
      BehindFirst(num, c, Ten(r, size - 1));
      TenBehind(10 * num + d, r, size - 1);
      Scale(num, d, p);
    }
  }

  lemma SizeOfSmall(n: nat)
    requires n < BILLION
    ensures Size(n, 0) <= 9 && n < Pow10(Size(n, 0)) && (n > 0 ==> Size(n, 0) > 0 && Pow10(Size(n, 0) - 1) <= n)
  {
    SizeFrom(n, 0);
  }

  lemma QuotientIs(n: nat, d: int)
    requires d > 0
    ensures Quotient(n, d) == n / d && (Quotient(n, d) > 0 <==> n >= d)
  {
    Division(n, d);
  }

  lemma Division(n: nat, d: nat)
    requires d > 0
    ensures n / d > 0 <==> n >= d
  {
    var q := n / d;
    assert n == q * d + n % d && 0 <= n % d < d;
    if q <= 0 {
      assert q * d <= 0;
    } else {
      assert q * d >= d;
    }
  }

  lemma Powers()
    ensures Pow10(8) == 100000000 && Pow10(9) == BILLION
  {
    assert Pow10(2) == 100;
    assert Pow10(4) == 10000;
    assert Pow10(6) == 1000000;
  }

  lemma {:induction false} DivSmall(k: nat)
    requires k <= 9
    ensures Div(k) == Pow10(k) && Div(k) <= BILLION
    decreases k
  {
    if k > 0 {
      DivSmall(k - 1);
      assert Div(k) == Int32(Div(k - 1) * 10) && Pow10(k) == 10 * Pow10(k - 1);
      hide Div, Pow10, Int32;
      Powers();
      Pow10Grows(k, 9);
    }
  }

  lemma NineDigits()
    ensures Pow10(8) == 100000000 && Pow10(9) == Div(9) == BILLION
  {
    hide Div, Pow10;
    Powers();
    DivSmall(9);
  }

  lemma LargeDivs()
    ensures Div(10) == 1410065408 && Div(11) == 1215752192 && Div(12) == -727379968
  {
    DivSmall(9);
    NineDigits();
    assert Div(10) == Int32(Div(9) * 10);
    assert Div(11) == Int32(Div(10) * 10);
    assert Div(12) == Int32(Div(11) * 10);
  }

  lemma {:induction false} SizeFrom(n: nat, size: nat)
    requires n < BILLION && size <= 9 && (size > 0 ==> Pow10(size - 1) <= n)
    ensures var r := Size(n, size); r <= 9 && n < Pow10(r) && (r > 0 ==> Pow10(r - 1) <= n)
    decreases 9 - size
  {
    hide Div, Pow10, Quotient, Int32;
    DivSmall(size);
    NineDigits();
    QuotientIs(n, Div(size));
    if n >= Pow10(size) {
      SizeFrom(n, size + 1);
    }
  }

  lemma PowerByTen(size: nat)
    requires size > 0
    ensures Quotient(Pow10(size), 10) == Pow10(size - 1)
  {
    QuotientIs(Pow10(size), 10);
  }

  lemma LeftIs(num: nat, d: nat, div: nat, r: nat)
    requires num == d * div + r && num <= MAX_INT
    ensures Left(num, d, div) == r
  {
    var product: nat := d * div;
    assert Int32(product) == product && Int32(num - product) == r;
  }

  lemma LoopRound(out: string, num: nat, div: nat, size: nat, d: nat, r: nat)
    requires size > 0 && div > 0 && Quotient(num, div) == d && num == d * div + r && num <= MAX_INT
    ensures DigitLoop(out, num, div, size) == DigitLoop(out + [CharOf('0' as int + d)], r, Quotient(div, 10), size - 1)
  {
    hide Quotient, CharOf, Left;
    assert Left(num, d, div) == r by { LeftIs(num, d, div, r); }
  }

  lemma DigitLoopStep(out: string, n: nat, size: nat)
    requires 0 < size <= 9 && n < Pow10(size)
    ensures DigitLoop(out, n, Quotient(Pow10(size), 10), size)
      == DigitLoop(out + [DigitChar(Lead(n, size))], Trail(n, size), Quotient(Pow10(size - 1), 10), size - 1)
  {
    var p := Pow10(size - 1);
    assert Lead(n, size) == n / p;
    hide Pow10, Quotient, Div, CharOf, DigitLoop, Lead, Trail;
    PowerByTen(size);
    QuotientIs(n, p);
    DivSmall(size);
    LoopRound(out, n, p, size, Lead(n, size), Trail(n, size));
  }

  lemma TenStep(out: string, n: nat, size: nat)
    requires n < Pow10(size)
    ensures size == 0 ==> forall num, div :: DigitLoop(out, num, div, size) == Printed(out + Ten(n, size))
    ensures size > 0 ==>
      out + Ten(n, size) == out + [DigitChar(Lead(n, size))] + Ten(Trail(n, size), size - 1)
  {
    if size == 0 {
      assert out + "" == out;
    } else {
      var c, r := DigitChar(Lead(n, size)), Trail(n, size);
      hide DigitChar, Lead, Trail, Pow10;
      assert out + ([c] + Ten(r, size - 1)) == out + [c] + Ten(r, size - 1);
    }
  }

  lemma {:induction false} LoopPrintsTen(out: string, n: nat, size: nat)
    requires size <= 9 && n < Pow10(size)
    ensures DigitLoop(out, n, Quotient(Pow10(size), 10), size) == Printed(out + Ten(n, size))
    decreases size
  {
    hide Pow10, Quotient, DigitChar, DigitLoop, Ten, Lead, Trail, Digits;
    TenStep(out, n, size);
    if size > 0 {
      DigitLoopStep(out, n, size);
      LoopPrintsTen(out + [DigitChar(Lead(n, size))], Trail(n, size), size - 1);
    }
  }

  lemma LeadNotZero(n: nat, size: nat)
    requires 0 < size && Pow10(size - 1) <= n < Pow10(size)
    ensures Lead(n, size) > 0 && Ten(n, size) != "" && Ten(n, size)[0] != '0'
  {
    Division(n, Pow10(size - 1));
  }

  lemma TenIsDecimal(n: nat)
    requires 0 < n < BILLION
    ensures n < Pow10(Size(n, 0)) && IsDecimal(Ten(n, Size(n, 0)), n)
  {
    SizeOfSmall(n);
    var size := Size(n, 0);
    hide Behind, Size, Pow10, Ten, Digits;
    TenBehind(0, n, size);
    LeadNotZero(n, size);
  }

  /** Below a billion and not zero, the digits of the number follow the padding and the sign. */
  lemma NumberPrints(out: string, num: int, zero: bool, spaces: nat) returns (t: string)
    requires -BILLION < num < BILLION && num != 0
    ensures IsDecimal(t, if num < 0 then -num else num)
    ensures |t| == Size(if num < 0 then -num else num, 0) && |t| <= 9
    ensures Number(out, num, zero, spaces)
      == Printed(out + Padding(|t|, num < 0, zero, spaces) + (if num < 0 then "-" else "") + t)
  {
    hide Value, Size, Div, Quotient, Pow10, DigitLoop, Ten, IsDecimal, Padding;
    var n: nat := if num < 0 then -num else num;
    var size := Size(n, 0);
    TenIsDecimal(n);
    SizeOfSmall(n);
    t := Ten(n, size);
    DivSmall(size);
    var padded := out + Padding(size, num < 0, zero, spaces);
    LoopPrintsTen(if num < 0 then padded + "-" else padded, n, size);
    assert padded + "" == padded;
  }

  /** Zero needs a width: without one it takes the place of what is in front of it, be it outside the buffer. */
  lemma ZeroPrints(out: string, zero: bool, spaces: nat)
    ensures Number(out, 0, zero, spaces) ==
      if spaces > 0 then Printed(out + Fill(spaces - 1, zero) + "0")
      else if out == "" then BeforeStart
      else Printed(out[..|out| - 1] + "0")
  {
    assert Quotient(0, Div(0)) == 0 && Size(0, 0) == 0;
    var padded := out + Padding(0, false, zero, spaces);
    if spaces > 0 {
      assert Padding(0, false, zero, spaces) == Fill(spaces, zero);
      assert padded[..|padded| - 1] == out + Fill(spaces - 1, zero);
    } else {
      assert padded == out;
    }
  }

  lemma {:induction false} LoopDivides(out: string, n: int, div: int, size: nat, k: nat)
    requires 0 < div + Pow10(k) && div < Pow10(k) && k < size
    ensures DigitLoop(out, n, div, size) == DividedByZero
    decreases k
  {
    if div != 0 {
      assert k > 0;
      QuotientShrinks(div, k);
      var digit := Quotient(n, div);
      LoopDivides(out + [CharOf('0' as int + digit)], Left(n, digit, div), Quotient(div, 10), size - 1, k - 1);
    }
  }

  lemma QuotientShrinks(div: int, k: nat)
    requires 0 < div + Pow10(k) && div < Pow10(k) && k > 0
    ensures 0 < Quotient(div, 10) + Pow10(k - 1) && Quotient(div, 10) < Pow10(k - 1)
  {
  }

  lemma SizeOfLarge(n: nat)
    requires BILLION <= n <= MAX_INT
    ensures Size(n, 0) == if n < 1410065408 then 10 else 12
  {
    hide Div;
    LargeDivs();
    NineDigits();
    SizeReaches(n, 9);
    QuotientIs(n, BILLION);
    QuotientIs(n, 1410065408);
    QuotientIs(n, 1215752192);
    assert Quotient(n, -727379968) <= 0;
    hide Quotient, Div;
    assert Size(n, 9) == Size(n, 10);
    assert n >= 1410065408 ==> Size(n, 10) == Size(n, 11) && Size(n, 11) == Size(n, 12);
  }

  lemma {:induction false} SizeReaches(n: nat, size: nat)
    requires BILLION <= n && size <= 9
    ensures Size(n, 0) == Size(n, size)
    decreases size
  {
    if size > 0 {
      SizeReaches(n, size - 1);
      DivSmall(size - 1);
      QuotientIs(n, Div(size - 1));
      hide Quotient, Div;
    }
  }

  lemma LargeQuotients()
    ensures Quotient(Div(10), 10) == 141006540 && Quotient(Div(12), 10) == -72737996 && Pow10(9) == BILLION
  {
    hide Div, Pow10;
    LargeDivs();
    NineDigits();
  }

  /** From a billion on div has left the 32-bit range, and the last loop divides by zero. */
  lemma LargeDividesByZero(out: string, num: int, zero: bool, spaces: nat)
    requires BILLION <= num <= MAX_INT || -MAX_INT <= num <= -BILLION
    ensures Number(out, num, zero, spaces) == DividedByZero
  {
    hide Size, Div, Quotient, Pow10, DigitLoop, Padding;
    var n := if num < 0 then -num else num;
    SizeOfLarge(n);
    LargeQuotients();
    var padded := out + Padding(Size(n, 0), num < 0, zero, spaces);
    var started := if num < 0 then padded + "-" else padded;
    LoopDivides(started, n, Quotient(Div(Size(n, 0)), 10), Size(n, 0), 9);
  }

  /** The smallest number is its own negation: no digit is found, and the zero and the sign come the wrong way round. */
  lemma SmallestPrints(out: string, zero: bool, spaces: nat)
    ensures Number(out, -MAX_INT - 1, zero, spaces) ==
      if spaces > 1 then Printed(out + Fill(spaces - 2, zero) + "0-")
      else if out == "" then BeforeStart
      else Printed(out[..|out| - 1] + "0-")
  {
    assert Int32(MAX_INT + 1) == -MAX_INT - 1;
    assert Quotient(-MAX_INT - 1, Div(0)) == -MAX_INT - 1 && Size(-MAX_INT - 1, 0) == 0;
    var padded := out + Padding(0, true, zero, spaces);
    hide Quotient, Size, Int32, Div;
    if spaces > 1 {
      assert Padding(0, true, zero, spaces) == Fill(spaces - 1, zero);
      assert padded[..|padded| - 1] == out + Fill(spaces - 2, zero);
      assert padded[..|padded| - 1] + "0" + "-" == out + Fill(spaces - 2, zero) + "0-";
    } else {
      assert padded == out;
      assert out != "" ==> out[..|out| - 1] + "0" + "-" == out[..|out| - 1] + "0-";
    }
  }

  /** The exact limit of the %d conversion: more than nine digits, except for the smallest number. */
  lemma DividesExactly(out: string, num: int, zero: bool, spaces: nat)
    requires -MAX_INT - 1 <= num <= MAX_INT
    ensures Number(out, num, zero, spaces) == DividedByZero <==> num >= BILLION || -MAX_INT <= num <= -BILLION
  {
    hide Number;
    if num == -MAX_INT - 1 {
      SmallestPrints(out, zero, spaces);
    } else if num == 0 {
      ZeroPrints(out, zero, spaces);
    } else if -BILLION < num < BILLION {
      var t := NumberPrints(out, num, zero, spaces);
    } else {
      LargeDividesByZero(out, num, zero, spaces);
    }
  }

  // ---- reading numbers ----

  /** The character at i, which may be the NUL of the string. */
  function At(s: string, i: nat): char
    requires i <= |s|
  {
    if i < |s| then s[i] else NUL
  }

  /** What the loop takes for a digit: the colon is read as ten. */
  predicate TakenForDigit(c: char) {
    0 <= c as int - '0' as int <= 10
  }

  function SkipBlanks(s: string): (n: nat)
    ensures n <= |s| && (forall i | 0 <= i < n :: s[i] == ' ') && At(s, n) != ' '
  {
    if s == "" || s[0] != ' ' then 0 else 1 + SkipBlanks(s[1..])
  }

  /** The loop over the digits; None when it meets anything else. */
  function ReadDigits(s: string, num: int): Option<int>
    decreases |s|
  {
    if s == "" then Some(num)
    else if !TakenForDigit(s[0]) then None
    else ReadDigits(s[1..], Int32(Int32(num * 10) + (s[0] as int - '0' as int)))
  }

  /** What follows the blanks: a sign and the digits. */
  function ReadSigned(t: string): (int, Option<int>) {
    var neg := At(t, 0) == '-';
    var digits := if neg || At(t, 0) == '+' then t[1..] else t;
    match ReadDigits(digits, 0)
    case None => (0, None)
    case Some(n) => (if digits == "" then 0 else 1, Some(if neg then Int32(-n) else n))
  }

  /** The result of rtx_atoi, and what it writes to *num_p. */
  function Atoi(s: string): (int, Option<int>) {
    ReadSigned(s[SkipBlanks(s)..])
  }

  lemma ReadDigitsStep(t: string, num: nat)
    requires t != "" && IsDigit(t[0]) && num < 100000000
    ensures ReadDigits(t, num) == ReadDigits(t[1..], 10 * num + (t[0] as int - '0' as int))
  {
  }

  lemma BehindRound(num: nat, t: string, k: nat)
    requires t != "" && Digits(t) && num < Pow10(k)
    ensures IsDigit(t[0]) && Digits(t[1..])
    ensures
      var next := 10 * num + (t[0] as int - '0' as int);
      Behind(num, t) == Behind(next, t[1..]) && next < Pow10(k + 1)
    ensures k <= 8 ==> num < 100000000
  {
    if k <= 8 {
      Pow10Grows(k, 8);
      NineDigits();
    }
  }

  lemma {:induction false} BehindBounded(num: nat, t: string, k: nat)
    requires Digits(t) && num < Pow10(k)
    ensures Behind(num, t) < Pow10(k + |t|)
    decreases |t|
  {
    if t != "" {
      hide Behind, Pow10, Digits;
      BehindRound(num, t, k);
      BehindBounded(10 * num + (t[0] as int - '0' as int), t[1..], k + 1);
      assert k + 1 + |t[1..]| == k + |t|;
    }
  }

  lemma {:induction false} ReadDigitsBehind(num: nat, t: string, k: nat)
    requires Digits(t) && num < Pow10(k) && k + |t| <= 9
    ensures ReadDigits(t, num) == Some(Behind(num, t))
    decreases |t|
  {
    if t != "" {
      hide Behind, ReadDigits, Pow10, Digits, Int32;
      BehindRound(num, t, k);
      ReadDigitsStep(t, num);
      ReadDigitsBehind(10 * num + (t[0] as int - '0' as int), t[1..], k + 1);
    }
  }

  lemma {:induction false} SkipBlanksIs(blanks: string, rest: string)
    requires (forall i | 0 <= i < |blanks| :: blanks[i] == ' ') && (rest == "" || rest[0] != ' ')
    ensures SkipBlanks(blanks + rest) == |blanks|
    decreases |blanks|
  {
    if blanks == "" {
      assert blanks + rest == rest;
    } else {
      assert (blanks + rest)[1..] == blanks[1..] + rest;
      SkipBlanksIs(blanks[1..], rest);
    }
  }

  lemma ShortDigitsFit(t: string)
    requires t != "" && Digits(t) && |t| <= 9
    ensures ReadDigits(t, 0) == Some(Value(t)) && Value(t) < BILLION
  {
    assert Pow10(0) == 1;
    hide Pow10, Behind, ReadDigits, Div, Digits, Value;
    ReadDigitsBehind(0, t, 0);
    BehindBounded(0, t, 0);
    Pow10Grows(|t|, 9);
    NineDigits();
  }

  lemma SignedReads(neg: bool, t: string)
    requires t != "" && Digits(t) && |t| <= 9
    ensures var n: int := Value(t); ReadSigned((if neg then "-" else "") + t) == (1, Some(if neg then -n else n))
  {
    var rest := (if neg then "-" else "") + t;
    ShortDigitsFit(t);
    assert IsDigit(t[0]) && (!neg ==> rest == t) && (neg ==> rest[1..] == t);
    hide ReadDigits, Value, Digits;
  }

  /** Blanks, a sign and at most nine digits are read as the number they stand for. */
  lemma AtoiReads(blanks: string, neg: bool, t: string)
    requires (forall i | 0 <= i < |blanks| :: blanks[i] == ' ') && t != "" && Digits(t) && |t| <= 9
    ensures
      var n: int := Value(t);
      Atoi(blanks + ((if neg then "-" else "") + t)) == (1, Some(if neg then -n else n))
  {
    var rest := (if neg then "-" else "") + t;
    assert rest[0] != ' ' by { assert IsDigit(t[0]); }
    hide ReadSigned, Value, SkipBlanks, Digits;
    SkipBlanksIs(blanks, rest);
    SignedReads(neg, t);
    assert (blanks + rest)[|blanks|..] == rest;
  }

  lemma WrapIs(x: int) returns (k: int)
    ensures Int32(x) == x + k * 0x1_0000_0000
  {
    k := (Int32(x) - x) / 0x1_0000_0000;
  }

  lemma SameWrap(x: int, k: int)
    ensures Int32(x + k * 0x1_0000_0000) == Int32(x)
  {
    assert (x + k * 0x1_0000_0000) % 0x1_0000_0000 == x % 0x1_0000_0000;
  }

  /** One round of the loop on a number of which only the low 32 bits are kept. */
  lemma RoundWraps(num: int, d: int)
    ensures Int32(Int32(Int32(num) * 10) + d) == Int32(num * 10 + d)
  {
    hide Int32;
    var k := WrapIs(num);
    var m := WrapIs(Int32(num) * 10);
    SameWrap(num * 10 + d, 10 * k + m);
  }

  lemma NegationWraps(num: int)
    ensures Int32(-Int32(num)) == Int32(-num)
  {
    hide Int32;
    var k := WrapIs(num);
    SameWrap(-num, -k);
  }

  /** What a text stands for where any character counts as its distance from '0', a colon as ten. */
  function Worth(num: int, t: string): int
    decreases |t|
  {
    if t == "" then num else Worth(num * 10 + (t[0] as int - '0' as int), t[1..])
  }

  lemma {:induction false} WorthOfDigits(num: nat, t: string)
    requires Digits(t)
    ensures Worth(num, t) == Behind(num, t)
    decreases |t|
  {
    if t != "" {
      WorthOfDigits(10 * num + (t[0] as int - '0' as int), t[1..]);
    }
  }

  predicate DigitsOrColons(t: string) {
    forall i | 0 <= i < |t| :: '0' <= t[i] <= ':'
  }

  lemma {:induction false} DigitsAreRead(t: string, num: int)
    ensures ReadDigits(t, Int32(num)) ==
      if DigitsOrColons(t) then Some(Int32(Worth(num, t))) else None
    decreases |t|
  {
    hide Int32;
    if t != "" {
      assert t == [t[0]] + t[1..];
      if TakenForDigit(t[0]) {
        RoundWraps(num, t[0] as int - '0' as int);
        DigitsAreRead(t[1..], num * 10 + (t[0] as int - '0' as int));
      } else {
        assert !('0' <= t[0] <= ':');
      }
    }
  }

  /** ReadSigned, with its sign and its digits given apart. */
  lemma SignIsRead(sign: string, t: string)
    requires sign in {"", "-", "+"} && (sign == "" && t != "" ==> t[0] !in {'-', '+'})
    ensures ReadSigned(sign + t) ==
      match ReadDigits(t, 0)
      case None => (0, None)
      case Some(n) => (if t == "" then 0 else 1, Some(if sign == "-" then Int32(-n) else n))
  {
    hide ReadDigits, Int32;
    var rest := sign + t;
    assert if sign == "" then rest == t else rest[0] == sign[0] && rest[1..] == t;
  }

  /**
   The whole of rtx_atoi. Behind the blanks and a sign there must be characters, all of them digits or colons; the
   number is what they stand for, with its sign, cut to 32 bits. After no characters it is 0, and the result is 0 too.
   */
  lemma AtoiExactly(blanks: string, sign: string, t: string)
    requires (forall i | 0 <= i < |blanks| :: blanks[i] == ' ') && sign in {"", "-", "+"}
    requires sign == "" && t != "" ==> t[0] !in {' ', '-', '+'}
    ensures Atoi(blanks + (sign + t)) ==
      if DigitsOrColons(t) then
        (if t == "" then 0 else 1, Some(Int32(if sign == "-" then -Worth(0, t) else Worth(0, t))))
      else (0, None)
  {
    hide SkipBlanks, ReadSigned, ReadDigits, Int32, Worth, DigitsOrColons;
    SignIsRead(sign, t);
    assert Int32(0) == 0;
    DigitsAreRead(t, 0);
    NegationWraps(Worth(0, t));
    SkipBlanksIs(blanks, sign + t);
    assert (blanks + (sign + t))[|blanks|..] == sign + t;
  }

  lemma {:induction false} LeadingZeros(n: nat, t: string)
    requires Digits(t)
    ensures Digits(Fill(n, true) + t) && Value(Fill(n, true) + t) == Value(t)
    decreases n
  {
    if n == 0 {
      assert Fill(n, true) + t == t;
    } else {
      var shorter := Fill(n - 1, true) + t;
      assert Fill(n, true) + t == ['0'] + shorter;
      LeadingZeros(n - 1, t);
      BehindFirst(0, '0', shorter);
    }
  }

  lemma {:induction false} MinusIsNoDigit(n: nat, t: string, num: int)
    ensures ReadDigits(Fill(n, true) + ("-" + t), num) == None
    decreases n
  {
    var s := Fill(n, true) + ("-" + t);
    if n == 0 {
      assert s == "-" + t;
    } else {
      assert s[1..] == Fill(n - 1, true) + ("-" + t);
      MinusIsNoDigit(n - 1, t, Int32(Int32(num * 10) + (s[0] as int - '0' as int)));
    }
  }

  lemma AtoiPadded(n: nat, zero: bool, t: string)
    requires t != "" && Digits(t) && n + |t| <= 9
    ensures Atoi(Fill(n, zero) + t) == (1, Some(Value(t)))
  {
    var fill := Fill(n, zero);
    if zero {
      LeadingZeros(n, t);
      AtoiReads("", false, fill + t);
      assert "" + ("" + (fill + t)) == fill + t;
    } else {
      AtoiReads(fill, false, t);
      assert "" + t == t;
    }
  }

  lemma AtoiOfNegative(n: nat, zero: bool, t: string)
    requires t != "" && Digits(t) && |t| <= 9
    ensures
      var v: int := Value(t);
      Atoi(Fill(n, zero) + "-" + t) == if zero && n > 0 then (0, None) else (1, Some(-v))
  {
    var fill := Fill(n, zero);
    assert fill + "-" + t == fill + ("-" + t);
    if zero && n > 0 {
      var s := fill + ("-" + t);
      assert s[0] == '0' && s[SkipBlanks(s)..] == s;
      MinusIsNoDigit(n, t, 0);
    } else {
      AtoiReads(fill, true, t);
    }
  }

  lemma PositiveIsReadBack(num: nat, zero: bool, spaces: nat)
    requires 0 < num < BILLION && spaces <= 9
    ensures var r := Number("", num, zero, spaces); r.Printed? && Atoi(r.text) == (1, Some(num))
  {
    hide Size, Number, Atoi, Digits, Value, Padding;
    var t := NumberPrints("", num, zero, spaces);
    var fill := if |t| < spaces then spaces - |t| else 0;
    AtoiPadded(fill, zero, t);
    PaddingIsFill(|t|, false, zero, spaces);
    assert "" + Padding(|t|, false, zero, spaces) + "" + t == Fill(fill, zero) + t;
  }

  lemma PaddingIsFill(size: nat, neg: bool, zero: bool, spaces: nat)
    ensures Padding(size, neg, zero, spaces)
      == Fill(if size < spaces then spaces - size - (if neg then 1 else 0) else 0, zero)
  {
  }

  lemma NegativeIsReadBack(n: int, zero: bool, spaces: nat)
    requires 0 < n < BILLION && spaces <= 9
    ensures
      var r := Number("", -n, zero, spaces);
      r.Printed? && Atoi(r.text) == if zero && Size(n, 0) + 1 < spaces then (0, None) else (1, Some(-n))
  {
    hide Size, Number, Atoi, Digits, Value, Padding;
    var t := NumberPrints("", -n, zero, spaces);
    var fill := if |t| < spaces then spaces - |t| - 1 else 0;
    AtoiOfNegative(fill, zero, t);
    PaddingIsFill(|t|, true, zero, spaces);
    assert "" + Padding(|t|, true, zero, spaces) + "-" + t == Fill(fill, zero) + "-" + t;
  }

  lemma ZeroIsReadBack(zero: bool, spaces: nat)
    requires 0 < spaces <= 9
    ensures var r := Number("", 0, zero, spaces); r.Printed? && Atoi(r.text) == (1, Some(0))
  {
    hide Number, Atoi;
    ZeroPrints("", zero, spaces);
    assert "" + Fill(spaces - 1, zero) + "0" == Fill(spaces - 1, zero) + "0";
    AtoiPadded(spaces - 1, zero, "0");
  }

  /**
   What %d prints below a billion is read back as the same number, for every width from 1 to 9 and both fillings; with
   the one exception that zeros in front of a minus sign are not a number.
   */
  lemma AtoiInvertsPrint(num: int, zero: bool, spaces: nat)
    requires -BILLION < num < BILLION && spaces <= 9 && (num == 0 ==> spaces > 0)
    ensures
      var r := Number("", num, zero, spaces);
      && r.Printed?
      && (Atoi(r.text) == (1, Some(num)) <==> !(num < 0 && zero && Size(-num, 0) + 1 < spaces))
  {
    hide Number, Atoi, Size;
    if num == 0 {
      ZeroIsReadBack(zero, spaces);
    } else if num > 0 {
      PositiveIsReadBack(num, zero, spaces);
    } else {
      NegativeIsReadBack(-num, zero, spaces);
    }
  }

  // ---- the loops ----

  lemma SizeStep(num: int, size: nat)
    requires size <= 12 && (size > 0 ==> num > 0)
    ensures Div(size) != 0
    ensures Quotient(num, Div(size)) > 0 ==> size < 12 && Size(num, size) == Size(num, size + 1) && num > 0
    ensures Quotient(num, Div(size)) <= 0 ==> Size(num, size) == size
  {
    hide Div, Pow10;
    LargeDivs();
    if size <= 9 {
      DivSmall(size);
    }
    assert num <= 0 ==> size == 0;
  }

  method Measure(num: int) returns (size: nat, div: int)
    ensures size == Size(num, 0) && div == Div(size)
  {
    size, div := 0, 1;
    SizeStep(num, size);
    while Quotient(num, div) > 0
      invariant size <= 12 && div == Div(size) && div != 0 && (size > 0 ==> num > 0)
      invariant Size(num, 0) == Size(num, size)
      decreases 12 - size
    {
      SizeStep(num, size);
      size := size + 1;
      div := Int32(div * 10);
      SizeStep(num, size);
    }
    SizeStep(num, size);
  }

  method PadTo(str: array<char>, start: nat, size: nat, neg: bool, zero: bool, width: nat) returns (j: nat)
    requires start + width <= str.Length
    modifies str
    ensures j == start + |Padding(size, neg, zero, width)| <= start + width
    ensures str[..j] == old(str[..start]) + Padding(size, neg, zero, width)
  {
    j := start;
    if size < width {
      var spaces := width;
      while spaces > size
        invariant size <= spaces <= width && j == start + width - spaces
        invariant str[..j] == old(str[..start]) + Fill(width - spaces, zero)
      {
        str[j] := if zero then '0' else ' ';
        j := j + 1;
        spaces := spaces - 1;
        assert str[..j] == str[..j - 1] + [str[j - 1]];
      }
      if neg {
        j := j - 1;
        assert str[..j] == str[..j + 1][..j];
      }
    }
  }

  method PutDigits(str: array<char>, start: nat, n: int, first: int, digits: nat) returns (ok: bool, j: nat)
    requires start + digits <= str.Length
    modifies str
    ensures start <= j <= start + digits
    ensures DigitLoop(old(str[..start]), n, first, digits) == if ok then Printed(str[..j]) else DividedByZero
  {
    hide CharOf, Quotient, Left;
    var num, div := n, first;
    var size: nat := digits;
    j := start;
    while size > 0
      invariant size <= digits && j == start + digits - size
      invariant DigitLoop(old(str[..start]), n, first, digits) == DigitLoop(str[..j], num, div, size)
    {
      if div == 0 {
        return false, j;
      }
      var digit := Quotient(num, div);
      str[j] := CharOf('0' as int + digit);
      assert str[..j + 1] == str[..j] + [str[j]];
      j := j + 1;
      size := size - 1;
      num := Left(num, digit, div);
      div := Quotient(div, 10);
    }
    return true, j;
  }

  /** The %d conversion, writing behind the first start characters of str. */
  method PrintNumber(str: array<char>, start: nat, param: int, zero: bool, width: nat) returns (ok: bool, j: nat)
    requires start + width + 16 <= str.Length
    modifies str
    ensures j <= start + width + 13
    ensures
      var r := Number(old(str[..start]), param, zero, width);
      ok == r.Printed? && (ok ==> str[..j] == r.text)
  {
    var num := if param < 0 then Int32(-param) else param;
    var size, div := Measure(num);
    div := Quotient(div, 10);
    j := PadTo(str, start, size, param < 0, zero, width);
    if size == 0 {
      if j == 0 {
        return false, 0;
      }
      ghost var padded := str[..j];
      str[j - 1] := '0';
      assert str[..j] == padded[..j - 1] + "0";
    }
    ghost var started := str[..j];
    if param < 0 {
      str[j] := '-';
      j := j + 1;
      assert str[..j] == started + "-";
    }
    ok, j := PutDigits(str, j, num, div, size);
  }

  method ReadFrom(str: string, start: nat) returns (n: Option<int>)
    requires NUL !in str && start <= |str|
    ensures n == ReadDigits(str[start..], 0)
  {
    var i, num := start, 0;
    while At(str, i) != NUL
      invariant start <= i <= |str| && ReadDigits(str[start..], 0) == ReadDigits(str[i..], num)
      decreases |str| - i
    {
      var tmp := At(str, i) as int - '0' as int;
      if tmp < 0 || tmp > 10 {
        return None;
      }
      num := Int32(Int32(num * 10) + tmp);
      i := i + 1;
    }
    n := Some(num);
  }

  method SkipFrom(str: string) returns (i: nat)
    requires NUL !in str
    ensures i == SkipBlanks(str)
  {
    i := 0;
    while At(str, i) == ' '
      invariant i <= |str| && SkipBlanks(str) == i + SkipBlanks(str[i..])
      decreases |str| - i
    {
      i := i + 1;
    }
  }

  method AtoiOf(str: string) returns (ret: int, num: Option<int>)
    requires NUL !in str
    ensures (ret, num) == Atoi(str)
  {
    var i := SkipFrom(str);
    ghost var rest := str[i..];
    var neg := At(str, i) == '-';
    if neg || At(str, i) == '+' {
      i := i + 1;
    }
    hide ReadDigits, SkipBlanks, Int32;
    assert str[i..] == if At(rest, 0) == '-' || At(rest, 0) == '+' then rest[1..] else rest;
    var n := ReadFrom(str, i);
    if n.None? {
      return 0, None;
    }
    ret := if i < |str| then 1 else 0;
    num := Some(if neg then Int32(-n.value) else n.value);
  }
}
