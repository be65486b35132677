/** rtx_sprintf (coldfire/util/src/utils.c). */
module Printf {
  import opened Common
  import opened CStrings
  import opened Numbers

  /** What a parameter points to: a number, or the characters of a string in front of its NUL. */
  datatype Param = Num(num: int) | Chars(chars: string)

  /**
   Undefined: a division by zero, an access outside the buffer, the parameters or the format, or a parameter that does
   not point to what its conversion reads.
   */
  datatype Formatted = Text(text: string) | Null | Undefined

  /** What stands between a percent sign at k and its conversion: the zero flag, the width, and where they end. */
  datatype Flags = Flags(zero: bool, spaces: nat, end: nat)

  function FlagsAt(format: string, k: nat): (f: Flags)
    requires k < |format|
    ensures k < f.end <= |format| && f.spaces < 10 && f.end <= k + 3
  {
    var zero := At(format, k + 1) == '0';
    var k1 := if zero then k + 2 else k + 1;
    var width := At(format, k1) as int - '0' as int;
    if 0 < width < 10 then Flags(zero, width, k1 + 1) else Flags(zero, 0, k1)
  }

  predicate IsNumeric(c: char) {
    c == 'd' || c == 'i' || c == 'u'
  }

  predicate IsConversion(c: char) {
    c == 'c' || c == 's' || IsNumeric(c)
  }

  /** One conversion behind out. A width pads a character on its left and a string, wholly, on its right. */
  function Convert(out: string, c: char, flags: Flags, p: Param): Option<string> {
    if IsNumeric(c) then
      if p.Chars? then None
      else
        match Number(out, p.num, flags.zero, flags.spaces)
        case Printed(text) => Some(text)
        case _ => None
    else if p.Num? then None
    else if c == 'c' then Some(out + Fill(flags.spaces - 1, false) + [At(p.chars, 0)])
    else Some(out + p.chars + Fill(flags.spaces, false))
  }

  /** rtx_sprintf from format[k] and params[i] on, with out written already; None is a NULL parameter. */
  function Format(format: string, params: seq<Option<Param>>, k: nat, i: nat, out: string): Formatted
    requires k <= |format|
    decreases |format| - k
  {
    if k == |format| then Text(out)
    else if format[k] != '%' then Format(format, params, k + 1, i, out + [format[k]])
    else
      var flags := FlagsAt(format, k);
      if i >= |params| then Undefined
      else if params[i].None? then Null
      else if flags.end == |format| then Undefined
      else if !IsConversion(format[flags.end]) then
        Format(format, params, flags.end + 1, i, out + ['%', format[flags.end]])
      else
        match Convert(out, format[flags.end], flags, params[i].value)
        case Some(text) => Format(format, params, flags.end + 1, i + 1, text)
        case None => Undefined
  }

  /** The characters of the strings among the first n parameters. */
  function CharsOf(params: seq<Option<Param>>, n: nat): nat
    requires n <= |params|
  {
    if n == 0 then 0
    else CharsOf(params, n - 1) + match params[n - 1]
      case Some(Chars(t)) => |t|
      case _ => 0
  }

  lemma {:induction false} CharsGrow(params: seq<Option<Param>>, m: nat, n: nat)
    requires m <= n <= |params|
    ensures CharsOf(params, m) <= CharsOf(params, n)
    decreases n
  {
    if m < n {
      CharsGrow(params, m, n - 1);
    }
  }

  // ---- what each conversion prints ----

  function Blanks(n: nat): string {
    seq(n, _ => ' ')
  }

  /** A conversion as it is written: a percent sign, maybe a zero, maybe a width from 1 to 9, and its letter. */
  function Written(zero: bool, width: nat, c: char): string
    requires width < 10
  {
    "%" + (if zero then "0" else "") + (if width > 0 then [('0' as int + width) as char] else "") + [c]
  }

  /** Such a conversion stands at k; the letter is no digit. */
  predicate ConversionAt(format: string, k: nat, zero: bool, width: nat, c: char) {
    && width < 10 && !('0' <= c <= '9') && k + |Written(zero, width, c)| <= |format|
    && format[k..k + |Written(zero, width, c)|] == Written(zero, width, c)
  }

  lemma FlagsOf(format: string, k: nat, zero: bool, width: nat, c: char)
    requires ConversionAt(format, k, zero, width, c)
    ensures k < |format| && format[k] == '%'
    ensures var end := k + |Written(zero, width, c)| - 1;
      end < |format| && format[end] == c && FlagsAt(format, k) == Flags(zero, width, end)
  {
    var w := Written(zero, width, c);
    assert forall j | 0 <= j < |w| :: format[k + j] == w[j];
  }

  lemma FillIsBlanks(n: int)
    ensures Fill(n, false) == Blanks(if n < 0 then 0 else n)
  {
  }

  lemma FormatStep(format: string, params: seq<Option<Param>>, k: nat, i: nat, out: string)
    requires k < |format|
    ensures format[k] != '%' ==>
      Format(format, params, k, i, out) == Format(format, params, k + 1, i, out + [format[k]])
    ensures format[k] == '%' ==>
      var flags := FlagsAt(format, k);
      Format(format, params, k, i, out) ==
        if i >= |params| then Undefined
        else if params[i].None? then Null
        else if flags.end == |format| then Undefined
        else if !IsConversion(format[flags.end]) then
          Format(format, params, flags.end + 1, i, out + ['%', format[flags.end]])
        else
          match Convert(out, format[flags.end], flags, params[i].value)
          case Some(text) => Format(format, params, flags.end + 1, i + 1, text)
          case None => Undefined
  {
    hide FlagsAt, Convert;
  }

  /** %s prints the string, and as many blanks behind it as the width says. */
  lemma StringPrints(format: string, params: seq<Option<Param>>, k: nat, i: nat, out: string, zero: bool, width: nat,
                     t: string)
    requires ConversionAt(format, k, zero, width, 's') && i < |params| && params[i] == Some(Chars(t))
    ensures Format(format, params, k, i, out)
      == Format(format, params, k + |Written(zero, width, 's')|, i + 1, out + t + Blanks(width))
  {
    hide FlagsAt, Written, ConversionAt, Format, Fill, Blanks;
    FlagsOf(format, k, zero, width, 's');
    FillIsBlanks(width);
    FormatStep(format, params, k, i, out);
  }

  /** %c prints the first character of the string, filled up to the width with blanks in front. */
  lemma CharPrints(format: string, params: seq<Option<Param>>, k: nat, i: nat, out: string, zero: bool, width: nat,
                   t: string)
    requires ConversionAt(format, k, zero, width, 'c') && i < |params| && params[i] == Some(Chars(t))
    ensures
      var c := if t == "" then NUL else t[0];
      Format(format, params, k, i, out)
        == Format(format, params, k + |Written(zero, width, 'c')|, i + 1,
                  out + Blanks(if width > 1 then width - 1 else 0) + [c])
  {
    hide FlagsAt, Written, ConversionAt, Format, Fill, Blanks;
    FlagsOf(format, k, zero, width, 'c');
    FillIsBlanks(width - 1);
    FormatStep(format, params, k, i, out);
  }

  /** %d, %i and %u all print the number as %d does. */
  lemma NumberIsPrinted(format: string, params: seq<Option<Param>>, k: nat, i: nat, out: string, zero: bool, width: nat,
                        c: char, n: int)
    requires c in {'d', 'i', 'u'} && ConversionAt(format, k, zero, width, c)
    requires i < |params| && params[i] == Some(Num(n))
    ensures Format(format, params, k, i, out) ==
      match Number(out, n, zero, width)
      case Printed(text) => Format(format, params, k + |Written(zero, width, c)|, i + 1, text)
      case _ => Undefined
  {
    hide FlagsAt, Written, ConversionAt, Format, Number;
    FlagsOf(format, k, zero, width, c);
    FormatStep(format, params, k, i, out);
  }

  /** With any other letter the percent sign and the letter are printed, and the parameter is kept for the next one. */
  lemma OtherLetterPrints(format: string, params: seq<Option<Param>>, k: nat, i: nat, out: string, zero: bool,
                          width: nat, c: char)
    requires c !in {'c', 's', 'd', 'i', 'u'} && ConversionAt(format, k, zero, width, c)
    requires i < |params| && params[i].Some?
    ensures Format(format, params, k, i, out)
      == Format(format, params, k + |Written(zero, width, c)|, i, out + ['%', c])
  {
    hide FlagsAt, Written, ConversionAt, Format, Convert;
    FlagsOf(format, k, zero, width, c);
    FormatStep(format, params, k, i, out);
  }

  /** A NULL parameter ends it, whatever the letter. */
  lemma NullEndsIt(format: string, params: seq<Option<Param>>, k: nat, i: nat, out: string)
    requires k < |format| && format[k] == '%' && i < |params| && params[i].None?
    ensures Format(format, params, k, i, out) == Null
  {
  }

  /** Everything else is copied, up to the end. */
  lemma CharacterIsCopied(format: string, params: seq<Option<Param>>, k: nat, i: nat, out: string)
    requires k < |format| && format[k] != '%'
    ensures Format(format, params, k, i, out) == Format(format, params, k + 1, i, out + [format[k]])
  {
  }

  /** For example. */
  lemma HelloIsPrinted()
    ensures Format("<%s>%3c", [Some(Chars("hello")), Some(Chars("xyz"))], 0, 0, "") == Text("<hello>  x")
  {
    var (f, p) := ("<%s>%3c", [Some(Chars("hello")), Some(Chars("xyz"))]);
    CharacterIsCopied(f, p, 0, 0, "");
    StringPrints(f, p, 1, 0, "" + [f[0]], false, 0, "hello");
    CharacterIsCopied(f, p, 3, 1, "" + [f[0]] + "hello" + Blanks(0));
    CharPrints(f, p, 4, 1, "" + [f[0]] + "hello" + Blanks(0) + [f[3]], false, 3, "xyz");
    hide FlagsAt, Convert;
  }

  // ---- the loops ----

  method PutChar(str: array<char>, start: nat, c: char, width: nat) returns (j: nat)
    requires start + width + 1 <= str.Length
    modifies str
    ensures j <= start + width + 1
    ensures str[..j] == old(str[..start]) + Fill(width - 1, false) + [c]
  {
    var spaces := width;
    j := start;
    while spaces > 1
      invariant spaces <= width && j == start + (if width > 1 then width - spaces else 0) && (width > 1 ==> spaces >= 1)
      invariant str[..j] == old(str[..start]) + Fill(j - start, false)
    {
      str[j] := ' ';
      j := j + 1;
      spaces := spaces - 1;
      assert str[..j] == str[..j - 1] + [str[j - 1]];
    }
    str[j] := c;
    j := j + 1;
    assert str[..j] == str[..j - 1] + [str[j - 1]];
  }

  method PutText(str: array<char>, start: nat, text: string, width: nat) returns (j: nat)
    requires NUL !in text && start + |text| + width <= str.Length
    modifies str
    ensures j == start + |text| + width
    ensures str[..j] == old(str[..start]) + text + Fill(width, false)
  {
    j := start;
    var t := 0;
    while At(text, t) != NUL
      invariant t <= |text| && j == start + t
      invariant str[..j] == old(str[..start]) + text[..t]
      decreases |text| - t
    {
      str[j] := At(text, t);
      j, t := j + 1, t + 1;
      assert str[..j] == str[..j - 1] + [str[j - 1]];
    }
    for x := 0 to width
      invariant j == start + |text| + x
      invariant str[..j] == old(str[..start]) + text + Fill(x, false)
    {
      str[j] := ' ';
      j := j + 1;
      assert str[..j] == str[..j - 1] + [str[j - 1]];
    }
  }

  method PutConversion(str: array<char>, start: nat, c: char, flags: Flags, p: Param) returns (ok: bool, j: nat)
    requires p.Chars? ==> NUL !in p.chars
    requires start + flags.spaces + 16 + (if p.Chars? then |p.chars| else 0) <= str.Length
    modifies str
    ensures j <= start + flags.spaces + 13 + (if p.Chars? then |p.chars| else 0)
    ensures
      var r := Convert(old(str[..start]), c, flags, p);
      ok == r.Some? && (ok ==> str[..j] == r.value)
  {
    hide Number;
    ok, j := true, start;
    if IsNumeric(c) {
      if p.Chars? {
        return false, start;
      }
      ok, j := PrintNumber(str, start, p.num, flags.zero, flags.spaces);
    } else if p.Num? {
      return false, start;
    } else if c == 'c' {
      j := PutChar(str, start, At(p.chars, 0), flags.spaces);
    } else {
      j := PutText(str, start, p.chars, flags.spaces);
    }
  }

  lemma FormatEnds(format: string, params: seq<Option<Param>>, i: nat, out: string)
    ensures Format(format, params, |format|, i, out) == Text(out)
  {
  }

  /** Room for 13 characters a character of the format, for the strings, and for one conversion more. */
  ghost predicate Roomy(str: array<char>, format: string, params: seq<Option<Param>>) {
    str.Length >= 13 * |format| + 32 + CharsOf(params, |params|)
  }

  predicate Terminated(params: seq<Option<Param>>) {
    forall p | p in params && p.Some? && p.value.Chars? :: NUL !in p.value.chars
  }

  /** A percent sign at k: the result, if rtx_sprintf ends here, and otherwise where it goes on. */
  method PutPercent(str: array<char>, format: string, params: seq<Option<Param>>, start: nat, k: nat, i: nat)
    returns (end: Option<Formatted>, j: nat, k': nat, i': nat)
    requires k < |format| && format[k] == '%' && i <= |params| && start <= 13 * k + CharsOf(params, i)
    requires Roomy(str, format, params) && Terminated(params) && start <= str.Length
    modifies str
    ensures k < k' <= |format| && i' <= |params| && j <= 13 * k' + CharsOf(params, i') && j <= str.Length
    ensures Format(format, params, k, i, old(str[..start]))
      == if end.Some? then end.value else Format(format, params, k', i', str[..j])
    ensures end.Some? ==> !end.value.Text?
  {
    hide FlagsAt, Convert, Format;
    FormatStep(format, params, k, i, str[..start]);
    CharsGrow(params, i, |params|);
    var flags := FlagsAt(format, k);
    end, j, k', i' := None, start, |format|, i;
    if i >= |params| {
      end := Some(Undefined);
    } else if params[i].None? {
      end := Some(Null);
    } else if flags.end == |format| {
      end := Some(Undefined);
    } else if IsConversion(format[flags.end]) {
      CharsGrow(params, i + 1, |params|);
      var ok;
      ok, j := PutConversion(str, start, format[flags.end], flags, params[i].value);
      k', i' := flags.end + 1, i + 1;
      if !ok {
        end := Some(Undefined);
      }
    } else {
      str[start], str[start + 1] := '%', format[flags.end];
      assert str[..start + 2] == str[..start] + ['%', format[flags.end]];
      j, k' := start + 2, flags.end + 1;
    }
  }

  /** The main loop, over a buffer that is large enough. */
  method Sprintf(str: array<char>, format: string, params: seq<Option<Param>>) returns (r: Formatted)
    requires NUL !in format && Roomy(str, format, params) && Terminated(params)
    modifies str
    ensures r == Format(format, params, 0, 0, "")
    ensures r.Text? ==> |r.text| < str.Length && str[..|r.text|] == r.text && str[|r.text|] == NUL
  {
    var i: nat, j: nat, k: nat := 0, 0, 0;
    hide Format, Terminated, CharsOf;
    while At(format, k) != NUL
      invariant k <= |format| && i <= |params| && j <= 13 * k + CharsOf(params, i) && j <= str.Length
      invariant Format(format, params, 0, 0, "") == Format(format, params, k, i, str[..j])
      decreases |format| - k
    {
      CharsGrow(params, i, |params|);
      if format[k] == '%' {
        var end;
        end, j, k, i := PutPercent(str, format, params, j, k, i);
        if end.Some? {
          return end.value;
        }
      } else {
        FormatStep(format, params, k, i, str[..j]);
        str[j] := format[k];
        assert str[..j + 1] == str[..j] + [format[k]];
        j, k := j + 1, k + 1;
      }
    }
    CharsGrow(params, i, |params|);
    FormatEnds(format, params, i, str[..j]);
    str[j] := NUL;
    r := Text(str[..j]);
  }
}
