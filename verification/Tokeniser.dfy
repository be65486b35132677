/** rtx_strtok with rtx_strcpy and _findChar (coldfire/util/src/utils.c). */
module Tokeniser {
  import opened Common
  import opened CStrings

  const COPY_SIZE := 1024
  const STR_SIZE := 100

  // ---- tokens as values ----

  /** The first place from i on that holds no delimiter. */
  function Skip(s: string, delimiters: string, i: nat): (a: nat)
    requires i <= |s|
    ensures i <= a <= |s| && (a < |s| ==> s[a] !in delimiters)
    ensures forall k | i <= k < a :: s[k] in delimiters
    decreases |s| - i
  {
    if i == |s| || s[i] !in delimiters then i else Skip(s, delimiters, i + 1)
  }

  /** The first place from i on that holds a delimiter. */
  function Run(s: string, delimiters: string, i: nat): (b: nat)
    requires i <= |s|
    ensures i <= b <= |s| && (b < |s| ==> s[b] in delimiters)
    ensures forall k | i <= k < b :: s[k] !in delimiters
    decreases |s| - i
  {
    if i == |s| || s[i] in delimiters then i else Run(s, delimiters, i + 1)
  }

  datatype Span = Span(start: nat, end: nat)

  /** What a call that starts at i takes. */
  function Next(s: string, delimiters: string, i: nat): (t: Span)
    requires i <= |s|
    ensures i <= t.start <= t.end <= |s|
  {
    var a := Skip(s, delimiters, i);
    Span(a, Run(s, delimiters, a))
  }

  /** Where n calls get from i. */
  function Reached(s: string, delimiters: string, i: nat, n: nat): (r: nat)
    requires i <= |s|
    ensures r <= |s|
  {
    if n == 0 then i else Next(s, delimiters, Reached(s, delimiters, i, n - 1)).end
  }

  /** What call number n returns. */
  function Returned(s: string, delimiters: string, n: nat): string {
    var t := Next(s, delimiters, Reached(s, delimiters, 0, n));
    s[t.start..t.end]
  }

  // ---- what tokens are ----

  /** t is a run without delimiters that cannot be made longer. */
  ghost predicate Maximal(s: string, delimiters: string, t: Span) {
    && t.start < t.end <= |s|
    && (forall i | t.start <= i < t.end :: s[i] !in delimiters)
    && (t.start == 0 || s[t.start - 1] in delimiters) && (t.end == |s| || s[t.end] in delimiters)
  }

  /** tokens are the maximal runs of s, from left to right. */
  ghost predicate AreTokens(s: string, delimiters: string, tokens: seq<Span>) {
    && (forall i, j | 0 <= i < j < |tokens| :: tokens[i].end < tokens[j].start)
    && (forall t: Span :: t in tokens <==> Maximal(s, delimiters, t))
  }

  /** The tokens from i on, up to the first empty one. */
  function Spans(s: string, delimiters: string, i: nat): seq<Span>
    requires i <= |s|
    decreases |s| - i
  {
    var t := Next(s, delimiters, i);
    if t.start == t.end then [] else [t] + Spans(s, delimiters, t.end)
  }

  lemma NextIsMaximal(s: string, delimiters: string, i: nat)
    requires i <= |s| && (i == 0 || i == |s| || s[i] in delimiters)
    ensures
      var t := Next(s, delimiters, i);
      if t.start == t.end then t.end == |s| && forall u: Span | i <= u.start :: !Maximal(s, delimiters, u)
      else
        && Maximal(s, delimiters, t) && (t.end == |s| || s[t.end] in delimiters)
        && forall u: Span | i <= u.start && Maximal(s, delimiters, u) :: u == t || t.end < u.start
  {
    var t := Next(s, delimiters, i);
    forall u: Span | i <= u.start && Maximal(s, delimiters, u)
      ensures t.start < t.end && (u == t || t.end < u.start)
    {
      assert s[u.start] !in delimiters && s[u.end - 1] !in delimiters;
      assert u.start >= t.start;
      if u.start == t.start {
        assert u.end <= t.end;
      } else {
        assert s[u.start - 1] in delimiters;
      }
    }
  }

  lemma {:induction false} SpansAreMaximal(s: string, delimiters: string, i: nat)
    requires i <= |s| && (i == 0 || i == |s| || s[i] in delimiters)
    ensures
      var spans := Spans(s, delimiters, i);
      && (forall j, k | 0 <= j < k < |spans| :: spans[j].end < spans[k].start)
      && (forall t: Span :: t in spans <==> i <= t.start && Maximal(s, delimiters, t))
    decreases |s| - i
  {
    NextIsMaximal(s, delimiters, i);
    var t := Next(s, delimiters, i);
    hide Next, Maximal;
    if t.start != t.end {
      SpansAreMaximal(s, delimiters, t.end);
      var later := Spans(s, delimiters, t.end);
      assert Spans(s, delimiters, i) == [t] + later;
      forall j | 0 <= j < |later|
        ensures t.end < later[j].start
      {
        assert later[j] in later;
      }
    }
  }

  lemma {:induction false} ReachedFirst(s: string, delimiters: string, i: nat, n: nat)
    requires i <= |s|
    ensures Reached(s, delimiters, i, n + 1) == Reached(s, delimiters, Next(s, delimiters, i).end, n)
    decreases n
  {
    hide Next;
    if n > 0 {
      ReachedFirst(s, delimiters, i, n - 1);
    }
  }

  lemma NothingLeft(s: string, delimiters: string)
    ensures Spans(s, delimiters, |s|) == []
  {
  }

  /** Calls go through the spans one by one, and stay at the end. */
  lemma {:induction false} CallsFollowSpans(s: string, delimiters: string, i: nat, n: nat)
    requires i <= |s| && (i == 0 || i == |s| || s[i] in delimiters)
    ensures
      var (spans, t) := (Spans(s, delimiters, i), Next(s, delimiters, Reached(s, delimiters, i, n)));
      if n < |spans| then t == spans[n] else t.start == t.end == |s|
    decreases n
  {
    hide Maximal, Skip, Run, Next;
    NextIsMaximal(s, delimiters, i);
    var t := Next(s, delimiters, i);
    assert t.start != t.end ==> Spans(s, delimiters, i) == [t] + Spans(s, delimiters, t.end);
    if n > 0 {
      ReachedFirst(s, delimiters, i, n - 1);
      CallsFollowSpans(s, delimiters, t.end, n - 1);
      hide Spans, Reached;
      if t.start == t.end {
        NothingLeft(s, delimiters);
      }
    }
  }

  /** Call number n returns token number n, or the empty string. */
  ghost predicate CallReturns(s: string, delimiters: string, tokens: seq<Span>, n: nat) {
    if n < |tokens| then
      tokens[n].start <= tokens[n].end <= |s| && Returned(s, delimiters, n) == s[tokens[n].start..tokens[n].end]
    else
      Returned(s, delimiters, n) == ""
  }

  lemma SpansAreReturned(s: string, delimiters: string, n: nat)
    ensures CallReturns(s, delimiters, Spans(s, delimiters, 0), n)
  {
    hide Spans, Next, Reached;
    CallsFollowSpans(s, delimiters, 0, n);
  }

  /**
   For every string and set of delimiters: the calls return the maximal runs of characters that are no delimiters,
   from left to right, and after the last one the empty string for ever.
   */
  lemma CallsReturnTokens(s: string, delimiters: string) returns (tokens: seq<Span>)
    ensures AreTokens(s, delimiters, tokens)
    ensures forall n: nat :: CallReturns(s, delimiters, tokens, n)
  {
    hide Spans, CallReturns, Maximal;
    tokens := Spans(s, delimiters, 0);
    SpansAreMaximal(s, delimiters, 0);
    forall n: nat
      ensures CallReturns(s, delimiters, tokens, n)
    {
      SpansAreReturned(s, delimiters, n);
    }
  }

  // ---- the functions in place ----

  /** The character of a C string at i, which may be its NUL. */
  function At(s: string, i: nat): char
    requires i <= |s|
  {
    if i < |s| then s[i] else NUL
  }

  function Found(ch: char, str: Option<string>): int {
    if str.None? then -1 else if ch in str.value then 1 else 0
  }

  method FindChar(ch: char, str: Option<string>) returns (found: int)
    requires str.Some? ==> NUL !in str.value
    ensures found == if str.None? then -1 else if exists i | 0 <= i < |str.value| :: str.value[i] == ch then 1 else 0
    ensures found == Found(ch, str)
  {
    if str.None? {
      return -1;
    }
    var i := 0;
    while At(str.value, i) != NUL
      invariant i <= |str.value| && ch !in str.value[..i]
      decreases |str.value| - i
    {
      if ch == At(str.value, i) {
        return 1;
      }
      i := i + 1;
    }
    return 0;
  }

  lemma RunStep(s: string, delimiters: Option<string>, i: nat)
    requires i < |s| && Found(s[i], delimiters) == 0
    ensures delimiters.Some? && Run(s, delimiters.value, i) == Run(s, delimiters.value, i + 1)
  {
  }

  /** The characters rtx_strcpy takes: one more than the size it is given. */
  function Cut(s: string, size: nat): string {
    if |s| <= size + 1 then s else s[..size + 1]
  }

  method Strcpy(str: array<char>, cpyStr: string, strSize: nat)
    requires NUL !in cpyStr && strSize + 1 < str.Length
    modifies str
    ensures
      var n := if |cpyStr| < strSize + 1 then |cpyStr| else strSize + 1;
      str[..n] == cpyStr[..n] && str[n] == NUL
  {
    var i := 0;
    while At(cpyStr, i) != NUL
      invariant i <= |Cut(cpyStr, strSize)| && str[..i] == cpyStr[..i]
      decreases |cpyStr| - i
    {
      if strSize > i - 1 {
        str[i] := At(cpyStr, i);
      } else {
        break;
      }
      i := i + 1;
    }
    str[i] := NUL;
  }

  /** The static variables of rtx_strtok; text is what copy holds. */
  class Saved {
    const copy: array<char>
    var i: nat
    ghost var text: string

    ghost predicate Valid()
      reads this, copy
    {
      && copy.Length == COPY_SIZE && |text| <= STR_SIZE + 1 && NUL !in text && i <= |text|
      && copy[..|text|] == text && copy[|text|] == NUL
    }

    constructor ()
      ensures Valid() && text == "" && i == 0 && fresh(copy)
    {
      i, text := 0, "";
      copy := new char[COPY_SIZE](_ => NUL);
    }

    method Start(str: string)
      requires Valid() && NUL !in str
      modifies this, copy
      ensures Valid() && text == Cut(str, STR_SIZE) && i == 0
    {
      Strcpy(copy, str, STR_SIZE);
      i, text := 0, Cut(str, STR_SIZE);
    }

    method SkipLeading(delimiters: Option<string>)
      requires Valid() && (delimiters.Some? ==> NUL !in delimiters.value)
      modifies `i
      ensures Valid() && i == if delimiters.Some? then Skip(text, delimiters.value, old(i)) else old(i)
    {
      var found := FindChar(copy[i], delimiters);
      while found == 1
        invariant Valid() && found == Found(copy[i], delimiters)
        invariant delimiters.Some? ==> Skip(text, delimiters.value, old(i)) == Skip(text, delimiters.value, i)
        invariant delimiters.None? ==> i == old(i)
        decreases |text| - i
      {
        assert i < |text| && copy[i] == text[i];
        i := (i + 1) % 256;
        found := FindChar(copy[i], delimiters);
      }
    }

    method CopyRun(ret: array<char>, delimiters: Option<string>)
      requires Valid() && ret != copy && ret.Length > STR_SIZE + 1
      requires delimiters.Some? ==> NUL !in delimiters.value
      modifies `i, ret
      ensures Valid() && i == if delimiters.Some? then Run(text, delimiters.value, old(i)) else old(i)
      ensures ret[..i - old(i)] == text[old(i)..i] && ret[i - old(i)] == NUL
    {
      hide Run, Skip;
      var j := 0;
      var found := FindChar(copy[i], delimiters);
      while copy[i] != NUL && found == 0
        invariant Valid() && old(i) <= i && found == Found(copy[i], delimiters)
        invariant delimiters.Some? ==> Run(text, delimiters.value, old(i)) == Run(text, delimiters.value, i)
        invariant delimiters.None? ==> i == old(i)
        invariant j == i - old(i) && ret[..j] == text[old(i)..i]
        decreases |text| - i
      {
        RunStep(text, delimiters, i);
        assert (i + 1) % 256 == i + 1 && (j + 1) % 256 == j + 1;
        ret[j] := copy[i];
        i := (i + 1) % 256;
        j := (j + 1) % 256;
        found := FindChar(copy[i], delimiters);
      }
      ret[j] := NUL;
    }

    method Strtok(str: Option<string>, ret: array<char>, delimiters: Option<string>)
      requires Valid() && ret != copy && ret.Length > STR_SIZE + 1
      requires (str.Some? ==> NUL !in str.value) && (delimiters.Some? ==> NUL !in delimiters.value)
      modifies this, copy, ret
      ensures Valid() && text == if str.Some? then Cut(str.value, STR_SIZE) else old(text)
      ensures
        var start := if str.Some? then 0 else old(i);
        var t := if delimiters.Some? then Next(text, delimiters.value, start) else Span(start, start);
        && ret[..t.end - t.start] == text[t.start..t.end] && ret[t.end - t.start] == NUL
        && i == t.end
    {
      if str.Some? {
        Start(str.value);
      }
      SkipLeading(delimiters);
      CopyRun(ret, delimiters);
    }

    /** One call, with the token it leaves in ret; n calls for the same string have come before it. */
    method NextToken(str: string, ret: array<char>, delimiters: string, n: nat) returns (token: string)
      requires Valid() && ret != copy && ret.Length > STR_SIZE + 1 && NUL !in str && NUL !in delimiters
      requires n > 0 ==> text == Cut(str, STR_SIZE) && i == Reached(text, delimiters, 0, n)
      modifies this, copy, ret
      ensures Valid() && text == Cut(str, STR_SIZE) && i == Reached(text, delimiters, 0, n + 1)
      ensures token == Returned(text, delimiters, n)
    {
      hide Next, Skip, Run;
      Strtok(if n == 0 then Some(str) else None, ret, Some(delimiters));
      ghost var t := Next(text, delimiters, Reached(text, delimiters, 0, n));
      TextIs(ret[..], t.end - t.start);
      token := TextOf(ret[..]);
    }

    /** The first call with the string and n - 1 more with NULL return the first n tokens, empty ones after the last. */
    method Tokens(str: string, ret: array<char>, delimiters: string, n: nat) returns (tokens: seq<string>)
      requires Valid() && ret != copy && ret.Length > STR_SIZE + 1 && NUL !in str && NUL !in delimiters
      modifies this, copy, ret
      ensures Valid() && |tokens| == n
      ensures forall k | 0 <= k < n :: tokens[k] == Returned(Cut(str, STR_SIZE), delimiters, k)
    {
      hide Returned, Reached;
      tokens := [];
      while |tokens| < n
        invariant Valid() && |tokens| <= n
        invariant tokens != [] ==>
          text == Cut(str, STR_SIZE) && i == Reached(text, delimiters, 0, |tokens|)
        invariant forall k | 0 <= k < |tokens| :: tokens[k] == Returned(Cut(str, STR_SIZE), delimiters, k)
      {
        var token := NextToken(str, ret, delimiters, |tokens|);
        tokens := tokens + [token];
      }
    }
  }
}
