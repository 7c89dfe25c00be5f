/** The string operations the pages apply to user text: JavaScript's
    `String.prototype.trim`, the `\s` character class, and
    `split(/\s+/)`.  Strings are sequences of Unicode scalar values; the
    lone surrogates a JavaScript string may hold are not represented, and
    since none of them is whitespace, trim and split treat them like any
    other non-whitespace character. */
module Text {

  /** ECMAScript WhiteSpace and LineTerminator code points: the set that
      both `\s` and `trim` recognise. */
  predicate IsSpace(c: char) {
    c == '\t' || c == '\n' || c == '\U{000B}' || c == '\U{000C}' || c == '\r' ||
    c == ' ' || c == '\U{00A0}' || c == '\U{1680}' ||
    ('\U{2000}' <= c <= '\U{200A}') ||
    c == '\U{2028}' || c == '\U{2029}' || c == '\U{202F}' || c == '\U{205F}' ||
    c == '\U{3000}' || c == '\U{FEFF}'
  }

  predicate AllSpace(s: string) {
    forall k :: 0 <= k < |s| ==> IsSpace(s[k])
  }

  predicate NoSpace(s: string) {
    forall k :: 0 <= k < |s| ==> !IsSpace(s[k])
  }

  /** `s` with its leading whitespace removed. */
  function TrimStart(s: string): (t: string)
    ensures |t| <= |s| && t == s[|s| - |t|..]
    ensures AllSpace(s[..|s| - |t|])
    ensures t == [] || !IsSpace(t[0])
  {
    if s == [] || !IsSpace(s[0]) then s
    else
      var t := TrimStart(s[1..]);
      assert s[..|s| - |t|] == [s[0]] + s[1..][..|s| - 1 - |t|];
      t
  }

  /** `s` with its trailing whitespace removed. */
  function TrimEnd(s: string): (t: string)
    ensures |t| <= |s| && t == s[..|t|]
    ensures AllSpace(s[|t|..])
    ensures t == [] || !IsSpace(t[|t| - 1])
  {
    if s == [] || !IsSpace(s[|s| - 1]) then s
    else
      var t := TrimEnd(s[..|s| - 1]);
      assert s[|t|..] == s[..|s| - 1][|t|..] + [s[|s| - 1]];
      t
  }

  /** Non-empty, with no whitespace at either end. */
  predicate Filled(t: string) {
    t != [] && !IsSpace(t[0]) && !IsSpace(t[|t| - 1])
  }

  /** `s.trim()`.  It is empty exactly when `s` is whitespace only, and
      otherwise starts and ends with a non-whitespace character;
      TrimSplits shows that it is what lies between the leading and the
      trailing whitespace of `s`. */
  function Trim(s: string): (t: string)
    ensures t == [] || Filled(t)
    ensures t == [] <==> AllSpace(s)
  {
    TrimComposes(s, TrimStart(s), TrimEnd(TrimStart(s)));
    TrimEnd(TrimStart(s))
  }

  lemma TrimComposes(s: string, u: string, t: string)
    requires u == TrimStart(s) && t == TrimEnd(u)
    ensures t == [] || Filled(t)
    ensures t == [] <==> AllSpace(s)
  {
    SliceOfSuffix(s, u, t);
    if t == [] {
      AllSpaceConcat(s[..|s| - |u|], u);
    } else {
      assert t[0] == u[0];
    }
  }

  /** `s` is its leading whitespace, then `s.trim()`, then its trailing
      whitespace. */
  lemma {:induction false} TrimSplits(s: string) returns (lead: string, trail: string)
    ensures s == lead + Trim(s) + trail
    ensures AllSpace(lead) && AllSpace(trail)
  {
    var u := TrimStart(s);
    var t := TrimEnd(u);
    SliceOfSuffix(s, u, t);
    lead := s[..|s| - |u|];
    trail := u[|t|..];
  }

  /** Slicing facts about a prefix `t` of a suffix `u` of `s`, kept apart
      from the definitions of the trimming functions. */
  lemma SliceOfSuffix(s: string, u: string, t: string)
    requires |u| <= |s| && u == s[|s| - |u|..] && |t| <= |u| && t == u[..|t|]
    ensures s == s[..|s| - |u|] + u
    ensures s == s[..|s| - |u|] + t + u[|t|..]
  {
    assert u == t + u[|t|..];
  }

  lemma AllSpaceConcat(a: string, b: string)
    requires AllSpace(a) && AllSpace(b)
    ensures AllSpace(a + b)
  {
  }

  /** `!s.trim()`: the form-validation test for a blank field. */
  predicate IsBlank(s: string) {
    Trim(s) == []
  }

  /** Index of the first whitespace character of `s`, or `|s|` if none. */
  function FirstSpace(s: string): (i: nat)
    ensures i <= |s|
    ensures i < |s| ==> IsSpace(s[i])
    ensures NoSpace(s[..i])
  {
    if s == [] || IsSpace(s[0]) then 0
    else
      var j := FirstSpace(s[1..]);
      assert s[..1 + j] == [s[0]] + s[1..][..j];
      1 + j
  }

  /** `s.split(/\s+/)`: the pieces between maximal runs of whitespace.
      A leading (trailing) run yields an empty first (last) piece, and
      the empty string splits into one empty piece.  Only the number of
      pieces is used (the read-time estimate); SplitCountsWords pins that
      number on trimmed text. */
  function SplitOnSpaceRuns(s: string): (pieces: seq<string>)
    ensures |pieces| >= 1
    ensures forall p :: p in pieces ==> NoSpace(p)
    decreases |s|
  {
    var i := FirstSpace(s);
    if i == |s| then
      assert s[..i] == s;
      [s]
    else
      var rest := TrimStart(s[i..]);
      [s[..i]] + SplitOnSpaceRuns(rest)
  }

  /** Word counting in the style of `wc`: the number of positions where a
      non-whitespace character follows whitespace or the start of the text.
      `afterSpace` says whether the character before `s` was whitespace
      (or there was none). */
  function CountWords(s: string, afterSpace: bool): nat {
    if s == [] then 0
    else (if afterSpace && !IsSpace(s[0]) then 1 else 0) + CountWords(s[1..], IsSpace(s[0]))
  }

  /** The word count of the read-time estimate: `s.trim().split(/\s+/).length`. */
  function SplitWordCount(s: string): nat {
    |SplitOnSpaceRuns(Trim(s))|
  }

  lemma {:induction false} CountWordsAfterSpaces(r: string, x: string, afterSpace: bool)
    requires AllSpace(r) && r != []
    ensures CountWords(r + x, afterSpace) == CountWords(x, true)
    decreases |r|
  {
    assert (r + x)[1..] == r[1..] + x;
    if |r| > 1 {
      CountWordsAfterSpaces(r[1..], x, true);
    } else {
      assert r[1..] + x == x;
    }
  }

  lemma {:induction false} CountWordsOneWord(w: string, x: string, afterSpace: bool)
    requires NoSpace(w) && w != []
    ensures CountWords(w + x, afterSpace) == (if afterSpace then 1 else 0) + CountWords(x, false)
    decreases |w|
  {
    assert (w + x)[1..] == w[1..] + x;
    if |w| > 1 {
      CountWordsOneWord(w[1..], x, false);
    } else {
      assert w[1..] + x == x;
    }
  }

  lemma {:induction false} CountWordsTrailingSpaces(x: string, r: string, afterSpace: bool)
    requires AllSpace(r)
    ensures CountWords(x + r, afterSpace) == CountWords(x, afterSpace)
    decreases |x|
  {
    if x == [] {
      assert x + r == r;
      CountWordsAllSpace(r, afterSpace);
    } else {
      assert (x + r)[1..] == x[1..] + r;
      CountWordsTrailingSpaces(x[1..], r, IsSpace(x[0]));
    }
  }

  lemma {:induction false} CountWordsAllSpace(r: string, afterSpace: bool)
    requires AllSpace(r)
    ensures CountWords(r, afterSpace) == 0
    decreases |r|
  {
    if r != [] {
      CountWordsAllSpace(r[1..], true);
    }
  }

  /** On text with no whitespace at either end, the split yields one piece
      per word. */
  lemma {:induction false} SplitCountsWords(t: string)
    requires Filled(t)
    ensures |SplitOnSpaceRuns(t)| == CountWords(t, true)
    decreases |t|
  {
    var i := FirstSpace(t);
    if i == |t| {
      assert t == t + [];
      CountWordsOneWord(t, [], true);
    } else {
      var rest := TrimStart(t[i..]);
      var run := WordRunRest(t, i, rest);
      assert i > 0;
      CountWordsOneWord(t[..i], run + rest, true);
      CountWordsAfterSpaces(run, rest, false);
      SplitCountsWords(rest);
    }
  }

  /** Leading and trailing whitespace contributes no words. */
  lemma {:induction false} CountWordsOfTrim(s: string)
    ensures CountWords(s, true) == CountWords(Trim(s), true)
  {
    var lead, trail := TrimSplits(s);
    CountWordsAround(s, lead, Trim(s), trail);
  }

  lemma {:induction false} CountWordsAround(s: string, lead: string, t: string, trail: string)
    requires s == lead + t + trail && AllSpace(lead) && AllSpace(trail)
    ensures CountWords(s, true) == CountWords(t, true)
  {
    if lead != [] {
      assert s == lead + (t + trail);
      CountWordsAfterSpaces(lead, t + trail, true);
    } else {
      assert s == t + trail;
    }
    CountWordsTrailingSpaces(t, trail, true);
  }

  /** Slicing facts for one step of the split: `t` is its first `i`
      characters, then a run, then `rest`, a suffix of `t[i..]`. */
  lemma WordRunRest(t: string, i: nat, rest: string) returns (run: string)
    requires i < |t| && |rest| <= |t| - i && rest == t[i..][|t| - i - |rest|..]
    ensures run == t[i..][..|t| - i - |rest|]
    ensures t == t[..i] + (run + rest)
    ensures rest == [] ==> run != [] && run[|run| - 1] == t[|t| - 1]
    ensures rest != [] ==> rest[|rest| - 1] == t[|t| - 1]
  {
    var u := t[i..];
    run := u[..|u| - |rest|];
    assert u == run + rest;
  }

  /** The split-based count is the word count, except that text with no
      words still counts as one piece. */
  lemma SplitWordCountIsWords(s: string)
    ensures SplitWordCount(s) == if CountWords(s, true) == 0 then 1 else CountWords(s, true)
    ensures SplitWordCount(s) == 1 <==> CountWords(s, true) <= 1
  {
    CountWordsOfTrim(s);
    var t := Trim(s);
    if t == [] {
      assert SplitOnSpaceRuns(t) == [t];
    } else {
      SplitCountsWords(t);
    }
  }
}
