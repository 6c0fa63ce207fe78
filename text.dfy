/**
  String operations of Rust's `str` that the pipeline relies on: `trim`, `find`,
  `contains`, `split`, `lines`, `join`, `starts_with`, and decimal digits.
  A Rust `String` is modelled as a sequence of characters.
 */
module Text {
  import opened Wrappers

  /** Unicode White_Space: the class of Rust's `char::is_whitespace`, `trim` and regex `\s`. */
  predicate IsWhitespace(c: char) {
    || c == ' '
    || ('\t' <= c <= '\r')
    || c == '\U{85}' || c == '\U{A0}' || c == '\U{1680}'
    || ('\U{2000}' <= c <= '\U{200A}')
    || c == '\U{2028}' || c == '\U{2029}' || c == '\U{202F}' || c == '\U{205F}' || c == '\U{3000}'
  }

  predicate IsDigit(c: char) {
    '0' <= c <= '9'
  }

  predicate AllDigits(s: string) {
    forall i :: 0 <= i < |s| ==> IsDigit(s[i])
  }

  predicate IsBlank(s: string) {
    forall i :: 0 <= i < |s| ==> IsWhitespace(s[i])
  }

  /** `str::trim_start`: drops the leading whitespace and nothing else. */
  function TrimStart(s: string): (r: string)
    ensures |r| <= |s| && r == s[|s| - |r|..]
    ensures r == [] || !IsWhitespace(r[0])
    ensures IsBlank(s[..|s| - |r|])
  {
    if s != [] && IsWhitespace(s[0]) then
      var r := TrimStart(s[1..]);
      assert s[..|s| - |r|] == [s[0]] + s[1..][..|s| - 1 - |r|];
      r
    else s
  }

  /** `str::trim_end`: drops the trailing whitespace and nothing else. */
  function TrimEnd(s: string): (r: string)
    ensures |r| <= |s| && r == s[..|r|]
    ensures r == [] || !IsWhitespace(r[|r| - 1])
    ensures IsBlank(s[|r|..])
  {
    if s != [] && IsWhitespace(s[|s| - 1]) then
      var r := TrimEnd(s[..|s| - 1]);
      assert s[|r|..] == s[..|s| - 1][|r|..] + [s[|s| - 1]];
      r
    else s
  }

  /** `str::trim`. */
  function Trim(s: string): (r: string)
    ensures |r| <= |s|
    ensures r == [] <==> IsBlank(s)
    ensures r != [] ==> !IsWhitespace(r[0]) && !IsWhitespace(r[|r| - 1])
  {
    var t := TrimStart(s);
    assert t == [] ==> IsBlank(s) by {
      if t == [] {
        assert s[..|s|] == s;
      }
    }
    var r := TrimEnd(t);
    r
  }

  lemma TrimOfTrimmed(s: string)
    requires s == [] || (!IsWhitespace(s[0]) && !IsWhitespace(s[|s| - 1]))
    ensures Trim(s) == s
  {
  }

  lemma {:induction false} TrimStartBlank(gap: string, rest: string)
    requires IsBlank(gap) && (rest == [] || !IsWhitespace(rest[0]))
    ensures TrimStart(gap + rest) == rest
  {
    if gap != [] {
      assert (gap + rest)[1..] == gap[1..] + rest;
      TrimStartBlank(gap[1..], rest);
    }
  }

  lemma {:induction false} TrimEndBlank(rest: string, gap: string)
    requires IsBlank(gap) && (rest == [] || !IsWhitespace(rest[|rest| - 1]))
    ensures TrimEnd(rest + gap) == rest
  {
    if gap != [] {
      assert (rest + gap)[..|rest + gap| - 1] == rest + gap[..|gap| - 1];
      TrimEndBlank(rest, gap[..|gap| - 1]);
    } else {
      assert rest + gap == rest;
    }
  }

  /** Trimming removes exactly the blank margins around a text that starts and ends with a non-blank character. */
  lemma TrimAround(gap1: string, t: string, gap2: string)
    requires IsBlank(gap1) && IsBlank(gap2)
    requires t != [] && !IsWhitespace(t[0]) && !IsWhitespace(t[|t| - 1])
    ensures Trim(gap1 + t + gap2) == t
  {
    assert gap1 + t + gap2 == gap1 + (t + gap2);
    TrimStartBlank(gap1, t + gap2);
    TrimEndBlank(t, gap2);
  }

  predicate StartsWith(s: string, prefix: string) {
    |prefix| <= |s| && s[..|prefix|] == prefix
  }

  predicate OccursAt(s: string, pat: string, j: nat) {
    j + |pat| <= |s| && s[j..j + |pat|] == pat
  }

  /** The first occurrence of `pat` at or after `from`. */
  function FindFrom(s: string, pat: string, from: nat): (r: Option<nat>)
    requires from <= |s|
    ensures r.Some? ==> from <= r.value && r.value + |pat| <= |s|
    decreases |s| - from
  {
    if OccursAt(s, pat, from) then Some(from)
    else if from == |s| then None
    else FindFrom(s, pat, from + 1)
  }

  lemma {:induction false} FindFromSpec(s: string, pat: string, from: nat)
    requires from <= |s|
    ensures var r := FindFrom(s, pat, from);
      && (r.Some? ==> OccursAt(s, pat, r.value) && forall j :: from <= j < r.value ==> !OccursAt(s, pat, j))
      && (r.None? ==> forall j :: from <= j <= |s| ==> !OccursAt(s, pat, j))
    decreases |s| - from
  {
    if !OccursAt(s, pat, from) && from < |s| {
      FindFromSpec(s, pat, from + 1);
    }
  }

  /** `str::find`: the index of the first occurrence of `pat`, if any. */
  function Find(s: string, pat: string): (r: Option<nat>)
    ensures r.Some? ==> r.value + |pat| <= |s|
  {
    FindFrom(s, pat, 0)
  }

  /** `Find` gives the first occurrence, and `None` only when there is none. */
  lemma FindSpec(s: string, pat: string)
    ensures var r := Find(s, pat);
      && (r.Some? ==> OccursAt(s, pat, r.value) && forall j :: 0 <= j < r.value ==> !OccursAt(s, pat, j))
      && (r.None? ==> forall j :: 0 <= j <= |s| ==> !OccursAt(s, pat, j))
  {
    FindFromSpec(s, pat, 0);
  }

  /** The first occurrence is where the pattern occurs with no occurrence before it. */
  lemma FindIs(s: string, pat: string, k: nat)
    requires OccursAt(s, pat, k)
    requires forall j :: 0 <= j < k ==> !OccursAt(s, pat, j)
    ensures Find(s, pat) == Some(k)
  {
    FindSpec(s, pat);
  }

  /** A pattern whose first character does not occur before it is found right there. */
  lemma FindAfterFree(pre: string, pat: string, rest: string)
    requires pat != [] && pat[0] !in pre
    ensures Find(pre + pat + rest, pat) == Some(|pre|)
  {
    var s := pre + pat + rest;
    assert s[|pre|..|pre| + |pat|] == pat;
    forall j | 0 <= j < |pre| ensures !OccursAt(s, pat, j) {
      assert s[j] == pre[j] != pat[0];
      assert j + |pat| <= |s| ==> s[j..j + |pat|][0] == s[j];
    }
    FindIs(s, pat, |pre|);
  }

  /** `str::contains`. */
  predicate Contains(s: string, pat: string) {
    Find(s, pat).Some?
  }

  lemma ContainsWitness(s: string, pat: string, j: nat)
    requires OccursAt(s, pat, j)
    ensures Contains(s, pat)
  {
    FindSpec(s, pat);
  }

  /** `str::split` with a string pattern: the pieces between non-overlapping occurrences, left to right. */
  function Split(s: string, delim: string): (r: seq<string>)
    ensures |r| >= 1
    decreases |s|
  {
    if delim == [] then
      [[]] + SplitChars(s) + [[]]
    else
      match Find(s, delim)
      case None => [s]
      case Some(j) => [s[..j]] + Split(s[j + |delim|..], delim)
  }

  /** The pieces of a split on the empty pattern, between the two empty ends. */
  function SplitChars(s: string): (r: seq<string>)
    ensures |r| == |s|
    ensures forall i :: 0 <= i < |s| ==> r[i] == [s[i]]
  {
    if s == [] then [] else [[s[0]]] + SplitChars(s[1..])
  }

  /** The text before the first occurrence of `delim` does not contain it. */
  lemma BeforeFirstFree(s: string, delim: string, j: nat)
    requires delim != [] && Find(s, delim) == Some(j)
    ensures !Contains(s[..j], delim)
  {
    FindSpec(s, delim);
    FindSpec(s[..j], delim);
    forall k | 0 <= k <= j
      ensures !OccursAt(s[..j], delim, k)
    {
      if k + |delim| <= j {
        assert s[..j][k..k + |delim|] == s[k..k + |delim|];
        assert !OccursAt(s, delim, k);
      }
    }
  }

  /** One cut of `Split`: the piece before the first occurrence, then the split of the rest. */
  lemma SplitCut(s: string, delim: string, j: nat)
    requires delim != [] && Find(s, delim) == Some(j)
    ensures j + |delim| <= |s|
    ensures Split(s, delim) == [s[..j]] + Split(s[j + |delim|..], delim)
    ensures s == s[..j] + delim + s[j + |delim|..]
  {
    FindSpec(s, delim);
    var tail := s[j + |delim|..];
    assert s[j..j + |delim|] == delim;
    assert s == s[..j] + s[j..j + |delim|] + tail;
  }

  /** Joining the pieces of `Split` with the delimiter gives the text back. */
  lemma {:induction false} SplitJoin(s: string, delim: string)
    requires delim != []
    ensures Join(Split(s, delim), delim) == s
    decreases |s|
  {
    match Find(s, delim)
    case None =>
    case Some(j) =>
      var tail := s[j + |delim|..];
      SplitCut(s, delim, j);
      SplitJoin(tail, delim);
      JoinCons(s[..j], Split(tail, delim), delim);
  }

  /** No piece of `Split` contains the delimiter. */
  lemma {:induction false} SplitPiecesFree(s: string, delim: string)
    requires delim != []
    ensures var r := Split(s, delim);
      forall i :: 0 <= i < |r| ==> !Contains(r[i], delim)
    decreases |s|
  {
    match Find(s, delim)
    case None =>
    case Some(j) =>
      var tail := s[j + |delim|..];
      SplitCut(s, delim, j);
      SplitPiecesFree(tail, delim);
      BeforeFirstFree(s, delim, j);
  }

  /** Pieces whose cuts are leftmost occurrences of `delim`. */
  predicate LeftmostCuts(r: seq<string>, delim: string) {
    forall i :: 0 <= i < |r| - 1 ==> Find(Join(r[i..], delim), delim) == Some(|r[i]|)
  }

  /** A leftmost first cut in front of leftmost cuts gives leftmost cuts. */
  lemma LeftmostCutsCons(x: string, rest: seq<string>, delim: string)
    requires rest != [] && LeftmostCuts(rest, delim)
    requires Find(Join([x] + rest, delim), delim) == Some(|x|)
    ensures LeftmostCuts([x] + rest, delim)
  {
    var r := [x] + rest;
    forall i | 0 <= i < |r| - 1
      ensures Find(Join(r[i..], delim), delim) == Some(|r[i]|)
    {
      if i == 0 {
        assert r[0..] == r;
      } else {
        assert r[i..] == rest[i - 1..];
      }
    }
  }

  /**
    Each piece of `Split` but the last ends where the delimiter first occurs in
    the text that remains from that piece on: the cuts are the leftmost,
    non-overlapping occurrences.
   */
  lemma {:induction false} SplitCutsLeftmost(s: string, delim: string)
    requires delim != []
    ensures LeftmostCuts(Split(s, delim), delim)
    decreases |s|
  {
    match Find(s, delim)
    case None =>
    case Some(j) =>
      var tail := s[j + |delim|..];
      SplitCut(s, delim, j);
      SplitCutsLeftmost(tail, delim);
      SplitJoin(s, delim);
      LeftmostCutsCons(s[..j], Split(tail, delim), delim);
  }

  /** On the empty pattern, `split` gives an empty piece, then each character alone, then an empty piece. */
  lemma SplitEmptyPattern(s: string)
    ensures var r := Split(s, []);
      && |r| == |s| + 2 && r[0] == [] && r[|s| + 1] == []
      && forall i :: 1 <= i <= |s| ==> r[i] == [s[i - 1]]
  {
  }

  lemma SplitWithout(s: string, delim: string)
    requires delim != [] && !Contains(s, delim)
    ensures Split(s, delim) == [s]
  {
  }

  /** `str::lines`: split at `\n`, drop a `\r` right before it, no final empty line. */
  function Lines(s: string): (r: seq<string>)
    ensures s == [] <==> r == []
    decreases |s|
  {
    if s == [] then []
    else
      match Find(s, "\n")
      case None => [s]
      case Some(j) =>
        var line := if j > 0 && s[j - 1] == '\r' then s[..j - 1] else s[..j];
        [line] + Lines(s[j + 1..])
  }

  /** A line without a newline, then a newline: the first of the lines, and the rest after it. */
  lemma LinesCons(line: string, rest: string)
    requires '\n' !in line
    ensures var ls := Lines(line + "\n" + rest);
      && ls != [] && ls[1..] == Lines(rest)
      && (line == [] || line[|line| - 1] != '\r' ==> ls[0] == line)
  {
    var s := line + "\n" + rest;
    FindAfterFree(line, "\n", rest);
    assert s[|line| + 1..] == rest;
    assert s[..|line|] == line;
  }

  /** Each line followed by a newline: the text that `Lines` reads back as those lines. */
  function Unlines(ls: seq<string>): (r: string)
    ensures ls == [] <==> r == []
  {
    if ls == [] then [] else ls[0] + "\n" + Unlines(ls[1..])
  }

  /** A line that `Lines` gives back unchanged: no newline in it and no carriage return at its end. */
  predicate PlainLine(line: string) {
    '\n' !in line && (line == [] || line[|line| - 1] != '\r')
  }

  /** `Lines` undoes `Unlines` on plain lines. */
  lemma {:induction false} LinesUnlines(ls: seq<string>)
    requires forall k :: 0 <= k < |ls| ==> PlainLine(ls[k])
    ensures Lines(Unlines(ls)) == ls
  {
    if ls != [] {
      LinesUnlines(ls[1..]);
      LinesCons(ls[0], Unlines(ls[1..]));
    }
  }

  /** A text without the pattern's first character does not contain the pattern. */
  lemma AbsentFirstChar(s: string, pat: string)
    requires pat != [] && pat[0] !in s
    ensures !Contains(s, pat)
  {
    FindSpec(s, pat);
    forall j | 0 <= j <= |s|
      ensures !OccursAt(s, pat, j)
    {
      if j + |pat| <= |s| {
        assert s[j..j + |pat|][0] == s[j];
      }
    }
  }

  function Join(parts: seq<string>, sep: string): (r: string)
  {
    if |parts| == 0 then []
    else if |parts| == 1 then parts[0]
    else Join(parts[..|parts| - 1], sep) + sep + parts[|parts| - 1]
  }

  lemma JoinSnoc(parts: seq<string>, sep: string, x: string)
    requires parts != []
    ensures Join(parts + [x], sep) == Join(parts, sep) + sep + x
  {
    assert (parts + [x])[..|parts|] == parts;
  }

  /** Joining a first part in front of a non-empty list puts one separator between them. */
  lemma {:induction false} JoinCons(x: string, parts: seq<string>, sep: string)
    requires parts != []
    ensures Join([x] + parts, sep) == x + sep + Join(parts, sep)
    decreases |parts|
  {
    if |parts| == 1 {
      assert [x] + parts == [x] + [parts[0]];
      JoinSnoc([x], sep, parts[0]);
    } else {
      var init, last := parts[..|parts| - 1], parts[|parts| - 1];
      assert parts == init + [last];
      assert [x] + parts == ([x] + init) + [last];
      JoinSnoc([x] + init, sep, last);
      JoinCons(x, init, sep);
      JoinSnoc(init, sep, last);
    }
  }

  /** `char::to_lowercase` on ASCII letters; every other character is kept. */
  function LowerChar(c: char): char {
    if 'A' <= c <= 'Z' then (c as int + 32) as char else c
  }

  /** `str::to_lowercase`, character by character. */
  function ToLower(s: string): (r: string)
    ensures |r| == |s|
    ensures forall i :: 0 <= i < |s| ==> r[i] == LowerChar(s[i])
  {
    seq(|s|, i requires 0 <= i < |s| => LowerChar(s[i]))
  }

  lemma ToLowerConcat(a: string, b: string)
    ensures ToLower(a + b) == ToLower(a) + ToLower(b)
  {
  }

  /** Lowercasing twice is lowercasing once. */
  lemma ToLowerIdempotent(s: string)
    ensures ToLower(ToLower(s)) == ToLower(s)
  {
  }

  /** A pattern longer than the text is not in it. */
  lemma NotContainsLonger(s: string, pat: string)
    requires |pat| > |s|
    ensures !Contains(s, pat)
  {
    FindSpec(s, pat);
  }

  /** The value of a string of decimal digits (leading zeros allowed). */
  function DigitsValue(s: string): nat
    requires AllDigits(s)
  {
    if s == [] then 0
    else DigitsValue(s[..|s| - 1]) * 10 + (s[|s| - 1] as int - '0' as int)
  }

  function DigitChar(d: nat): (c: char)
    requires d < 10
    ensures IsDigit(c) && c as int - '0' as int == d
  {
    (d + '0' as int) as char
  }

  /** The decimal rendering of `n` (Rust's `to_string` on an unsigned integer). */
  function NatToDigits(n: nat): (s: string)
    ensures s != [] && AllDigits(s)
    ensures DigitsValue(s) == n
  {
    if n < 10 then [DigitChar(n)]
    else
      var s := NatToDigits(n / 10) + [DigitChar(n % 10)];
      assert s[..|s| - 1] == NatToDigits(n / 10);
      s
  }
}
