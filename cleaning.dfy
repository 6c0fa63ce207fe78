/**
  The cleaning of a transcript before it is summarised: the number-chain regex
  `(?m)(\d+(?:[.\-]\d+){5,})` whose matches are deleted, and the repeated-words
  regex `\b(\w+)(?:\s+\1){4,}\b`, which the `regex` crate refuses to compile
  because it holds the backreference `\1`.
 */
module Cleaning {
  import opened Wrappers
  import opened Text

  const NumberChainPattern: string := "(?m)(\\d+(?:[.\\-]\\d+){5,})"
  const RepeatedWordsPattern: string := "\\b(\\w+)(?:\\s+\\1){4,}\\b"

  /**
    The kind of the error `Regex::new` gives for a pattern with a backreference.
    Only that kind is modelled; the multi-line text of the error's `Display`, which
    quotes the pattern and points at the offending escape, is not.
   */
  const BackrefUnsupported: string := "backreferences are not supported"

  /** A compiled regex, known by its pattern. */
  datatype Regex = Regex(pattern: string)

  /**
    An escape `\` followed by a decimal digit, found by reading `p` from index `i`
    escape by escape (an escaped backslash does not start another escape).
   */
  predicate HasBackreferenceFrom(p: string, i: nat)
    requires i <= |p|
    decreases |p| - i
  {
    if i + 1 < |p| && p[i] == '\\' then IsDigit(p[i + 1]) || HasBackreferenceFrom(p, i + 2)
    else i < |p| && HasBackreferenceFrom(p, i + 1)
  }

  predicate HasBackreference(p: string) {
    HasBackreferenceFrom(p, 0)
  }

  /**
    `Regex::new`, as far as the pipeline's patterns need it: a backreference is a
    syntax error of the `regex` crate; the patterns are otherwise well formed.
   */
  function RegexNew(pattern: string): (r: Result<Regex, string>)
    ensures r.Err? <==> HasBackreference(pattern)
    ensures r.Err? ==> r.error == BackrefUnsupported
    ensures r.Ok? ==> r.value.pattern == pattern
  {
    if HasBackreference(pattern) then Err(BackrefUnsupported) else Ok(Regex(pattern))
  }

  /** A pattern without any backslash has no backreference. */
  lemma {:induction false} NoBackslashFrom(p: string, i: nat)
    requires i <= |p| && forall k :: i <= k < |p| ==> p[k] != '\\'
    ensures !HasBackreferenceFrom(p, i)
    decreases |p| - i
  {
    if i < |p| {
      NoBackslashFrom(p, i + 1);
    }
  }

  /** The number-chain pattern compiles. */
  lemma NumberChainCompiles(p: string)
    requires p == NumberChainPattern
    ensures RegexNew(p).Ok?
  {
    NoBackslashFrom(p, 23);
    assert !HasBackreferenceFrom(p, 21);
    assert !HasBackreferenceFrom(p, 17);
    assert !HasBackreferenceFrom(p, 15);
    assert !HasBackreferenceFrom(p, 9);
    assert !HasBackreferenceFrom(p, 5);
  }

  /** The repeated-words pattern does not compile: it refers back to its first group with `\1`. */
  lemma RepeatedWordsRejected(p: string)
    requires p == RepeatedWordsPattern
    ensures RegexNew(p) == Err(BackrefUnsupported)
  {
    assert HasBackreferenceFrom(p, 13);
    assert HasBackreferenceFrom(p, 10);
    assert HasBackreferenceFrom(p, 7);
    assert HasBackreferenceFrom(p, 5);
    assert HasBackreferenceFrom(p, 2);
  }

  predicate IsSeparator(c: char) {
    c == '.' || c == '-'
  }

  /** The end of the run of digits that starts at `i`. */
  function DigitsEnd(s: string, i: nat): (j: nat)
    requires i <= |s|
    ensures i <= j <= |s|
    ensures forall k :: i <= k < j ==> IsDigit(s[k])
    ensures j == |s| || !IsDigit(s[j])
    decreases |s| - i
  {
    if i < |s| && IsDigit(s[i]) then DigitsEnd(s, i + 1) else i
  }

  /** The groups `[.-]\d+` that follow position `j`, taken greedily: how many, and where the last ends. */
  function Groups(s: string, j: nat): (g: (nat, nat))
    requires j <= |s|
    ensures j <= g.1 <= |s|
    ensures g.0 == 0 <==> g.1 == j
    decreases |s| - j
  {
    if j + 1 < |s| && IsSeparator(s[j]) && IsDigit(s[j + 1]) then
      var rest := Groups(s, DigitsEnd(s, j + 1));
      (rest.0 + 1, rest.1)
    else (0, j)
  }

  /**
    The end of the match of `\d+(?:[.\-]\d+){5,}` at the start of `s`, if there is one.
    Every run of digits is taken whole: a shorter run is followed by a digit, never by
    a separator, so no other way to match exists.
   */
  function ChainAt(s: string): (r: Option<nat>)
    ensures r.Some? ==> 0 < r.value <= |s|
  {
    if s != [] && IsDigit(s[0]) then
      var g := Groups(s, DigitsEnd(s, 0));
      if g.0 >= 5 then Some(g.1) else None
    else None
  }

  /** `replace_all(transcript, "")` with the number-chain pattern: matches are found left to right and deleted. */
  function RemoveNumberChains(s: string): (r: string)
    ensures |r| <= |s|
    decreases |s|
  {
    if s == [] then []
    else
      match ChainAt(s)
      case Some(e) => RemoveNumberChains(s[e..])
      case None => [s[0]] + RemoveNumberChains(s[1..])
  }

  /** A text in which no number chain starts anywhere is left as it is. */
  lemma {:induction false} NoChainUnchanged(s: string)
    requires forall i :: 0 <= i < |s| ==> ChainAt(s[i..]).None?
    ensures RemoveNumberChains(s) == s
    decreases |s|
  {
    if s != [] {
      assert ChainAt(s[0..]).None? && s[0..] == s;
      forall i | 0 <= i < |s[1..]| ensures ChainAt(s[1..][i..]).None? {
        assert s[1..][i..] == s[i + 1..];
      }
      NoChainUnchanged(s[1..]);
    }
  }

  /** Text without digits is left as it is. */
  lemma NoDigitsUnchanged(s: string)
    requires forall i :: 0 <= i < |s| ==> !IsDigit(s[i])
    ensures RemoveNumberChains(s) == s
  {
    forall i | 0 <= i < |s| ensures ChainAt(s[i..]).None? {
      assert s[i..][0] == s[i];
    }
    NoChainUnchanged(s);
  }

  /** Text without digits before a part is kept in front of that part's cleaning. */
  lemma {:induction false} PlainPrefix(pre: string, s: string)
    requires forall i :: 0 <= i < |pre| ==> !IsDigit(pre[i])
    ensures RemoveNumberChains(pre + s) == pre + RemoveNumberChains(s)
    decreases |pre|
  {
    if pre != [] {
      assert (pre + s)[0] == pre[0] && (pre + s)[1..] == pre[1..] + s;
      PlainPrefix(pre[1..], s);
    } else {
      assert pre + s == s;
    }
  }

  /** Six numbers joined by dots are one chain, and it is deleted. */
  lemma SixNumbersDeleted(s: string)
    requires s == "1.22.3.4.5.6 x"
    ensures ChainAt(s) == Some(12) && RemoveNumberChains(s) == " x"
  {
    assert DigitsEnd(s, 0) == 1;
    assert DigitsEnd(s, 3) == 4;
    assert DigitsEnd(s, 2) == 4;
    assert DigitsEnd(s, 5) == 6;
    assert DigitsEnd(s, 7) == 8;
    assert DigitsEnd(s, 9) == 10;
    assert DigitsEnd(s, 11) == 12;
    assert Groups(s, 12) == (0, 12);
    assert Groups(s, 10) == (1, 12);
    assert Groups(s, 8) == (2, 12);
    assert Groups(s, 6) == (3, 12);
    assert Groups(s, 4) == (4, 12);
    assert Groups(s, 1) == (5, 12);
    assert s[12..] == " x";
    NoDigitsUnchanged(" x");
  }

  /** Five numbers joined by dots are no chain. */
  lemma FiveNumbersKept(t: string)
    requires t == "1.2.3.4.5 x"
    ensures ChainAt(t).None?
  {
    assert DigitsEnd(t, 0) == 1;
    assert DigitsEnd(t, 2) == 3;
    assert DigitsEnd(t, 4) == 5;
    assert DigitsEnd(t, 6) == 7;
    assert DigitsEnd(t, 8) == 9;
    assert Groups(t, 9) == (0, 9);
    assert Groups(t, 7) == (1, 9);
    assert Groups(t, 5) == (2, 9);
    assert Groups(t, 3) == (3, 9);
    assert Groups(t, 1) == (4, 9);
  }

  /**
    Lines 231-237 of the cleaning step: compile the number-chain regex, delete its
    matches, compile the repeated-words regex and collapse its matches.
    `collapse` stands for a replacement the `regex` crate never performs.
   */
  function Clean(transcript: string, collapse: string -> string): Result<string, string> {
    match RegexNew(NumberChainPattern)
    case Err(e) => Err(e)
    case Ok(_) =>
      var t := RemoveNumberChains(transcript);
      match RegexNew(RepeatedWordsPattern)
      case Err(e) => Err(e)
      case Ok(_) => Ok(collapse(t))
  }

  /** Cleaning fails for every transcript, with the backreference error. */
  lemma CleanAlwaysFails(transcript: string, collapse: string -> string)
    ensures Clean(transcript, collapse) == Err(BackrefUnsupported)
  {
    NumberChainCompiles(NumberChainPattern);
    RepeatedWordsRejected(RepeatedWordsPattern);
  }
}
