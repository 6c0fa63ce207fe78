/**
  The relative-date parser shared by both versions of the stream record:
  the pattern `(\d+)\s+(second|minute|hour|day|week|month|year)s?\s+ago`,
  searched anywhere in the text, turned into `now - amount * factor(unit)`.

  Timestamps are whole seconds since the epoch; `now` is a parameter.

  The regex is modelled by a deterministic matcher. At a fixed start position the
  pattern has only one way to match: each `\d+` and `\s+` must take its whole run
  (giving back a character leaves a digit where whitespace is needed, or whitespace
  where a letter is needed), the unit words are told apart by their first two
  letters, and the optional `s` cannot be given back because `\s+` would then face
  an `s`. So "the leftmost match" is "the first position where `MatchAt` succeeds".
 */
module TimeAgo {
  import opened Wrappers
  import opened Text

  datatype Unit = Second | Minute | Hour | Day | Week | Month | Year

  /** The word of the second capture group. */
  function UnitWord(u: Unit): string {
    match u
    case Second => "second"
    case Minute => "minute"
    case Hour => "hour"
    case Day => "day"
    case Week => "week"
    case Month => "month"
    case Year => "year"
  }

  /** Seconds per unit; a month is 30 days and a year 365 days. */
  function Factor(u: Unit): nat {
    match u
    case Second => 1
    case Minute => 60
    case Hour => 3600
    case Day => 86400
    case Week => 7 * 86400
    case Month => 30 * 86400
    case Year => 365 * 86400
  }

  /** The length of `amount` units, in seconds (`Duration::seconds`, `minutes`, ... `days(amount * 365)`). */
  function DurationOf(amount: nat, u: Unit): nat {
    match u
    case Second => amount
    case Minute => amount * 60
    case Hour => amount * 3600
    case Day => amount * 86400
    case Week => amount * (7 * 86400)
    case Month => amount * (30 * 86400)
    case Year => amount * (365 * 86400)
  }

  /** The two groups of a match: the text of the amount and the unit. */
  datatype Captures = Captures(digits: string, unit: Unit)

  /** `i64::MAX`, the bound of `captures[1].parse::<i64>()`. */
  const I64_MAX: int := 0x7fff_ffff_ffff_ffff

  /** The two character classes of the pattern: `\d` and `\s`. */
  datatype CharClass = Digit | Space

  predicate InClass(cls: CharClass, c: char) {
    match cls
    case Digit => IsDigit(c)
    case Space => IsWhitespace(c)
  }

  /** The length of the longest run of characters of a class starting at `i`. */
  function RunLength(s: string, i: nat, cls: CharClass): (n: nat)
    requires i <= |s|
    ensures i + n <= |s|
    decreases |s| - i
  {
    if i < |s| && InClass(cls, s[i]) then 1 + RunLength(s, i + 1, cls) else 0
  }

  /** The run holds only characters of the class and is followed by one outside it, or by the end. */
  lemma {:induction false} RunLengthIsMaximal(s: string, i: nat, cls: CharClass)
    requires i <= |s|
    ensures forall k :: i <= k < i + RunLength(s, i, cls) ==> InClass(cls, s[k])
    ensures i + RunLength(s, i, cls) == |s| || !InClass(cls, s[i + RunLength(s, i, cls)])
    decreases |s| - i
  {
    if i < |s| && InClass(cls, s[i]) {
      RunLengthIsMaximal(s, i + 1, cls);
    }
  }

  /** A run of a class followed by a character outside it (or by the end) has exactly that length. */
  lemma {:induction false} RunIsExact(s: string, p: nat, n: nat, cls: CharClass)
    requires p + n <= |s|
    requires forall k :: p <= k < p + n ==> InClass(cls, s[k])
    requires p + n == |s| || !InClass(cls, s[p + n])
    ensures RunLength(s, p, cls) == n
    decreases n
  {
    if n > 0 {
      RunIsExact(s, p + 1, n - 1, cls);
    }
  }

  /** `t` is found in `s` at position `p`, character by character. */
  predicate SpanAt(s: string, t: string, p: nat) {
    p + |t| <= |s| && forall k :: 0 <= k < |t| ==> s[p + k] == t[k]
  }

  /**
    The unit whose word can start at `i`, told apart by its first two letters: no two
    unit words agree on both, so at most one alternative of the group can match there.
   */
  function UnitCandidate(s: string, i: nat): Option<Unit> {
    if i + 1 >= |s| then None
    else if s[i] == 's' then Some(Second)
    else if s[i] == 'h' then Some(Hour)
    else if s[i] == 'd' then Some(Day)
    else if s[i] == 'w' then Some(Week)
    else if s[i] == 'y' then Some(Year)
    else if s[i] == 'm' && s[i + 1] == 'i' then Some(Minute)
    else if s[i] == 'm' && s[i + 1] == 'o' then Some(Month)
    else None
  }

  /** The unit word that starts at `i`, if any (the group `(second|minute|hour|day|week|month|year)`). */
  function UnitAt(s: string, i: nat): (r: Option<Unit>)
    ensures r.Some? ==> SpanAt(s, UnitWord(r.value), i)
  {
    match UnitCandidate(s, i)
    case None => None
    case Some(u) => if SpanAt(s, UnitWord(u), i) then Some(u) else None
  }

  /** Wherever a unit word starts, `UnitAt` finds that unit. */
  lemma UnitAtWord(s: string, i: nat, u: Unit)
    requires SpanAt(s, UnitWord(u), i)
    ensures UnitAt(s, i) == Some(u)
  {
    assert s[i + 0] == UnitWord(u)[0];
    assert s[i + 1] == UnitWord(u)[1];
  }

  /** The digits that start at `p`: the longest run of them. */
  function DigitRun(s: string, p: nat): string
    requires p <= |s|
  {
    s[p..p + RunLength(s, p, Digit)]
  }

  /** The regex anchored at position `p`: digits, whitespace, then the rest of the pattern. */
  function MatchAt(s: string, p: nat): Option<Captures>
    requires p <= |s|
  {
    if RunLength(s, p, Digit) == 0 || RunLength(s, p + RunLength(s, p, Digit), Space) == 0 then None
    else
      match MatchTail(s, HeadEnd(s, p))
      case None => None
      case Some(u) => Some(Captures(DigitRun(s, p), u))
  }

  /** A match captures a non-empty string of digits, followed in the text by whitespace. */
  lemma MatchAtDigits(s: string, p: nat)
    requires p <= |s| && MatchAt(s, p).Some?
    ensures var d := MatchAt(s, p).value.digits;
      d != [] && AllDigits(d) && s[p..p + |d|] == d && p + |d| < |s| && IsWhitespace(s[p + |d|])
  {
    RunLengthIsMaximal(s, p, Digit);
    var n := RunLength(s, p, Digit);
    assert RunLength(s, p + n, Space) > 0;
  }

  /** Where the digit run at `p` and the whitespace run after it end. */
  function HeadEnd(s: string, p: nat): (q: nat)
    requires p <= |s|
    ensures q <= |s|
  {
    p + RunLength(s, p, Digit) + RunLength(s, p + RunLength(s, p, Digit), Space)
  }

  /** The part of the pattern after the first whitespace run, `(unit)s?\s+ago`, at position `q`. */
  function MatchTail(s: string, q: nat): Option<Unit>
    requires q <= |s|
  {
    match UnitAt(s, q)
    case None => None
    case Some(u) =>
      var afterWord := q + |UnitWord(u)|;
      var afterPlural := if afterWord < |s| && s[afterWord] == 's' then afterWord + 1 else afterWord;
      var w := RunLength(s, afterPlural, Space);
      if w > 0 && SpanAt(s, "ago", afterPlural + w) then Some(u) else None
  }

  /** The anchored matcher's verdicts at the first `n` start positions. */
  function Verdicts(s: string, n: nat): (ms: seq<Option<Captures>>)
    requires n <= |s| + 1
    ensures |ms| == n
  {
    if n == 0 then [] else Verdicts(s, n - 1) + [MatchAt(s, n - 1)]
  }

  /** The verdict at position `j` is the anchored matcher's there. */
  lemma {:induction false} VerdictAt(s: string, n: nat, j: nat)
    requires j < n <= |s| + 1
    ensures Verdicts(s, n)[j] == MatchAt(s, j)
  {
    if j < n - 1 {
      VerdictAt(s, n - 1, j);
    }
  }

  /** Every verdict is the anchored matcher's at that position. */
  lemma VerdictsAreMatches(s: string, n: nat)
    requires n == |s| + 1
    ensures forall p :: 0 <= p < n ==> Verdicts(s, n)[p] == MatchAt(s, p)
  {
    forall p | 0 <= p < n ensures Verdicts(s, n)[p] == MatchAt(s, p) {
      VerdictAt(s, n, p);
    }
  }

  /** The leftmost match among the verdicts at or after `p`. */
  function FirstMatchFrom(ms: seq<Option<Captures>>, p: nat): Option<Captures>
    requires p <= |ms|
    decreases |ms| - p
  {
    if p == |ms| then None
    else if ms[p].Some? then ms[p]
    else FirstMatchFrom(ms, p + 1)
  }

  /** The search fails exactly when no position matches. */
  lemma {:induction false} FirstMatchNone(ms: seq<Option<Captures>>, p: nat)
    requires p <= |ms|
    ensures FirstMatchFrom(ms, p).None? <==> forall j :: p <= j < |ms| ==> ms[j].None?
    decreases |ms| - p
  {
    if p < |ms| && ms[p].None? {
      FirstMatchNone(ms, p + 1);
    }
  }

  /** The search returns the match at the first position where one exists. */
  lemma {:induction false} FirstMatchIsLeftmost(ms: seq<Option<Captures>>, from: nat, p: nat)
    requires from <= p < |ms|
    requires forall j :: from <= j < p ==> ms[j].None?
    requires ms[p].Some?
    ensures FirstMatchFrom(ms, from) == ms[p]
    decreases p - from
  {
    if from < p {
      FirstMatchIsLeftmost(ms, from + 1, p);
    }
  }

  /** The captures are the anchored match at the first position where one exists. */
  lemma LeftmostCaptures(s: string, p: nat)
    requires p <= |s|
    requires forall j :: 0 <= j < p ==> MatchAt(s, j).None?
    requires MatchAt(s, p).Some?
    ensures CapturesOf(s) == MatchAt(s, p)
  {
    VerdictsAreMatches(s, |s| + 1);
    FirstMatchIsLeftmost(Verdicts(s, |s| + 1), 0, p);
  }

  /** `TIME_AGO_REGEX.captures(text)`: the match at the leftmost position where the pattern matches. */
  function CapturesOf(s: string): Option<Captures> {
    FirstMatchFrom(Verdicts(s, |s| + 1), 0)
  }

  /** The captured amount fits in an `i64`, so `parse().unwrap()` does not panic. */
  predicate AmountFits(s: string) {
    CapturesOf(s).Some? ==> AllDigits(CapturesOf(s).value.digits) && DigitsValue(CapturesOf(s).value.digits) <= I64_MAX
  }

  /** `timestamp_from_time_ago` on a `streamed_date` at instant `now`: never later than `now`. */
  function TimestampFromTimeAgo(streamedDate: string, now: int): (r: Option<int>)
    requires AmountFits(streamedDate)
    ensures r.Some? ==> r.value <= now
  {
    var captures := CapturesOf(streamedDate);
    if captures.None? then None
    else Some(now - DurationOf(DigitsValue(captures.value.digits), captures.value.unit))
  }

  /** `None` exactly when the pattern occurs nowhere in the text. */
  lemma TimestampNoneIffNoMatch(s: string, now: int)
    ensures CapturesOf(s).None? ==> AmountFits(s)
    ensures AmountFits(s) ==>
      (TimestampFromTimeAgo(s, now).None? <==> forall p :: 0 <= p <= |s| ==> MatchAt(s, p).None?)
  {
    VerdictsAreMatches(s, |s| + 1);
    FirstMatchNone(Verdicts(s, |s| + 1), 0);
  }

  /** The timestamp in terms of the captures. */
  lemma TimestampOfCaptures(s: string, now: int)
    requires CapturesOf(s).Some? && AllDigits(CapturesOf(s).value.digits) && DigitsValue(CapturesOf(s).value.digits) <= I64_MAX
    ensures AmountFits(s)
    ensures TimestampFromTimeAgo(s, now) == Some(now - DurationOf(DigitsValue(CapturesOf(s).value.digits), CapturesOf(s).value.unit))
  {
  }

  /** The duration is the amount times the unit's length in seconds. */
  lemma DurationIsProduct(amount: nat, u: Unit)
    ensures DurationOf(amount, u) == amount * Factor(u)
  {
  }

  /** The canonical text `"<n> <unit>[s] ago"`, with any non-empty whitespace between the tokens. */
  function Render(n: nat, u: Unit, plural: bool, gap1: string, gap2: string): string {
    NatToDigits(n) + gap1 + UnitWord(u) + (if plural then "s" else "") + gap2 + "ago"
  }

  predicate NoDigits(s: string) {
    forall i :: 0 <= i < |s| ==> !IsDigit(s[i])
  }

  /** No match can start where there is no digit. */
  lemma NoMatchWithoutDigit(s: string, p: nat)
    requires p <= |s|
    requires p == |s| || !IsDigit(s[p])
    ensures MatchAt(s, p).None?
  {
  }

  lemma SpanOccurs(s: string, t: string, p: nat)
    requires SpanAt(s, t, p)
    ensures OccursAt(s, t, p)
  {
    assert s[p..p + |t|] == t;
  }

  lemma SpanOfConcat(a: string, t: string, b: string)
    ensures SpanAt(a + t + b, t, |a|)
  {
    forall k | 0 <= k < |t| ensures (a + t + b)[|a| + k] == t[k] {
      assert (a + t)[|a| + k] == t[k];
    }
  }

  lemma SpanSplit(s: string, x: string, y: string, p: nat)
    requires SpanAt(s, x + y, p)
    ensures SpanAt(s, x, p) && SpanAt(s, y, p + |x|)
  {
    forall k | 0 <= k < |x| ensures s[p + k] == x[k] {
      assert (x + y)[k] == x[k];
    }
    forall k | 0 <= k < |y| ensures s[p + |x| + k] == y[k] {
      assert s[p + (|x| + k)] == (x + y)[|x| + k] == y[k];
    }
  }

  /** A run of a class given as a string, followed by a character outside it (or by the end), has that length. */
  lemma RunOfClass(s: string, p: nat, run: string, cls: CharClass)
    requires forall k :: 0 <= k < |run| ==> InClass(cls, run[k])
    requires SpanAt(s, run, p)
    requires p + |run| == |s| || !InClass(cls, s[p + |run|])
    ensures RunLength(s, p, cls) == |run|
  {
    forall k | p <= k < p + |run| ensures InClass(cls, s[k]) {
      assert s[p + (k - p)] == run[k - p];
    }
    RunIsExact(s, p, |run|, cls);
  }

  /** Where the rest of the pattern matches, the text goes on with a letter. */
  lemma TailStart(s: string, q: nat)
    requires q <= |s| && MatchTail(s, q).Some?
    ensures q < |s| && !IsDigit(s[q]) && !IsWhitespace(s[q])
  {
    var v := UnitAt(s, q).value;
    assert s[q + 0] == UnitWord(v)[0];
  }

  /** The rest of the pattern matches a unit word, an optional `s`, whitespace and `ago`. */
  lemma TailAt(s: string, q: nat, u: Unit, pl: string, gap: string)
    requires pl == "s" || pl == ""
    requires gap != [] && IsBlank(gap)
    requires SpanAt(s, UnitWord(u), q)
    requires SpanAt(s, pl, q + |UnitWord(u)|)
    requires SpanAt(s, gap, q + |UnitWord(u)| + |pl|)
    requires SpanAt(s, "ago", q + |UnitWord(u)| + |pl| + |gap|)
    ensures MatchTail(s, q) == Some(u)
  {
    var afterWord := q + |UnitWord(u)|;
    var afterPlural := afterWord + |pl|;
    UnitAtWord(s, q, u);
    assert (if afterWord < |s| && s[afterWord] == 's' then afterWord + 1 else afterWord) == afterPlural by {
      if pl == "" {
        assert s[afterWord + 0] == gap[0];
      } else {
        assert s[afterWord + 0] == pl[0];
      }
    }
    assert s[afterPlural + |gap| + 0] == "ago"[0];
    RunOfClass(s, afterPlural, gap, Space);
  }

  /** The anchored matcher at `p`, given the lengths of the digit and whitespace runs there. */
  lemma HeadAt(s: string, p: nat, d: nat, w: nat, u: Unit)
    requires p + d + w <= |s|
    requires RunLength(s, p, Digit) == d > 0 && RunLength(s, p + d, Space) == w > 0
    requires MatchTail(s, HeadEnd(s, p)) == Some(u)
    ensures MatchAt(s, p) == Some(Captures(DigitRun(s, p), u))
  {
  }

  /** The digit and whitespace runs of a layout `digits gap <letter>`. */
  lemma HeadRuns(s: string, p: nat, digits: string, gap: string)
    requires digits != [] && AllDigits(digits) && gap != [] && IsBlank(gap)
    requires SpanAt(s, digits, p) && SpanAt(s, gap, p + |digits|)
    requires p + |digits| + |gap| < |s| && !IsWhitespace(s[p + |digits| + |gap|])
    ensures RunLength(s, p, Digit) == |digits| && RunLength(s, p + |digits|, Space) == |gap|
    ensures DigitRun(s, p) == digits
  {
    assert s[p + |digits| + 0] == gap[0];
    RunOfClass(s, p, digits, Digit);
    RunOfClass(s, p + |digits|, gap, Space);
    SpanOccurs(s, digits, p);
  }

  /** The pieces of the rendered text, each at its place. */
  lemma RenderedSpans(s: string, p: nat, digits: string, gap1: string, word: string, pl: string, gap2: string)
    requires SpanAt(s, digits + gap1 + word + pl + gap2 + "ago", p)
    ensures SpanAt(s, digits, p) && SpanAt(s, gap1, p + |digits|)
    ensures SpanAt(s, word, p + |digits| + |gap1|)
    ensures SpanAt(s, pl, p + |digits| + |gap1| + |word|)
    ensures SpanAt(s, gap2, p + |digits| + |gap1| + |word| + |pl|)
    ensures SpanAt(s, "ago", p + |digits| + |gap1| + |word| + |pl| + |gap2|)
  {
    SpanSplit(s, digits + gap1 + word + pl + gap2, "ago", p);
    SpanSplit(s, digits + gap1 + word + pl, gap2, p);
    SpanSplit(s, digits + gap1 + word, pl, p);
    SpanSplit(s, digits + gap1, word, p);
    SpanSplit(s, digits, gap1, p);
  }

  /** The anchored matcher at a position where the pattern's pieces are laid out finds their amount and unit. */
  lemma LayoutMatchesAt(s: string, p: nat, digits: string, gap1: string, u: Unit, pl: string, gap2: string)
    requires digits != [] && AllDigits(digits) && (pl == "s" || pl == "")
    requires gap1 != [] && IsBlank(gap1) && gap2 != [] && IsBlank(gap2)
    requires SpanAt(s, digits + gap1 + UnitWord(u) + pl + gap2 + "ago", p)
    ensures p <= |s| && MatchAt(s, p) == Some(Captures(digits, u))
  {
    var q := p + |digits| + |gap1|;
    assert q <= |s| && MatchTail(s, q) == Some(u) && DigitRun(s, p) == digits
      && RunLength(s, p, Digit) == |digits| && RunLength(s, p + |digits|, Space) == |gap1| by {
      RenderedSpans(s, p, digits, gap1, UnitWord(u), pl, gap2);
      TailAt(s, q, u, pl, gap2);
      TailStart(s, q);
      HeadRuns(s, p, digits, gap1);
    }
    assert HeadEnd(s, p) == q;
    HeadAt(s, p, |digits|, |gap1|, u);
  }

  /** The anchored matcher at the start of the rendered text finds its amount and unit. */
  lemma RenderedMatchesAt(before: string, n: nat, u: Unit, plural: bool, gap1: string, gap2: string, after: string)
    requires gap1 != [] && IsBlank(gap1) && gap2 != [] && IsBlank(gap2)
    ensures |before| <= |before + Render(n, u, plural, gap1, gap2) + after|
    ensures MatchAt(before + Render(n, u, plural, gap1, gap2) + after, |before|) == Some(Captures(NatToDigits(n), u))
  {
    var pl: string := if plural then "s" else "";
    SpanOfConcat(before, Render(n, u, plural, gap1, gap2), after);
    LayoutMatchesAt(before + Render(n, u, plural, gap1, gap2) + after, |before|, NatToDigits(n), gap1, u, pl, gap2);
  }

  /** No match starts inside a digit-free prefix. */
  lemma NoMatchBefore(s: string, p: nat)
    requires p <= |s| && NoDigits(s[..p])
    ensures forall j :: 0 <= j < p ==> MatchAt(s, j).None?
  {
    forall j | 0 <= j < p ensures MatchAt(s, j).None? {
      assert s[j] == s[..p][j];
      NoMatchWithoutDigit(s, j);
    }
  }

  /** The matcher finds the rendered text, with its amount and unit, wherever it is preceded by digit-free text. */
  lemma MatchRendered(before: string, n: nat, u: Unit, plural: bool, gap1: string, gap2: string, after: string)
    requires NoDigits(before)
    requires gap1 != [] && IsBlank(gap1) && gap2 != [] && IsBlank(gap2)
    ensures var c := CapturesOf(before + Render(n, u, plural, gap1, gap2) + after);
            c == Some(Captures(NatToDigits(n), u)) && DigitsValue(c.value.digits) == n
  {
    var s := before + Render(n, u, plural, gap1, gap2) + after;
    RenderedMatchesAt(before, n, u, plural, gap1, gap2, after);
    assert s[..|before|] == before;
    NoMatchBefore(s, |before|);
    LeftmostCaptures(s, |before|);
  }

  /** The parse of the rendered text: `now` minus the amount's duration. */
  lemma ParseRendered(before: string, n: nat, u: Unit, plural: bool, gap1: string, gap2: string, after: string, now: int)
    requires NoDigits(before) && n <= I64_MAX
    requires gap1 != [] && IsBlank(gap1) && gap2 != [] && IsBlank(gap2)
    ensures AmountFits(before + Render(n, u, plural, gap1, gap2) + after)
    ensures TimestampFromTimeAgo(before + Render(n, u, plural, gap1, gap2) + after, now) == Some(now - DurationOf(n, u))
  {
    var s := before + Render(n, u, plural, gap1, gap2) + after;
    MatchRendered(before, n, u, plural, gap1, gap2, after);
    TimestampOfCaptures(s, now);
  }

  /** The parse of the rendered text on its own. */
  lemma ParseRenderedAlone(n: nat, u: Unit, plural: bool, gap1: string, gap2: string, now: int)
    requires n <= I64_MAX
    requires gap1 != [] && IsBlank(gap1) && gap2 != [] && IsBlank(gap2)
    ensures AmountFits(Render(n, u, plural, gap1, gap2))
    ensures TimestampFromTimeAgo(Render(n, u, plural, gap1, gap2), now) == Some(now - DurationOf(n, u))
  {
    assert [] + Render(n, u, plural, gap1, gap2) + [] == Render(n, u, plural, gap1, gap2);
    ParseRendered([], n, u, plural, gap1, gap2, [], now);
  }

  /** For a fixed unit, a larger amount gives an earlier (or equal) timestamp. */
  lemma AmountMonotone(n1: nat, n2: nat, u: Unit, now: int)
    requires n1 <= n2 <= I64_MAX
    ensures AmountFits(Render(n1, u, true, " ", " ")) && AmountFits(Render(n2, u, true, " ", " "))
    ensures TimestampFromTimeAgo(Render(n1, u, true, " ", " "), now).Some?
    ensures TimestampFromTimeAgo(Render(n2, u, true, " ", " "), now).Some?
    ensures TimestampFromTimeAgo(Render(n2, u, true, " ", " "), now).value
            <= TimestampFromTimeAgo(Render(n1, u, true, " ", " "), now).value
  {
    ParseRenderedAlone(n1, u, true, " ", " ", now);
    ParseRenderedAlone(n2, u, true, " ", " ", now);
    DurationMonotone(n1, n2, u);
  }

  lemma DurationMonotone(n1: nat, n2: nat, u: Unit)
    requires n1 <= n2
    ensures DurationOf(n1, u) <= DurationOf(n2, u)
  {
  }

  /** Text without any digit never matches. */
  lemma NoDigitsNoTimestamp(s: string, now: int)
    requires NoDigits(s)
    ensures AmountFits(s) && TimestampFromTimeAgo(s, now).None?
  {
    forall p | 0 <= p <= |s| ensures MatchAt(s, p).None? {
      NoMatchWithoutDigit(s, p);
    }
    VerdictsAreMatches(s, |s| + 1);
    FirstMatchNone(Verdicts(s, |s| + 1), 0);
  }
}
