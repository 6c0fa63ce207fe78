/**
  The wait time a rate-limited chat request is told to observe: the number between
  `"Please try again in "` and the next `"ms"` of the error text, read as a `u64`.
 */
module RateLimit {
  import opened Wrappers
  import opened Text

  const Marker: string := "Please try again in "
  const U64_MAX: int := 0xffff_ffff_ffff_ffff

  /** `str::parse::<u64>`: an optional `+`, then at least one ASCII digit, the value at most `u64::MAX`. */
  function ParseU64(s: string): (r: Option<nat>)
    ensures r.Some? ==> r.value <= U64_MAX
    ensures r.Some? ==> s != [] && s != "+"
  {
    var digits := if |s| > 0 && s[0] == '+' then s[1..] else s;
    if digits != [] && AllDigits(digits) && DigitsValue(digits) <= U64_MAX then Some(DigitsValue(digits)) else None
  }

  /** `extract_wait_time_ms_from_error`. */
  function ExtractWaitTimeMs(errMsg: string): (r: Option<nat>)
    ensures r.Some? ==> Contains(errMsg, Marker) && r.value <= U64_MAX
  {
    match Find(errMsg, Marker)
    case None => None
    case Some(start) => WaitBeforeMs(errMsg[start + |Marker|..])
  }

  /** The text after the marker: what precedes its first `"ms"`, trimmed, read as a `u64`. */
  function WaitBeforeMs(after: string): (r: Option<nat>)
    ensures r.Some? ==> Contains(after, "ms") && r.value <= U64_MAX
  {
    match Find(after, "ms")
    case None => None
    case Some(end) => ParseU64(Trim(after[..end]))
  }

  /** The decimal rendering of a `u64` parses back to it. */
  lemma ParseRendered(n: nat)
    requires n <= U64_MAX
    ensures ParseU64(NatToDigits(n)) == Some(n)
  {
    var d := NatToDigits(n);
    assert d[0] != '+' by {
      assert IsDigit(d[0]);
    }
  }

  /** A message without the marker carries no hint. */
  lemma NoMarkerNoHint(errMsg: string)
    requires !Contains(errMsg, Marker)
    ensures ExtractWaitTimeMs(errMsg).None?
  {
  }

  /** The marker, found after text without a `P`, hands the rest of the message to `WaitBeforeMs`. */
  lemma MarkerFound(prefix: string, rest: string)
    requires 'P' !in prefix
    ensures ExtractWaitTimeMs(prefix + Marker + rest) == WaitBeforeMs(rest)
  {
    FindAfterFree(prefix, Marker, rest);
    assert (prefix + Marker + rest)[|prefix| + |Marker|..] == rest;
  }

  /** A number between blank margins without an `m`, followed by `ms`, is read back. */
  lemma NumberBeforeMs(gap1: string, n: nat, gap2: string, suffix: string)
    requires n <= U64_MAX
    requires IsBlank(gap1) && IsBlank(gap2) && 'm' !in gap1 && 'm' !in gap2
    ensures WaitBeforeMs(gap1 + NatToDigits(n) + gap2 + "ms" + suffix) == Some(n)
  {
    var digits := NatToDigits(n);
    var body := gap1 + digits + gap2;
    assert 'm' !in body by {
      assert forall i :: 0 <= i < |digits| ==> digits[i] != 'm';
    }
    FindAfterFree(body, "ms", suffix);
    assert (body + "ms" + suffix)[..|body|] == body;
    TrimAround(gap1, digits, gap2);
    ParseRendered(n);
  }

  /**
    The hint round-trips: a message carrying `Please try again in <n>ms` after text
    without a `P` yields `n`, whatever whitespace surrounds the number and whatever follows.
   */
  lemma HintRoundTrip(prefix: string, gap1: string, n: nat, gap2: string, suffix: string)
    requires 'P' !in prefix && n <= U64_MAX
    requires IsBlank(gap1) && IsBlank(gap2) && 'm' !in gap1 && 'm' !in gap2
    ensures ExtractWaitTimeMs(prefix + Marker + gap1 + NatToDigits(n) + gap2 + "ms" + suffix) == Some(n)
  {
    var rest := gap1 + NatToDigits(n) + gap2 + "ms" + suffix;
    assert prefix + Marker + gap1 + NatToDigits(n) + gap2 + "ms" + suffix == prefix + Marker + rest;
    MarkerFound(prefix, rest);
    NumberBeforeMs(gap1, n, gap2, suffix);
  }

  lemma Digits1500()
    ensures NatToDigits(1500) == "1500"
  {
    assert NatToDigits(1) == "1";
  }

  /** The wait time of an OpenAI rate-limit reply, `... Please try again in 1500ms. ...`. */
  lemma Example1500(errMsg: string)
    requires errMsg == "Rate limit reached. " + Marker + "1500" + "ms" + ". Visit the usage page."
    ensures ExtractWaitTimeMs(errMsg) == Some(1500)
  {
    Digits1500();
    assert errMsg == "Rate limit reached. " + Marker + [] + NatToDigits(1500) + [] + "ms" + ". Visit the usage page.";
    HintRoundTrip("Rate limit reached. ", [], 1500, [], ". Visit the usage page.");
  }
}
