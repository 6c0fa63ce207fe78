/**
  The sliding-window summariser of a caption text: windows of 2000 characters
  that advance by 1000, each summarised with a rolling context that keeps the last
  500 characters of the earlier summaries, and one final combination of all the
  window summaries. The chat calls are oracles.
 */
module SlidingWindows {
  import opened Wrappers

  const WindowSize: nat := 2000
  const SlideSize: nat := 1000
  const ContextSize: nat := 500

  function Min(a: nat, b: nat): nat {
    if a <= b then a else b
  }

  /** The start of window `k`: `k` slides of `SlideSize`. */
  function WindowStart(k: nat): nat {
    1000 * k
  }

  /** The end of window `k` over a text of length `n`. */
  function WindowEnd(n: nat, k: nat): nat {
    Min(WindowStart(k) + WindowSize, n)
  }

  /**
    The context after a summary: the old context, a newline and the summary, cut
    to its last `ContextSize` characters when longer.
   */
  function ContextAfter(context: string, summary: string): string {
    var joined := context + "\n" + summary;
    if |joined| > ContextSize then joined[|joined| - ContextSize..] else joined
  }

  /** The new context is the tail of the old context, a newline and the summary, at most `ContextSize` long. */
  lemma ContextAfterIsTail(context: string, summary: string)
    ensures var r := ContextAfter(context, summary);
      && |r| == Min(|context| + 1 + |summary|, ContextSize)
      && r == (context + "\n" + summary)[|context + "\n" + summary| - |r|..]
  {
  }

  /** A summary that fits ends the new context. */
  lemma ContextEndsWithSummary(context: string, summary: string)
    requires |summary| < ContextSize
    ensures var r := ContextAfter(context, summary);
      |summary| < |r| && r[|r| - |summary|..] == summary && r[|r| - |summary| - 1] == '\n'
  {
    var joined := context + "\n" + summary;
    var r := ContextAfter(context, summary);
    var cut := if |joined| > ContextSize then |joined| - ContextSize else 0;
    assert r == joined[cut..];
    assert r[|r| - |summary|..] == joined[|joined| - |summary|..];
    assert r[|r| - |summary| - 1] == joined[|joined| - |summary| - 1];
    assert joined[|joined| - |summary|..] == summary;
  }

  /** `SlidingWindow`: the text, the current window `[start, end)` and the rolling context. */
  class SlidingWindow {
    var text: string
    var start: nat
    var end: nat
    var context: string

    /**
      The window lies in the text and is `WindowSize` long unless it reaches the end
      of the text; the context is at most `ContextSize` long.
     */
    predicate Valid()
      reads this
    {
      start <= end <= |text| && end == Min(start + WindowSize, |text|) && |context| <= ContextSize
    }

    /** `SlidingWindow::new`: the first window and an empty context. */
    constructor (t: string)
      ensures text == t && start == 0 && end == Min(WindowSize, |t|) && context == ""
      ensures Valid()
    {
      text := t;
      start := 0;
      end := Min(WindowSize, |t|);
      context := "";
    }

    /**
      `slide`: at the end of the text, report `false` and change nothing; otherwise
      advance the start by `SlideSize` and the end by up to that much.
     */
    method Slide() returns (moved: bool)
      requires Valid()
      modifies this
      ensures Valid()
      ensures moved <==> old(end) < |text|
      ensures text == old(text) && context == old(context)
      ensures !moved ==> start == old(start) && end == old(end)
      ensures moved ==> start == old(start) + SlideSize && end == Min(start + WindowSize, |text|) && end > old(end)
    {
      if end >= |text| {
        return false;
      }
      start := start + SlideSize;
      end := Min(start + WindowSize, |text|);
      moved := true;
    }

    /** `current_window`: the text of the window. */
    function CurrentWindow(): (w: string)
      requires Valid()
      reads this
      ensures |w| == end - start && |w| <= WindowSize
      ensures text[..start] + w + text[end..] == text
    {
      assert text[..start] + text[start..end] + text[end..] == text;
      text[start..end]
    }

    /** `update_context`. */
    method UpdateContext(summary: string)
      requires Valid()
      modifies this
      ensures Valid()
      ensures context == ContextAfter(old(context), summary)
      ensures text == old(text) && start == old(start) && end == old(end)
    {
      var joined := context + "\n" + summary;
      if |joined| > ContextSize {
        joined := joined[|joined| - ContextSize..];
      }
      context := joined;
    }
  }

  /** The chat calls made, each with its window text and context, and the combined summaries if combination was reached. */
  datatype SlidingRun = SlidingRun(result: Result<string, string>, calls: seq<(string, string)>, combined: Option<seq<string>>)

  /**
    The loop of `summarize_with_sliding_window` from window `k` on, with the context
    and summaries so far and the calls already made.
   */
  function RunFrom(text: string, k: nat, context: string, summaries: seq<string>, calls: seq<(string, string)>,
                   summarize: (string, string) -> Result<string, string>, combine: seq<string> -> Result<string, string>): SlidingRun
    requires WindowStart(k) <= |text|
    decreases |text| - WindowStart(k)
  {
    var chunk := text[WindowStart(k)..WindowEnd(|text|, k)];
    var calls' := calls + [(chunk, context)];
    match summarize(chunk, context)
    case Err(e) => SlidingRun(Err(e), calls', None)
    case Ok(s) =>
      if WindowEnd(|text|, k) >= |text| then SlidingRun(combine(summaries + [s]), calls', Some(summaries + [s]))
      else RunFrom(text, k + 1, ContextAfter(context, s), summaries + [s], calls', summarize, combine)
  }

  /** `summarize_with_sliding_window` on a text. */
  function Run(text: string, summarize: (string, string) -> Result<string, string>,
               combine: seq<string> -> Result<string, string>): SlidingRun
  {
    RunFrom(text, 0, "", [], [], summarize, combine)
  }

  /** How many windows a text of length `n` has from window `k` on. */
  function WindowsFrom(n: nat, k: nat): nat
    decreases n - WindowStart(k)
  {
    if WindowEnd(n, k) >= n then 1 else 1 + WindowsFrom(n, k + 1)
  }

  /** The text of window `k`. */
  function Window(text: string, k: nat): string
    requires WindowStart(k) <= |text|
  {
    text[WindowStart(k)..WindowEnd(|text|, k)]
  }

  /** From window `k` on, the calls made so far are kept and the next call gets window `k` with the context given. */
  lemma {:induction false} RunFromFirst(text: string, k: nat, context: string, summaries: seq<string>, calls: seq<(string, string)>,
                                        summarize: (string, string) -> Result<string, string>, combine: seq<string> -> Result<string, string>)
    requires WindowStart(k) <= |text|
    ensures var r := RunFrom(text, k, context, summaries, calls, summarize, combine);
      && |calls| < |r.calls| && r.calls[..|calls| + 1] == calls + [(Window(text, k), context)]
      && r.calls[|calls|] == (Window(text, k), context)
    decreases |text| - WindowStart(k)
  {
    RunFromStep(text, k, context, summaries, calls, summarize, combine);
    var one := summarize(Window(text, k), context);
    if one.Ok? && WindowEnd(|text|, k) < |text| {
      var s := one.value;
      var calls' := calls + [(Window(text, k), context)];
      RunFromFirst(text, k + 1, ContextAfter(context, s), summaries + [s], calls', summarize, combine);
      var r := RunFrom(text, k + 1, ContextAfter(context, s), summaries + [s], calls', summarize, combine);
      assert r.calls[..|calls'|] == calls';
      assert r.calls[..|calls| + 1] == r.calls[..|calls'| + 1][..|calls'|];
    }
    var r := RunFrom(text, k, context, summaries, calls, summarize, combine);
    assert r.calls[|calls|] == r.calls[..|calls| + 1][|calls|];
  }

  /** One step of the loop: a call that fails or the last window ends the run; otherwise the run goes on from the next window. */
  lemma RunFromStep(text: string, k: nat, context: string, summaries: seq<string>, calls: seq<(string, string)>,
                    summarize: (string, string) -> Result<string, string>, combine: seq<string> -> Result<string, string>)
    requires WindowStart(k) <= |text|
    ensures var r := RunFrom(text, k, context, summaries, calls, summarize, combine);
      var one := summarize(Window(text, k), context);
      && (one.Err? || WindowEnd(|text|, k) >= |text| ==> |r.calls| == |calls| + 1)
      && (one.Ok? && WindowEnd(|text|, k) < |text| ==>
            && WindowStart(k + 1) <= |text|
            && r == RunFrom(text, k + 1, ContextAfter(context, one.value), summaries + [one.value],
                            calls + [(Window(text, k), context)], summarize, combine))
  {
  }

  /** From window `k` on, the `j`-th new call gets window `k + j`. */
  lemma {:induction false} RunFromWindows(text: string, k: nat, context: string, summaries: seq<string>, calls: seq<(string, string)>,
                                          summarize: (string, string) -> Result<string, string>, combine: seq<string> -> Result<string, string>,
                                          j: nat)
    requires WindowStart(k) <= |text|
    requires |calls| + j < |RunFrom(text, k, context, summaries, calls, summarize, combine).calls|
    ensures WindowStart(k + j) <= |text|
    ensures RunFrom(text, k, context, summaries, calls, summarize, combine).calls[|calls| + j].0 == Window(text, k + j)
    decreases j
  {
    if j == 0 {
      RunFromFirst(text, k, context, summaries, calls, summarize, combine);
    } else {
      RunFromStep(text, k, context, summaries, calls, summarize, combine);
      var s := summarize(Window(text, k), context).value;
      var calls' := calls + [(Window(text, k), context)];
      RunFromWindows(text, k + 1, ContextAfter(context, s), summaries + [s], calls', summarize, combine, j - 1);
      assert |calls'| + (j - 1) == |calls| + j && k + 1 + (j - 1) == k + j;
    }
  }

  /**
    A run from window `k` that reaches the combination has made one call per
    remaining window, combines one summary per call after those it started with,
    and its last window ends the text.
   */
  lemma {:induction false} RunFromCombined(text: string, k: nat, context: string, summaries: seq<string>, calls: seq<(string, string)>,
                                           summarize: (string, string) -> Result<string, string>, combine: seq<string> -> Result<string, string>)
    requires WindowStart(k) <= |text|
    ensures var r := RunFrom(text, k, context, summaries, calls, summarize, combine);
      r.combined.Some? ==>
        && |r.calls| == |calls| + WindowsFrom(|text|, k)
        && |r.combined.value| == |summaries| + WindowsFrom(|text|, k)
        && r.combined.value[..|summaries|] == summaries
        && r.result == combine(r.combined.value)
        && WindowEnd(|text|, k + WindowsFrom(|text|, k) - 1) == |text|
    decreases |text| - WindowStart(k)
  {
    RunFromStep(text, k, context, summaries, calls, summarize, combine);
    var one := summarize(Window(text, k), context);
    if one.Ok? && WindowEnd(|text|, k) < |text| {
      var s := one.value;
      var calls' := calls + [(Window(text, k), context)];
      RunFromCombined(text, k + 1, ContextAfter(context, s), summaries + [s], calls', summarize, combine);
      var r := RunFrom(text, k + 1, ContextAfter(context, s), summaries + [s], calls', summarize, combine);
      if r.combined.Some? {
        assert r.combined.value[..|summaries|] == r.combined.value[..|summaries| + 1][..|summaries|];
      }
    }
  }

  /**
    A run from window `k` that reaches the combination combines, after the summaries it
    started with, the reply of each of its calls, in call order.
   */
  lemma {:induction false} RunFromReplies(text: string, k: nat, context: string, summaries: seq<string>, calls: seq<(string, string)>,
                                          summarize: (string, string) -> Result<string, string>, combine: seq<string> -> Result<string, string>)
    requires WindowStart(k) <= |text|
    ensures var r := RunFrom(text, k, context, summaries, calls, summarize, combine);
      r.combined.Some? ==>
        && |r.calls| - |calls| == |r.combined.value| - |summaries|
        && forall i :: |calls| <= i < |r.calls| ==>
             summarize(r.calls[i].0, r.calls[i].1) == Ok(r.combined.value[i - |calls| + |summaries|])
    decreases |text| - WindowStart(k)
  {
    var r := RunFrom(text, k, context, summaries, calls, summarize, combine);
    RunFromStep(text, k, context, summaries, calls, summarize, combine);
    RunFromFirst(text, k, context, summaries, calls, summarize, combine);
    RunFromCombined(text, k, context, summaries, calls, summarize, combine);
    var one := summarize(Window(text, k), context);
    if r.combined.Some? && one.Ok? && WindowEnd(|text|, k) < |text| {
      var s := one.value;
      var calls' := calls + [(Window(text, k), context)];
      RunFromReplies(text, k + 1, ContextAfter(context, s), summaries + [s], calls', summarize, combine);
      RunFromCombined(text, k + 1, ContextAfter(context, s), summaries + [s], calls', summarize, combine);
      assert r.combined.value[|summaries|] == r.combined.value[..|summaries| + 1][|summaries|];
    }
  }

  /** A run that does not reach the combination ends with the failing call's error. */
  lemma {:induction false} RunFromFailed(text: string, k: nat, context: string, summaries: seq<string>, calls: seq<(string, string)>,
                                         summarize: (string, string) -> Result<string, string>, combine: seq<string> -> Result<string, string>)
    requires WindowStart(k) <= |text|
    ensures var r := RunFrom(text, k, context, summaries, calls, summarize, combine);
      r.combined.None? ==> r.calls != [] && r.result == summarize(r.calls[|r.calls| - 1].0, r.calls[|r.calls| - 1].1) && r.result.Err?
    decreases |text| - WindowStart(k)
  {
    RunFromStep(text, k, context, summaries, calls, summarize, combine);
    var one := summarize(Window(text, k), context);
    if one.Ok? && WindowEnd(|text|, k) < |text| {
      var s := one.value;
      RunFromFailed(text, k + 1, ContextAfter(context, s), summaries + [s], calls + [(Window(text, k), context)], summarize, combine);
    }
  }

  /**
    The whole run: the first call gets the first window and an empty context, every
    call its own window; a run that combines has called once per window and combined
    as many summaries; a run that does not ends with the failing call's error.
   */
  lemma RunSpec(text: string, summarize: (string, string) -> Result<string, string>, combine: seq<string> -> Result<string, string>)
    ensures var r := Run(text, summarize, combine);
      && 1 <= |r.calls|
      && r.calls[0] == (text[..Min(WindowSize, |text|)], "")
      && (forall i :: 0 <= i < |r.calls| ==> WindowStart(i) <= |text| && r.calls[i].0 == Window(text, i))
      && (r.combined.Some? ==> |r.calls| == |r.combined.value| == WindowsFrom(|text|, 0) && r.result == combine(r.combined.value))
      && (r.combined.Some? ==> forall i :: 0 <= i < |r.calls| ==> summarize(r.calls[i].0, r.calls[i].1) == Ok(r.combined.value[i]))
      && (r.combined.None? ==> r.result.Err?)
  {
    var r := Run(text, summarize, combine);
    RunFromFirst(text, 0, "", [], [], summarize, combine);
    forall i | 0 <= i < |r.calls| ensures WindowStart(i) <= |text| && r.calls[i].0 == Window(text, i) {
      RunFromWindows(text, 0, "", [], [], summarize, combine, i);
    }
    RunFromCombined(text, 0, "", [], [], summarize, combine);
    RunFromReplies(text, 0, "", [], [], summarize, combine);
    RunFromFailed(text, 0, "", [], [], summarize, combine);
  }

  /** Call `i` succeeded and call `i + 1` got the context updated with its summary. */
  predicate ThreadedAt(cs: seq<(string, string)>, i: nat, summarize: (string, string) -> Result<string, string>)
    requires i + 1 < |cs|
  {
    summarize(cs[i].0, cs[i].1).Ok? && cs[i + 1].1 == ContextAfter(cs[i].1, summarize(cs[i].0, cs[i].1).value)
  }

  /** A run with more than one new call went on past window `k`, whose call succeeded. */
  lemma RunGoesOn(text: string, k: nat, context: string, summaries: seq<string>, calls: seq<(string, string)>,
                  summarize: (string, string) -> Result<string, string>, combine: seq<string> -> Result<string, string>)
    requires WindowStart(k) <= |text|
    requires |calls| + 1 < |RunFrom(text, k, context, summaries, calls, summarize, combine).calls|
    ensures summarize(Window(text, k), context).Ok? && WindowEnd(|text|, k) < |text| && WindowStart(k + 1) <= |text|
    ensures var s := summarize(Window(text, k), context).value;
      RunFrom(text, k, context, summaries, calls, summarize, combine).calls
        == RunFrom(text, k + 1, ContextAfter(context, s), summaries + [s], calls + [(Window(text, k), context)], summarize, combine).calls
  {
    RunFromStep(text, k, context, summaries, calls, summarize, combine);
  }

  /** The first call of a run that goes on succeeded, and the second got the context updated with its summary. */
  lemma ThreadedFirst(text: string, k: nat, context: string, summaries: seq<string>, calls: seq<(string, string)>,
                      summarize: (string, string) -> Result<string, string>, combine: seq<string> -> Result<string, string>)
    requires WindowStart(k) <= |text|
    requires |calls| + 1 < |RunFrom(text, k, context, summaries, calls, summarize, combine).calls|
    ensures ThreadedAt(RunFrom(text, k, context, summaries, calls, summarize, combine).calls, |calls|, summarize)
  {
    RunGoesOn(text, k, context, summaries, calls, summarize, combine);
    var s := summarize(Window(text, k), context).value;
    var calls' := calls + [(Window(text, k), context)];
    var context' := ContextAfter(context, s);
    RunFromFirst(text, k, context, summaries, calls, summarize, combine);
    RunFromFirst(text, k + 1, context', summaries + [s], calls', summarize, combine);
  }

  /** Each call after the first gets the context updated with the summary of the call before it. */
  lemma {:induction false} ContextThreaded(text: string, k: nat, context: string, summaries: seq<string>, calls: seq<(string, string)>,
                                           summarize: (string, string) -> Result<string, string>, combine: seq<string> -> Result<string, string>)
    requires WindowStart(k) <= |text|
    ensures var cs := RunFrom(text, k, context, summaries, calls, summarize, combine).calls;
      forall i :: |calls| <= i && i + 1 < |cs| ==> ThreadedAt(cs, i, summarize)
    decreases |text| - WindowStart(k)
  {
    var cs := RunFrom(text, k, context, summaries, calls, summarize, combine).calls;
    if |calls| + 1 < |cs| {
      RunGoesOn(text, k, context, summaries, calls, summarize, combine);
      ThreadedFirst(text, k, context, summaries, calls, summarize, combine);
      var s := summarize(Window(text, k), context).value;
      ContextThreaded(text, k + 1, ContextAfter(context, s), summaries + [s], calls + [(Window(text, k), context)], summarize, combine);
    }
  }

  /** Up to 2000 characters take one window; each further 1000, or part of it, one more. */
  lemma {:induction false} WindowCount(n: nat, k: nat)
    requires WindowStart(k) <= n
    ensures n <= WindowStart(k) + WindowSize ==> WindowsFrom(n, k) == 1
    ensures n > WindowStart(k) + WindowSize ==> WindowsFrom(n, k) == 1 + WindowsFrom(n, k + 1)
  {
  }

  /** `summarize_with_sliding_window`, driving a `SlidingWindow`. */
  method SummarizeWithSlidingWindow(vtt: string, summarize: (string, string) -> Result<string, string>,
                                    combine: seq<string> -> Result<string, string>)
    returns (r: Result<string, string>, ghost calls: seq<(string, string)>, combined: Option<seq<string>>)
    ensures Run(vtt, summarize, combine) == SlidingRun(r, calls, combined)
  {
    var window := new SlidingWindow(vtt);
    var summaries: seq<string> := [];
    ghost var k: nat := 0;
    calls := [];
    while true
      invariant window.Valid() && window.text == vtt
      invariant window.start == WindowStart(k) && window.end == WindowEnd(|vtt|, k)
      invariant Run(vtt, summarize, combine) == RunFrom(vtt, k, window.context, summaries, calls, summarize, combine)
      decreases |vtt| - window.end
    {
      var chunk := window.CurrentWindow();
      calls := calls + [(chunk, window.context)];
      var summary := summarize(chunk, window.context);
      if summary.Err? {
        return Err(summary.error), calls, None;
      }
      window.UpdateContext(summary.value);
      summaries := summaries + [summary.value];
      var moved := window.Slide();
      if !moved {
        break;
      }
      k := k + 1;
    }
    combined := Some(summaries);
    r := combine(summaries);
  }
}
