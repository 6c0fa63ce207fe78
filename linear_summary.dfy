/**
  `summarize_linear`: a transcript is split on a delimiter, every non-blank piece is
  summarised in order with the summaries so far as context, and the summaries are
  combined once. The two model calls are oracles; the method returns the calls it made.
 */
module LinearSummary {
  import opened Wrappers
  import opened Text

  /** One call of `summarize_chunk`: the trimmed piece and the context it was given. */
  datatype ChunkCall = ChunkCall(chunk: string, context: Option<string>)

  /** The chunk phase: the calls made, and the summaries or the first error. */
  datatype ChunkPhase = ChunkPhase(calls: seq<ChunkCall>, outcome: Result<seq<string>, string>)

  /** The pieces as `trim` leaves them, in order, without the empty ones. */
  function Chunks(pieces: seq<string>, trim: string -> string): (r: seq<string>)
    ensures |r| <= |pieces|
    ensures forall k :: 0 <= k < |r| ==> r[k] != []
  {
    if pieces == [] then []
    else ChunkOf(pieces[0], trim) + Chunks(pieces[1..], trim)
  }

  /** The context after the summaries `done`: none before the first, then all of them joined by newlines. */
  function ContextOf(done: seq<string>): Option<string> {
    if done == [] then None else Some(Join(done, "\n"))
  }

  /** The context update of the loop: the new summary on a line after the current context. */
  function NextContext(context: Option<string>, summary: string): Option<string> {
    Some(match context
      case Some(current) => current + "\n" + summary
      case None => summary)
  }

  /** Updating the context by each summary keeps it equal to the join of all summaries so far. */
  lemma NextContextJoins(done: seq<string>, summary: string)
    ensures NextContext(ContextOf(done), summary) == ContextOf(done + [summary])
  {
    if done != [] {
      JoinSnoc(done, "\n", summary);
    }
  }

  /** The chunk calls from the point where the summaries `done` have been made. */
  function Phase(chunks: seq<string>, summarize: (string, Option<string>) -> Result<string, string>, done: seq<string>): ChunkPhase
    decreases |chunks|
  {
    if chunks == [] then ChunkPhase([], Ok(done))
    else
      var call := ChunkCall(chunks[0], ContextOf(done));
      match summarize(call.chunk, call.context)
      case Err(e) => ChunkPhase([call], Err(e))
      case Ok(s) =>
        var rest := Phase(chunks[1..], summarize, done + [s]);
        ChunkPhase([call] + rest.calls, rest.outcome)
  }

  /** The whole of `summarize_linear`: the chunk calls, the list `combine_summaries` got, and the result. */
  datatype LinearRun = LinearRun(calls: seq<ChunkCall>, combined: Option<seq<string>>, result: Result<string, string>)

  function Linear(transcript: string, delimiter: string,
                  summarize: (string, Option<string>) -> Result<string, string>,
                  combine: seq<string> -> Result<string, string>): LinearRun
  {
    LinearOver(Split(transcript, delimiter), Trim, summarize, combine)
  }

  /** The run over the pieces of the split transcript. */
  function LinearOver(pieces: seq<string>, trim: string -> string,
                      summarize: (string, Option<string>) -> Result<string, string>,
                      combine: seq<string> -> Result<string, string>): LinearRun
  {
    var phase := Phase(Chunks(pieces, trim), summarize, []);
    match phase.outcome
    case Err(e) => LinearRun(phase.calls, None, Err(e))
    case Ok(summaries) => LinearRun(phase.calls, Some(summaries), combine(summaries))
  }

  /** A phase preceded by the calls `before`. */
  function AfterCalls(before: seq<ChunkCall>, p: ChunkPhase): ChunkPhase {
    ChunkPhase(before + p.calls, p.outcome)
  }

  /** The chunk a piece contributes: its trimmed text, unless that is empty. */
  function ChunkOf(piece: string, trim: string -> string): seq<string> {
    if trim(piece) == [] then [] else [trim(piece)]
  }

  lemma ChunksFrom(pieces: seq<string>, trim: string -> string, i: nat)
    requires i < |pieces|
    ensures Chunks(pieces[i..], trim) == ChunkOf(pieces[i], trim) + Chunks(pieces[i + 1..], trim)
  {
    assert pieces[i..][1..] == pieces[i + 1..];
  }

  /** `summarize_linear`. */
  method SummarizeLinear(transcript: string, delimiter: string,
                         summarize: (string, Option<string>) -> Result<string, string>,
                         combine: seq<string> -> Result<string, string>)
    returns (r: Result<string, string>, calls: seq<ChunkCall>, combined: Option<seq<string>>)
    ensures LinearRun(calls, combined, r) == Linear(transcript, delimiter, summarize, combine)
  {
    r, calls, combined := SummarizePieces(Split(transcript, delimiter), Trim, summarize, combine);
  }

  /** The loop of `summarize_linear` over the pieces of the split transcript, each cut down by `trim`. */
  method SummarizePieces(pieces: seq<string>, trim: string -> string,
                         summarize: (string, Option<string>) -> Result<string, string>,
                         combine: seq<string> -> Result<string, string>)
    returns (r: Result<string, string>, calls: seq<ChunkCall>, combined: Option<seq<string>>)
    ensures LinearRun(calls, combined, r) == LinearOver(pieces, trim, summarize, combine)
  {
    var summaries: seq<string> := [];
    var context: Option<string> := None;
    calls := [];
    assert pieces[0..] == pieces;
    for i := 0 to |pieces|
      invariant context == ContextOf(summaries)
      invariant Phase(Chunks(pieces, trim), summarize, []) == AfterCalls(calls, Phase(Chunks(pieces[i..], trim), summarize, summaries))
    {
      var chunk := trim(pieces[i]);
      if chunk == [] {
        SkipStep(pieces, trim, i, calls, summarize, summaries);
        continue;
      }
      CallStep(pieces, trim, i, calls, summarize, summaries);
      calls := calls + [ChunkCall(chunk, context)];
      var summary := summarize(chunk, context);
      if summary.Err? {
        return Err(summary.error), calls, None;
      }
      NextContextJoins(summaries, summary.value);
      context := NextContext(context, summary.value);
      summaries := summaries + [summary.value];
    }
    assert pieces[|pieces|..] == [];
    combined := Some(summaries);
    r := combine(summaries);
  }

  /** A blank piece makes no call. */
  lemma SkipStep(pieces: seq<string>, trim: string -> string, i: nat, calls: seq<ChunkCall>,
                 summarize: (string, Option<string>) -> Result<string, string>, done: seq<string>)
    requires i < |pieces| && trim(pieces[i]) == []
    ensures AfterCalls(calls, Phase(Chunks(pieces[i..], trim), summarize, done))
      == AfterCalls(calls, Phase(Chunks(pieces[i + 1..], trim), summarize, done))
  {
    ChunksFrom(pieces, trim, i);
    assert Chunks(pieces[i..], trim) == Chunks(pieces[i + 1..], trim);
  }

  /** A non-blank piece makes one call, with the context of the summaries so far. */
  lemma CallStep(pieces: seq<string>, trim: string -> string, i: nat, calls: seq<ChunkCall>,
                 summarize: (string, Option<string>) -> Result<string, string>, done: seq<string>)
    requires i < |pieces| && trim(pieces[i]) != []
    ensures var call := ChunkCall(trim(pieces[i]), ContextOf(done));
      var reply := summarize(call.chunk, call.context);
      var p := AfterCalls(calls, Phase(Chunks(pieces[i..], trim), summarize, done));
      && (reply.Err? ==> p == ChunkPhase(calls + [call], Err(reply.error)))
      && (reply.Ok? ==> p == AfterCalls(calls + [call], Phase(Chunks(pieces[i + 1..], trim), summarize, done + [reply.value])))
  {
    ChunksFrom(pieces, trim, i);
    CallFirst(trim(pieces[i]), Chunks(pieces[i + 1..], trim), calls, summarize, done);
  }

  lemma CallFirst(chunk: string, chunks: seq<string>, calls: seq<ChunkCall>,
                  summarize: (string, Option<string>) -> Result<string, string>, done: seq<string>)
    ensures var call := ChunkCall(chunk, ContextOf(done));
      var reply := summarize(call.chunk, call.context);
      var p := AfterCalls(calls, Phase([chunk] + chunks, summarize, done));
      && (reply.Err? ==> p == ChunkPhase(calls + [call], Err(reply.error)))
      && (reply.Ok? ==> p == AfterCalls(calls + [call], Phase(chunks, summarize, done + [reply.value])))
  {
    var call := ChunkCall(chunk, ContextOf(done));
    assert ([chunk] + chunks)[0] == chunk && ([chunk] + chunks)[1..] == chunks;
    if summarize(call.chunk, call.context).Ok? {
      var rest := Phase(chunks, summarize, done + [summarize(call.chunk, call.context).value]);
      assert (calls + [call]) + rest.calls == calls + ([call] + rest.calls);
    }
  }

  /**
    Call `k` is given the `k`-th chunk, all calls but the last succeeded, and a phase that
    fails ends with the call that returned its error.
   */
  lemma {:induction false} PhaseCalls(chunks: seq<string>, summarize: (string, Option<string>) -> Result<string, string>, done: seq<string>)
    ensures var p := Phase(chunks, summarize, done);
      && |p.calls| <= |chunks|
      && (forall k :: 0 <= k < |p.calls| ==> p.calls[k].chunk == chunks[k])
      && (forall k :: 0 <= k < |p.calls| - 1 ==> summarize(p.calls[k].chunk, p.calls[k].context).Ok?)
      && (p.outcome.Err? ==> p.calls != [] && summarize(p.calls[|p.calls| - 1].chunk, p.calls[|p.calls| - 1].context) == Err(p.outcome.error))
    decreases |chunks|
  {
    if chunks != [] {
      var call := ChunkCall(chunks[0], ContextOf(done));
      match summarize(call.chunk, call.context)
      case Err(e) =>
      case Ok(s) =>
        PhaseCalls(chunks[1..], summarize, done + [s]);
        var rest := Phase(chunks[1..], summarize, done + [s]);
        assert Phase(chunks, summarize, done).calls == [call] + rest.calls;
    }
  }

  /**
    A phase that succeeds made one call per chunk; call `k` had as context the summaries
    before it (none for the first call, else those joined by newlines) and returned the
    `k`-th new summary.
   */
  lemma {:induction false} PhaseOk(chunks: seq<string>, summarize: (string, Option<string>) -> Result<string, string>, done: seq<string>)
    ensures var p := Phase(chunks, summarize, done);
      p.outcome.Ok? ==>
        && |p.calls| == |chunks| && |p.outcome.value| == |done| + |chunks| && p.outcome.value[..|done|] == done
        && forall k :: 0 <= k < |p.calls| ==>
             p.calls[k].context == ContextOf(p.outcome.value[..|done| + k])
             && summarize(p.calls[k].chunk, p.calls[k].context) == Ok(p.outcome.value[|done| + k])
    decreases |chunks|
  {
    if chunks != [] {
      var call := ChunkCall(chunks[0], ContextOf(done));
      match summarize(call.chunk, call.context)
      case Err(e) =>
      case Ok(s) =>
        PhaseOk(chunks[1..], summarize, done + [s]);
        var rest := Phase(chunks[1..], summarize, done + [s]);
        var p := Phase(chunks, summarize, done);
        assert p.calls == [call] + rest.calls;
        if p.outcome.Ok? {
          var all := p.outcome.value;
          assert all[..|done| + 1] == done + [s];
          assert all[..|done|] == (done + [s])[..|done|];
          forall k | 0 <= k < |p.calls|
            ensures p.calls[k].context == ContextOf(all[..|done| + k])
            && summarize(p.calls[k].chunk, p.calls[k].context) == Ok(all[|done| + k])
          {
            if k > 0 {
              assert p.calls[k] == rest.calls[k - 1];
              assert |done + [s]| + (k - 1) == |done| + k;
            }
          }
        }
    }
  }

  /**
    On success `combine_summaries` is called once, with one summary per chunk in chunk
    order, and its result is returned unchanged; a failed chunk call stops the loop and
    its error is returned without calling `combine_summaries`.
   */
  lemma LinearSpec(transcript: string, delimiter: string,
                   summarize: (string, Option<string>) -> Result<string, string>,
                   combine: seq<string> -> Result<string, string>)
    ensures var run, chunks := Linear(transcript, delimiter, summarize, combine), Chunks(Split(transcript, delimiter), Trim);
      && |run.calls| <= |chunks|
      && (forall k :: 0 <= k < |run.calls| ==> run.calls[k].chunk == chunks[k])
      && (run.calls != [] ==> run.calls[0].context == None)
      && (run.combined.Some? ==>
            && |run.calls| == |chunks| && |run.combined.value| == |chunks|
            && run.result == combine(run.combined.value)
            && forall k :: 0 <= k < |chunks| ==>
                 run.calls[k].context == ContextOf(run.combined.value[..k])
                 && summarize(chunks[k], run.calls[k].context) == Ok(run.combined.value[k]))
      && (run.combined.None? ==>
            run.calls != [] && run.result.Err?
            && summarize(run.calls[|run.calls| - 1].chunk, run.calls[|run.calls| - 1].context) == Err(run.result.error))
  {
    var chunks := Chunks(Split(transcript, delimiter), Trim);
    PhaseCalls(chunks, summarize, []);
    PhaseOk(chunks, summarize, []);
  }

  /** Without the delimiter the transcript is one piece: at most one chunk, the trimmed transcript. */
  lemma WithoutDelimiter(transcript: string, delimiter: string)
    requires delimiter != [] && !Contains(transcript, delimiter)
    ensures Chunks(Split(transcript, delimiter), Trim) == if Trim(transcript) == [] then [] else [Trim(transcript)]
  {
    SplitWithout(transcript, delimiter);
  }
}
