/**
  `summarize_streams`: for each selected stream, read its transcript, clean it,
  count its tokens, summarise it directly when it fits the model's context and
  chunk by chunk otherwise, store the summary in the stream, and finally insert
  all streams in bulk. The transcript files are the work directory's; the
  cleaner, the token counter, the chat calls and the database are oracles.
 */
module StreamSummary {
  import opened Wrappers
  import StreamDomain
  import LinearSummary
  import Workspace
  import Cleaning

  /** `GPT4O_CONTEXT_LIMIT`: the model's 128000 tokens less 18000 kept for prompts and reply. */
  const ContextLimit: nat := 128000 - 18000

  /** The path of a stream's transcript file. */
  function TranscriptPath(id: string): string {
    "/var/tmp/bunge-bits/" + id + ".txt"
  }

  /** The services `summarize_streams` calls, as oracles. */
  datatype Services = Services(
    /** The cleaning of lines 231-237: the cleaned text or the error. */
    clean: string -> Result<string, string>,
    /** `count_tokens`. */
    countTokens: string -> Result<nat, string>,
    /** `summarize_stream` on a stream and its whole transcript. */
    direct: (StreamDomain.Stream, string) -> Result<string, string>,
    /** `summarize_chunk` on a chunk and the context so far. */
    chunk: (string, Option<string>) -> Result<string, string>,
    /** `combine_summaries` on the chunk summaries of a stream. */
    combine: (StreamDomain.Stream, seq<string>) -> Result<string, string>,
    /** `bulk_insert_streams`. */
    bulkInsert: seq<StreamDomain.Stream> -> Result<(), string>)

  /** The combiner handed to `summarize_linear` for one stream. */
  function CombineFor(svc: Services, s: StreamDomain.Stream): seq<string> -> Result<string, string> {
    summaries => svc.combine(s, summaries)
  }

  /** How one stream was summarised: the summary or error, whether the direct call was made, and the linear run if any. */
  datatype StreamRun = StreamRun(result: Result<string, string>, direct: bool, linear: Option<LinearSummary.LinearRun>)

  /** One pass of the loop body, from reading the transcript to the summary. */
  function SummarizeOne(s: StreamDomain.Stream, transcripts: map<string, string>, svc: Services): StreamRun {
    if s.videoId !in transcripts then
      StreamRun(Err("Failed to read transcript at " + TranscriptPath(s.videoId)), false, None)
    else
      match svc.clean(transcripts[s.videoId])
      case Err(e) => StreamRun(Err(e), false, None)
      case Ok(t) =>
        match svc.countTokens(t)
        case Err(e) => StreamRun(Err(e), false, None)
        case Ok(n) =>
          if n <= ContextLimit then
            var r := svc.direct(s, t);
            StreamRun(if r.Ok? then r else Err("Failed to summarize full stream " + s.videoId), true, None)
          else
            var run := LinearSummary.Linear(t, Workspace.ChunkDelimiter, svc.chunk, CombineFor(svc, s));
            StreamRun(if run.result.Ok? then run.result else Err("Chunked summarization failed for stream " + s.videoId),
                      false, Some(run))
  }

  /** The summary each stream's pass produces, or its error. */
  function Pass(transcripts: map<string, string>, svc: Services): StreamDomain.Stream -> Result<string, string> {
    s => SummarizeOne(s, transcripts, svc).result
  }

  /** The whole run: its result, the streams as they stand after it, and what was inserted in bulk, if anything. */
  datatype SummaryRun = SummaryRun(result: Result<(), string>, streams: seq<StreamDomain.Stream>, inserted: Option<seq<StreamDomain.Stream>>)

  /**
    The run from stream `i` on, where `pass` gives each stream's summary or error;
    the streams before `i` already hold their summaries.
   */
  function SummarizeFrom(streams: seq<StreamDomain.Stream>, i: nat, pass: StreamDomain.Stream -> Result<string, string>,
                         bulkInsert: seq<StreamDomain.Stream> -> Result<(), string>): SummaryRun
    requires i <= |streams|
    decreases |streams| - i
  {
    if i == |streams| then SummaryRun(bulkInsert(streams), streams, Some(streams))
    else
      var one := pass(streams[i]);
      if one.Err? then SummaryRun(Err(one.error), streams, None)
      else SummarizeFrom(streams[i := streams[i].(summaryMd := Some(one.value))], i + 1, pass, bulkInsert)
  }

  /** The token rule: a transcript within the limit is summarised by one direct call, a longer one chunk by chunk. */
  lemma StrategyRule(s: StreamDomain.Stream, transcripts: map<string, string>, svc: Services)
    requires s.videoId in transcripts && svc.clean(transcripts[s.videoId]).Ok?
    requires svc.countTokens(svc.clean(transcripts[s.videoId]).value).Ok?
    ensures var t := svc.clean(transcripts[s.videoId]).value;
      var n := svc.countTokens(t).value;
      var one := SummarizeOne(s, transcripts, svc);
      && (one.direct <==> n <= ContextLimit)
      && (one.linear.Some? <==> n > ContextLimit)
      && (n <= ContextLimit && svc.direct(s, t).Ok? ==> one.result == svc.direct(s, t))
      && (n > ContextLimit ==> one.linear == Some(LinearSummary.Linear(t, Workspace.ChunkDelimiter, svc.chunk, CombineFor(svc, s))))
      && (n > ContextLimit && one.linear.value.result.Ok? ==> one.result == one.linear.value.result)
  {
  }

  /**
    A successful run gave every stream the summary its own pass produced, changed
    nothing else in the streams, and inserted all of them, in order, once.
   */
  lemma {:induction false} SummarizeFromOk(streams: seq<StreamDomain.Stream>, i: nat, pass: StreamDomain.Stream -> Result<string, string>,
                                           bulkInsert: seq<StreamDomain.Stream> -> Result<(), string>)
    requires i <= |streams|
    requires SummarizeFrom(streams, i, pass, bulkInsert).result.Ok?
    ensures var r := SummarizeFrom(streams, i, pass, bulkInsert);
      && r.inserted == Some(r.streams)
      && |r.streams| == |streams|
      && (forall k :: 0 <= k < i ==> r.streams[k] == streams[k])
      && (forall k :: i <= k < |streams| ==>
            pass(streams[k]).Ok? && r.streams[k] == streams[k].(summaryMd := Some(pass(streams[k]).value)))
    decreases |streams| - i
  {
    if i < |streams| {
      var next := streams[i := streams[i].(summaryMd := Some(pass(streams[i]).value))];
      SummarizeFromOk(next, i + 1, pass, bulkInsert);
      forall k | i < k < |streams| ensures next[k] == streams[k] {
      }
    }
  }

  /** A stream whose pass fails ends the run with an error, and nothing is inserted. */
  lemma {:induction false} SummarizeFromErr(streams: seq<StreamDomain.Stream>, i: nat, pass: StreamDomain.Stream -> Result<string, string>,
                                            bulkInsert: seq<StreamDomain.Stream> -> Result<(), string>, k: nat)
    requires i <= k < |streams| && pass(streams[k]).Err?
    ensures var r := SummarizeFrom(streams, i, pass, bulkInsert);
      r.result.Err? && r.inserted.None?
    decreases |streams| - i
  {
    if pass(streams[i]).Ok? {
      var next := streams[i := streams[i].(summaryMd := Some(pass(streams[i]).value))];
      assert k != i && next[k] == streams[k];
      SummarizeFromErr(next, i + 1, pass, bulkInsert, k);
    }
  }

  /** With no stream to summarise, the empty batch is still inserted and its outcome is the result. */
  lemma NoStreams(pass: StreamDomain.Stream -> Result<string, string>, bulkInsert: seq<StreamDomain.Stream> -> Result<(), string>)
    ensures SummarizeFrom([], 0, pass, bulkInsert) == SummaryRun(bulkInsert([]), [], Some([]))
  {
  }

  /** The cleaner of the source: `Cleaning.Clean`, whose word collapse is never reached. */
  function SourceClean(collapse: string -> string): string -> Result<string, string> {
    t => Cleaning.Clean(t, collapse)
  }

  /**
    As written, the first stream's pass fails, at the transcript read or at the
    repeated-words regex, so no summary is stored and the bulk insert is never reached.
   */
  lemma AsWrittenNeverInserts(streams: seq<StreamDomain.Stream>, transcripts: map<string, string>, svc: Services,
                              collapse: string -> string)
    requires streams != [] && svc.clean == SourceClean(collapse)
    ensures var r := SummarizeFrom(streams, 0, Pass(transcripts, svc), svc.bulkInsert);
      && r.inserted.None? && r.streams == streams
      && r.result == Err(if streams[0].videoId in transcripts then Cleaning.BackrefUnsupported
                         else "Failed to read transcript at " + TranscriptPath(streams[0].videoId))
  {
    if streams[0].videoId in transcripts {
      Cleaning.CleanAlwaysFails(transcripts[streams[0].videoId], collapse);
    }
  }

  /** `summarize_streams` over the streams, which it updates in place. */
  method SummarizeStreams(streams: array<StreamDomain.Stream>, transcripts: map<string, string>, svc: Services)
    returns (r: Result<(), string>, inserted: Option<seq<StreamDomain.Stream>>)
    modifies streams
    ensures SummarizeFrom(old(streams[..]), 0, Pass(transcripts, svc), svc.bulkInsert) == SummaryRun(r, streams[..], inserted)
  {
    for i := 0 to streams.Length
      invariant SummarizeFrom(old(streams[..]), 0, Pass(transcripts, svc), svc.bulkInsert)
             == SummarizeFrom(streams[..], i, Pass(transcripts, svc), svc.bulkInsert)
    {
      var s := streams[i];
      var summary := SummarizeStream(s, transcripts, svc);
      if summary.Err? {
        return Err(summary.error), None;
      }
      ghost var before := streams[..];
      streams[i] := s.(summaryMd := Some(summary.value));
      assert streams[..] == before[i := s.(summaryMd := Some(summary.value))];
    }
    r := svc.bulkInsert(streams[..]);
    inserted := Some(streams[..]);
  }

  /** The loop body for one stream. */
  method SummarizeStream(s: StreamDomain.Stream, transcripts: map<string, string>, svc: Services)
    returns (r: Result<string, string>)
    ensures r == SummarizeOne(s, transcripts, svc).result
  {
    if s.videoId !in transcripts {
      return Err("Failed to read transcript at " + TranscriptPath(s.videoId));
    }
    var cleaned := svc.clean(transcripts[s.videoId]);
    if cleaned.Err? {
      return Err(cleaned.error);
    }
    var t := cleaned.value;
    var tokens := svc.countTokens(t);
    if tokens.Err? {
      return Err(tokens.error);
    }
    if tokens.value <= ContextLimit {
      r := svc.direct(s, t);
      if r.Err? {
        r := Err("Failed to summarize full stream " + s.videoId);
      }
    } else {
      var calls, combined;
      r, calls, combined := LinearSummary.SummarizeLinear(t, Workspace.ChunkDelimiter, svc.chunk, CombineFor(svc, s));
      if r.Err? {
        r := Err("Chunked summarization failed for stream " + s.videoId);
      }
    }
  }
}
