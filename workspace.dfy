/**
  The work directory of the pipeline, as far as `handle_stream_audio` and
  `transcribe_streams` see it: which `<id>.mp3` downloads exist, the chunk
  directory of each stream with its file names in the order `read_dir` lists
  them, and the contents of each `<id>.txt` transcript file.
  The downloader, the splitter and the transcriber are oracles: their answers
  are parameters.
 */
module Workspace {
  import opened Wrappers
  import PathOrder

  /** `TRANSCRIPT_CHUNK_DELIMITER`. */
  const ChunkDelimiter := "----END_OF_CHUNK----"

  /** Length of one audio chunk, in seconds. */
  const ChunkSeconds: nat := 900

  /** The message of the error returned when a chunk directory cannot be read. */
  const ReadDirFailed := "Failed to read dir"

  /** The state of the work directory as a value. */
  datatype Files = Files(audio: set<string>, chunks: map<string, seq<string>>, transcripts: map<string, string>)

  /** The chunk directory of `id` exists and lists at least one entry. */
  predicate HasChunks(f: Files, id: string) {
    id in f.chunks && f.chunks[id] != []
  }

  /**
    How the chunking of one stream ends. `create_dir_all` on the chunk directory
    fails with `error`, and nothing is written. Or the directory exists and the
    `-f segment` splitter writes the segment files `written`, as many as it reached.
    It then succeeds (`failure == None`) or stops with an error. A failure midway
    leaves the segments already written in the directory.
   */
  datatype Chunking = DirFailed(error: string) | Segmented(written: seq<string>, failure: Option<string>)

  /** What one run of `handle_stream_audio` did: its result, which oracles it called, and the new state. */
  datatype AudioStep = AudioStep(result: Result<(), string>, downloaded: bool, split: bool, after: Files)

  /**
    `handle_stream_audio` for the stream `id`: download when `<id>.mp3` is absent
    (`download` is the downloader's answer), then, when the chunk directory is missing
    or empty, create it and split into chunks of 900 seconds (`split` says how that ends).
   */
  function HandleAudio(f: Files, id: string, download: Result<(), string>, split: Chunking): AudioStep {
    var downloaded := id !in f.audio;
    if downloaded && download.Err? then
      AudioStep(Err(download.error), true, false, f)
    else
      var f1 := f.(audio := f.audio + {id});
      if HasChunks(f1, id) then
        AudioStep(Ok(()), downloaded, false, f1)
      else
        match split
        case DirFailed(e) => AudioStep(Err(e), downloaded, false, f1)
        case Segmented(files, failure) =>
          var f2 := f1.(chunks := f1.chunks[id := files]);
          if failure.Some? then AudioStep(Err(failure.value), downloaded, true, f2)
          else AudioStep(Ok(()), downloaded, true, f2)
  }

  /** The download is attempted exactly when the mp3 is absent, and its failure ends the step with nothing changed. */
  lemma DownloadIffAbsent(f: Files, id: string, download: Result<(), string>, split: Chunking)
    ensures var s := HandleAudio(f, id, download, split);
      && (s.downloaded <==> id !in f.audio)
      && (s.downloaded && download.Err? ==> s.result == Err(download.error) && !s.split && s.after == f)
  {
  }

  /**
    The split runs exactly when the download did not fail, the chunk directory is
    missing or empty, and it could be created. The directory then holds what the
    splitter wrote, even when it failed, and the splitter's outcome is returned.
    When the directory cannot be created, its error is returned and only the mp3 can
    have changed.
   */
  lemma SplitIffNoChunks(f: Files, id: string, download: Result<(), string>, split: Chunking)
    ensures var s := HandleAudio(f, id, download, split);
      && (s.split <==> (id in f.audio || download.Ok?) && !HasChunks(f, id) && split.Segmented?)
      && (s.split ==> id in s.after.chunks && s.after.chunks[id] == split.written)
      && (s.split ==> s.result == (if split.failure.None? then Ok(()) else Err(split.failure.value)))
      && ((id in f.audio || download.Ok?) && !HasChunks(f, id) && split.DirFailed? ==>
            s.result == Err(split.error) && s.after == f.(audio := f.audio + {id}))
  {
  }

  /**
    A split that failed after writing some segments leaves them in place: the next
    run finds the chunk directory non-empty, calls neither the downloader nor the
    splitter, succeeds, and the stream keeps only the partial set of chunks.
   */
  lemma PartialSplitKept(f: Files, id: string, download: Result<(), string>, written: seq<string>, e: string,
                         download2: Result<(), string>, split2: Chunking)
    requires (id in f.audio || download.Ok?) && !HasChunks(f, id)
    requires written != []
    ensures var s := HandleAudio(f, id, download, Segmented(written, Some(e)));
      && s.result == Err(e) && s.split
      && HandleAudio(s.after, id, download2, split2) == AudioStep(Ok(()), false, false, s.after)
      && s.after.chunks[id] == written
  {
    var g := HandleAudio(f, id, download, Segmented(written, Some(e))).after;
    assert g.(audio := g.audio + {id}) == g;
  }

  /** Only the stream's own mp3 and chunk directory can change; the transcripts never do. */
  lemma AudioStepIsLocal(f: Files, id: string, download: Result<(), string>, split: Chunking)
    ensures var g := HandleAudio(f, id, download, split).after;
      && g.transcripts == f.transcripts
      && g.audio - {id} == f.audio - {id}
      && (forall other :: other != id ==> (other in g.chunks <==> other in f.chunks))
      && (forall other :: other != id && other in f.chunks ==> g.chunks[other] == f.chunks[other])
  {
  }

  /**
    A second run after a successful one that left chunk files behind calls neither
    the downloader nor the splitter and changes nothing, whatever they would answer.
   */
  lemma AudioStepIdempotent(f: Files, id: string, download: Result<(), string>, split: Chunking,
                            download2: Result<(), string>, split2: Chunking)
    requires HandleAudio(f, id, download, split).result.Ok?
    requires HasChunks(HandleAudio(f, id, download, split).after, id)
    ensures var g := HandleAudio(f, id, download, split).after;
      HandleAudio(g, id, download2, split2) == AudioStep(Ok(()), false, false, g)
  {
    var g := HandleAudio(f, id, download, split).after;
    assert id in g.audio;
    assert g.(audio := g.audio + {id}) == g;
  }

  /** The outcome of preparing the audio of several streams. */
  datatype AudioRun = AudioRun(result: Result<(), string>, downloads: seq<string>, splits: seq<string>, after: Files)

  /**
    `try_for_each(handle_stream_audio)` over the streams, taken one after another:
    the first error ends the run. `download(id)` and `split(id)` answer for stream `id`.
   */
  function HandleAll(f: Files, ids: seq<string>, download: string -> Result<(), string>,
                     split: string -> Chunking): AudioRun
    decreases |ids|
  {
    if ids == [] then AudioRun(Ok(()), [], [], f)
    else
      var s := HandleAudio(f, ids[0], download(ids[0]), split(ids[0]));
      var d, p := if s.downloaded then [ids[0]] else [], if s.split then [ids[0]] else [];
      if s.result.Err? then AudioRun(s.result, d, p, s.after)
      else AfterSteps(d, p, HandleAll(s.after, ids[1..], download, split))
  }

  /** A run preceded by the downloads `d` and the splits `p` of earlier streams. */
  function AfterSteps(d: seq<string>, p: seq<string>, run: AudioRun): AudioRun {
    AudioRun(run.result, d + run.downloads, p + run.splits, run.after)
  }

  lemma AfterStepsTwice(d1: seq<string>, p1: seq<string>, d2: seq<string>, p2: seq<string>, run: AudioRun)
    ensures AfterSteps(d1, p1, AfterSteps(d2, p2, run)) == AfterSteps(d1 + d2, p1 + p2, run)
  {
    assert d1 + (d2 + run.downloads) == d1 + d2 + run.downloads;
    assert p1 + (p2 + run.splits) == p1 + p2 + run.splits;
  }

  /** One stream of the run: the unfolding the loop of `HandleStreamsAudio` follows. */
  lemma HandleAllStep(f: Files, ids: seq<string>, i: nat, download: string -> Result<(), string>,
                      split: string -> Chunking)
    requires i < |ids|
    ensures var s := HandleAudio(f, ids[i], download(ids[i]), split(ids[i]));
      var d, p := if s.downloaded then [ids[i]] else [], if s.split then [ids[i]] else [];
      HandleAll(f, ids[i..], download, split)
        == if s.result.Err? then AudioRun(s.result, d, p, s.after)
           else AfterSteps(d, p, HandleAll(s.after, ids[i + 1..], download, split))
  {
    assert ids[i..][0] == ids[i] && ids[i..][1..] == ids[i + 1..];
  }

  /**
    A successful run downloaded every stream whose mp3 was missing and left every
    stream with its mp3; only missing mp3s are downloaded, and the transcripts are
    never touched.
   */
  lemma {:induction false} HandleAllOk(f: Files, ids: seq<string>, download: string -> Result<(), string>,
                                       split: string -> Chunking)
    ensures var r := HandleAll(f, ids, download, split);
      && (r.result.Ok? ==> forall id :: id in ids ==> id in r.after.audio)
      && (r.result.Ok? ==> forall id :: id in ids && id !in f.audio ==> id in r.downloads)
      && (forall id :: id in r.downloads ==> id in ids && id !in f.audio)
      && f.audio <= r.after.audio
      && r.after.transcripts == f.transcripts
    decreases |ids|
  {
    if ids != [] {
      var s := HandleAudio(f, ids[0], download(ids[0]), split(ids[0]));
      if s.result.Ok? {
        HandleAllOk(s.after, ids[1..], download, split);
        var rest := HandleAll(s.after, ids[1..], download, split);
        var r := HandleAll(f, ids, download, split);
        assert s.after.audio == f.audio + {ids[0]};
        if r.result.Ok? {
          forall id | id in ids && id !in f.audio ensures id in r.downloads {
            if id != ids[0] {
              assert id in ids[1..];
            }
          }
          forall id | id in ids ensures id in r.after.audio {
            if id != ids[0] {
              assert id in ids[1..];
            }
          }
        }
      }
    }
  }

  /** What the transcription of several streams did: its result and the new state. */
  datatype Transcribed = Transcribed(result: Result<(), string>, after: Files)

  /** The text appended to a transcript for one transcribed chunk: the text, the delimiter, a newline. */
  function Entry(text: string): string {
    text + ChunkDelimiter + "\n"
  }

  /** The transcript text after a run over `names` and the error it stopped at, if any. */
  datatype Appended = Appended(text: string, err: Option<string>)

  /**
    The inner loop of `transcribe_streams`: the chunks in order, each transcribed
    (`transcribe(name)` is `transcribe_audio`'s result for that chunk) and appended;
    the first failure stops the loop.
   */
  function AppendChunks(text: string, names: seq<string>, transcribe: string -> Result<string, string>): Appended
    decreases |names|
  {
    if names == [] then Appended(text, None)
    else
      match transcribe(names[0])
      case Err(e) => Appended(text, Some(e))
      case Ok(t) => AppendChunks(text + Entry(t), names[1..], transcribe)
  }

  /** The number of chunks transcribed before the first failure. */
  function Transcribable(names: seq<string>, transcribe: string -> Result<string, string>): (k: nat)
    ensures k <= |names|
  {
    if names == [] || transcribe(names[0]).Err? then 0 else 1 + Transcribable(names[1..], transcribe)
  }

  /** The delimited transcripts of chunks that all transcribe, in order. */
  function Rendered(names: seq<string>, transcribe: string -> Result<string, string>): string
    requires forall i :: 0 <= i < |names| ==> transcribe(names[i]).Ok?
  {
    if names == [] then [] else Entry(transcribe(names[0]).value) + Rendered(names[1..], transcribe)
  }

  /**
    The transcript keeps its earlier contents and gains the delimited transcripts of the
    chunks before the first failure; the error is that failure's, and there is none
    exactly when every chunk transcribes.
   */
  lemma {:induction false} AppendChunksSpec(text: string, names: seq<string>, transcribe: string -> Result<string, string>)
    ensures var k, a := Transcribable(names, transcribe), AppendChunks(text, names, transcribe);
      && (forall i :: 0 <= i < k ==> transcribe(names[i]).Ok?)
      && a.text == text + Rendered(names[..k], transcribe)
      && (a.err.None? <==> k == |names|)
      && (k < |names| ==> transcribe(names[k]).Err? && a.err == Some(transcribe(names[k]).error))
    decreases |names|
  {
    var k := Transcribable(names, transcribe);
    if names == [] {
      assert names[..k] == [];
    } else if transcribe(names[0]).Ok? {
      var t := transcribe(names[0]).value;
      AppendChunksSpec(text + Entry(t), names[1..], transcribe);
      assert names[..k][1..] == names[1..][..k - 1];
      assert text + Entry(t) + Rendered(names[1..][..k - 1], transcribe) == text + (Entry(t) + Rendered(names[1..][..k - 1], transcribe));
    } else {
      assert names[..k] == [];
    }
  }

  /** The transcript file of `id` before the run: its contents, or empty when it does not exist yet. */
  function PriorText(f: Files, id: string): string {
    if id in f.transcripts then f.transcripts[id] else []
  }

  /**
    `transcribe_streams`: for each stream in turn, open (create) `<id>.txt` for
    appending, read its chunk directory (an error when it is missing), sort the entries
    by path and append each chunk's transcript; the first error ends the run.
    All entries of one directory share its path, so the path order is the order of
    their file names.
   */
  function TranscribeAll(f: Files, ids: seq<string>, transcribe: string -> Result<string, string>): Transcribed
    decreases |ids|
  {
    if ids == [] then Transcribed(Ok(()), f)
    else
      var id := ids[0];
      if id !in f.chunks then
        Transcribed(Err(ReadDirFailed), f.(transcripts := f.transcripts[id := PriorText(f, id)]))
      else
        var a := AppendChunks(PriorText(f, id), PathOrder.SortPaths(f.chunks[id]), transcribe);
        var g := f.(transcripts := f.transcripts[id := a.text]);
        if a.err.Some? then Transcribed(Err(a.err.value), g)
        else TranscribeAll(g, ids[1..], transcribe)
  }

  /** The run never touches the audio files or the chunk directories, nor the transcripts of other streams. */
  lemma {:induction false} TranscribeAllIsLocal(f: Files, ids: seq<string>, transcribe: string -> Result<string, string>)
    ensures var g := TranscribeAll(f, ids, transcribe).after;
      && g.audio == f.audio && g.chunks == f.chunks
      && (forall id :: id !in ids && id in f.transcripts ==> id in g.transcripts && g.transcripts[id] == f.transcripts[id])
      && (forall id :: id !in ids ==> (id in g.transcripts <==> id in f.transcripts))
    decreases |ids|
  {
    if ids != [] && ids[0] in f.chunks {
      var a := AppendChunks(PriorText(f, ids[0]), PathOrder.SortPaths(f.chunks[ids[0]]), transcribe);
      if a.err.None? {
        TranscribeAllIsLocal(f.(transcripts := f.transcripts[ids[0] := a.text]), ids[1..], transcribe);
      }
    }
  }

  /**
    A successful run found the chunk directory of every stream, and, when the ids are
    distinct, each transcript is its earlier contents followed by the delimited
    transcripts of all the stream's chunks in file-name order.
   */
  lemma {:induction false} TranscribeAllOk(f: Files, ids: seq<string>, transcribe: string -> Result<string, string>)
    requires TranscribeAll(f, ids, transcribe).result.Ok?
    requires forall i, j :: 0 <= i < j < |ids| ==> ids[i] != ids[j]
    ensures var g := TranscribeAll(f, ids, transcribe).after;
      forall id :: id in ids ==>
        && id in f.chunks && id in g.transcripts
        && (forall i :: 0 <= i < |f.chunks[id]| ==> transcribe(PathOrder.SortPaths(f.chunks[id])[i]).Ok?)
        && g.transcripts[id] == PriorText(f, id) + Rendered(PathOrder.SortPaths(f.chunks[id]), transcribe)
    decreases |ids|
  {
    if ids != [] {
      var id := ids[0];
      var names := PathOrder.SortPaths(f.chunks[id]);
      var a := AppendChunks(PriorText(f, id), names, transcribe);
      var f1 := f.(transcripts := f.transcripts[id := a.text]);
      AppendChunksSpec(PriorText(f, id), names, transcribe);
      assert names[..|names|] == names;
      forall i, j | 0 <= i < j < |ids[1..]| ensures ids[1..][i] != ids[1..][j] {
        assert ids[1..][i] == ids[i + 1] && ids[1..][j] == ids[j + 1];
      }
      TranscribeAllOk(f1, ids[1..], transcribe);
      TranscribeAllIsLocal(f1, ids[1..], transcribe);
      var g := TranscribeAll(f, ids, transcribe).after;
      forall other | other in ids
        ensures && other in f.chunks && other in g.transcripts
                && (forall i :: 0 <= i < |f.chunks[other]| ==> transcribe(PathOrder.SortPaths(f.chunks[other])[i]).Ok?)
                && g.transcripts[other] == PriorText(f, other) + Rendered(PathOrder.SortPaths(f.chunks[other]), transcribe)
      {
        if other == id {
          assert id !in ids[1..];
        } else {
          assert other in ids[1..];
          assert PriorText(f1, other) == PriorText(f, other);
        }
      }
    }
  }

  /**
    A stream whose directory holds exactly the chunk files `<id>_000.mp3`, ... of a split
    into fewer than a thousand pieces, listed in any order, gets their transcripts in
    index order.
   */
  lemma TranscriptInChunkOrder(text: string, id: string, n: nat, entries: seq<string>, transcribe: string -> Result<string, string>)
    requires n <= 1000 && multiset(entries) == multiset(PathOrder.ChunkNames(id, n))
    ensures AppendChunks(text, PathOrder.SortPaths(entries), transcribe) == AppendChunks(text, PathOrder.ChunkNames(id, n), transcribe)
  {
    PathOrder.ChunkFilesInIndexOrder(id, n, entries);
  }

  /** The work directory as the pipeline's steps change it. */
  class Store {
    var audio: set<string>
    var chunks: map<string, seq<string>>
    var transcripts: map<string, string>

    function State(): Files
      reads this
    {
      Files(audio, chunks, transcripts)
    }

    constructor (f: Files)
      ensures State() == f
    {
      audio, chunks, transcripts := f.audio, f.chunks, f.transcripts;
    }

    /** `handle_stream_audio` for the stream `id`. */
    method HandleStreamAudio(id: string, download: Result<(), string>, split: Chunking)
      returns (r: Result<(), string>, downloaded: bool, splitRan: bool)
      modifies this
      ensures HandleAudio(old(State()), id, download, split) == AudioStep(r, downloaded, splitRan, State())
    {
      downloaded, splitRan := false, false;
      if id !in audio {
        downloaded := true;
        if download.Err? {
          return Err(download.error), downloaded, splitRan;
        }
        audio := audio + {id};
      }
      var chunkExists := id in chunks && chunks[id] != [];
      if !chunkExists {
        match split {
          case DirFailed(e) =>
            return Err(e), downloaded, splitRan;
          case Segmented(files, failure) =>
            // the created directory, holding whatever segments the splitter wrote
            splitRan := true;
            chunks := chunks[id := files];
            if failure.Some? {
              return Err(failure.value), downloaded, splitRan;
            }
        }
      }
      r := Ok(());
    }

    /** `par_iter_mut().try_for_each(handle_stream_audio)`, one stream after another. */
    method HandleStreamsAudio(ids: seq<string>, download: string -> Result<(), string>,
                              split: string -> Chunking)
      returns (r: Result<(), string>, downloads: seq<string>, splits: seq<string>)
      modifies this
      ensures HandleAll(old(State()), ids, download, split) == AudioRun(r, downloads, splits, State())
    {
      downloads, splits := [], [];
      var i := 0;
      while i < |ids|
        invariant 0 <= i <= |ids|
        invariant HandleAll(old(State()), ids, download, split)
               == AfterSteps(downloads, splits, HandleAll(State(), ids[i..], download, split))
      {
        HandleAllStep(State(), ids, i, download, split);
        var res, d, p := HandleStreamAudio(ids[i], download(ids[i]), split(ids[i]));
        var dl, sp := if d then [ids[i]] else [], if p then [ids[i]] else [];
        if res.Err? {
          downloads, splits := downloads + dl, splits + sp;
          return res, downloads, splits;
        }
        AfterStepsTwice(downloads, splits, dl, sp, HandleAll(State(), ids[i + 1..], download, split));
        downloads, splits := downloads + dl, splits + sp;
        i := i + 1;
      }
      assert downloads + [] == downloads && splits + [] == splits;
      r := Ok(());
    }

    /** `transcribe_streams`: `transcribe(name)` is `transcribe_audio`'s result for the chunk file `name`. */
    method TranscribeStreams(ids: seq<string>, transcribe: string -> Result<string, string>) returns (r: Result<(), string>)
      modifies this
      ensures TranscribeAll(old(State()), ids, transcribe) == Transcribed(r, State())
    {
      var i := 0;
      while i < |ids|
        invariant 0 <= i <= |ids|
        invariant TranscribeAll(old(State()), ids, transcribe) == TranscribeAll(State(), ids[i..], transcribe)
      {
        var id := ids[i];
        assert ids[i..][0] == id && ids[i..][1..] == ids[i + 1..];
        ghost var before := State();
        transcripts := transcripts[id := if id in transcripts then transcripts[id] else []];
        if id !in chunks {
          return Err(ReadDirFailed);
        }
        var entries := PathOrder.SortPaths(chunks[id]);
        var j := 0;
        while j < |entries|
          invariant 0 <= j <= |entries|
          invariant audio == before.audio && chunks == before.chunks && id in transcripts
          invariant transcripts == before.transcripts[id := transcripts[id]]
          invariant AppendChunks(PriorText(before, id), entries, transcribe) == AppendChunks(transcripts[id], entries[j..], transcribe)
        {
          assert entries[j..][0] == entries[j] && entries[j..][1..] == entries[j + 1..];
          match transcribe(entries[j]) {
            case Ok(t) =>
              transcripts := transcripts[id := transcripts[id] + Entry(t)];
            case Err(e) =>
              return Err(e);
          }
          j := j + 1;
        }
        i := i + 1;
      }
      r := Ok(());
    }
  }
}
