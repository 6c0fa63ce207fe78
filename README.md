# bunge-bits in Dafny

A model of the core of bunge-bits, a pipeline that follows the live streams of the
Kenyan Parliament's YouTube channel. It scrapes the channel's stream list, picks the
streams not yet processed, downloads and splits their audio, transcribes the chunks,
cleans the transcript, summarises it with a chat model, and stores the result. The model
covers these parts:

- **Pipeline rules** (`process_stream.rs`):
  - the rate-limit hint parser (`RateLimit`);
  - the bounded retry policies of transcription and of the three chat requests (`Retry`);
  - candidate selection (`Selection`);
  - the audio preparation and the transcript assembly over an abstract work directory (`Workspace`, `PathOrder`);
  - transcript cleaning (`Cleaning`);
  - the summarisation loop with its direct-or-chunked rule (`StreamSummary`).
- **`summarize_linear`** (`LinearSummary`): linear map-reduce with a cumulative context.
- **The stream records** of both datastore crates (`StreamDomain`, `LegacyStreamDomain`, `ScrapeStream`):
  - the `"N units ago"` parser (`TimeAgo`, checked against the unit tests in `TimeAgoExamples`);
  - the watch URL;
  - the house-of-parliament classifier.
- **The three record stores**, each a map keyed by video id:
  - Postgres (`PgStore`);
  - the standalone SQLite datastore (`SqliteStore`);
  - the scraper's SQLite datastore with its closed-captions table (`ScrapeStore`).
- **The sliding-window summariser** (`SlidingWindows`): a class with its invariant, and the loop that drives it.
- **WebVTT cue extraction**, both copies (`Vtt`): a loose subset of the cue layout of section 4.1, "WebVTT file structure", of the W3C WebVTT specification.
- **The yt-dlp wrapper** (`YtDlp`): retry loop, error shaping, `--cookies` prepend and argument lists.
- **The YouTube page walkers** of the three parser crates (`StreamPage`, `CronPageParser`, `ScrapePageParser`), over a JSON tree (`Json`).

External effects are not executed. Each one becomes a parameter of the model:

- **Answers of outside services.** The OpenAI calls, the token counter, `yt-dlp`, the splitter and database faults are *oracles*. An oracle is a function parameter that gives the answer of the n-th call, or of the call for a given stream or file.
- **Time.** The clock is a parameter `now` in integer seconds. Sleeps are returned as the sequence of waits taken.
- **The filesystem.** It is a value holding the downloaded mp3s, the chunk directories with their listings, and the transcript files.

Loops and in-place updates are written as methods and classes. Each is proved equal to a
specification function. The properties are then proved about those functions.

Shared helpers:

- `Wrappers` holds `Option` and `Result`.
- `Text` holds Rust's string operations as the code uses them: `trim`, `find`, `split`, `lines`, `to_lowercase` and the decimal rendering.

## Model

| member | source | states |
|---|---|---|
| RateLimit.ExtractWaitTimeMs | crates/stream_pulse/src/lib/process_stream.rs:623-632 | a hint is found only in a message that contains `Please try again in `, and it fits in a u64 |
| RateLimit.ParseU64 | crates/stream_pulse/src/lib/process_stream.rs:628 | `parse::<u64>` succeeds only on a non-empty numeral other than a bare `+`, with a value that fits in a u64 |
| RateLimit.WaitBeforeMs | crates/stream_pulse/src/lib/process_stream.rs:627-629 | a value is read only when `ms` follows, and it fits in a u64 |
| RateLimit.NoMarkerNoHint | crates/stream_pulse/src/lib/process_stream.rs:625 | a message without the marker gives `None` |
| RateLimit.MarkerFound | crates/stream_pulse/src/lib/process_stream.rs:625-626 | after the first marker, the rest of the message alone decides the hint |
| RateLimit.NumberBeforeMs | crates/stream_pulse/src/lib/process_stream.rs:627-628 | the text before the first `ms`, trimmed of blank margins, parses as the number written there |
| RateLimit.HintRoundTrip | crates/stream_pulse/src/lib/process_stream.rs:623-632 | `...Please try again in <n>ms...` yields `n` for every u64 `n`, after any text without a `P`, with any whitespace other than `m` around it, whatever follows |
| RateLimit.ParseRendered | crates/stream_pulse/src/lib/process_stream.rs:628 | `parse::<u64>` reads back the decimal rendering of any u64 |
| RateLimit.Example1500 | crates/stream_pulse/src/lib/process_stream.rs:623-632 | an OpenAI 429 text saying `Please try again in 1500ms` gives 1500 |
| Retry.ChatWithRetry | crates/stream_pulse/src/lib/process_stream.rs:324-361 | the retry loop of a chat request returns what the recursive policy `ChatRun` gives: result, waits and number of calls |
| Retry.ChatRequest | crates/stream_pulse/src/lib/process_stream.rs:433-470 | the pipeline's chat loop, which reads hints with `extract_wait_time_ms_from_error`, follows that policy; the loops at lines 516-552 and 324-361 are the same |
| Retry.ChatRunFrom | crates/stream_pulse/src/lib/process_stream.rs:327-360 | from any point in the loop: every call before the last failed; each failure is followed by its wait; a response ends the loop with its own text extraction; a failure ends it only at the fifth call |
| Retry.ChatRetryPolicy | crates/stream_pulse/src/lib/process_stream.rs:324-361 | at most 5 calls; wait k is the hint of failure k, else 2^k·1000 ms; a response ends the loop even when its text extraction fails; the fifth failure is returned |
| Retry.ChatFallbackWaits | crates/stream_pulse/src/lib/process_stream.rs:336-340 | without hints the waits are 2000, 4000, 8000 and 16000 ms, as many as the failed calls before the last |
| Retry.ChatHintedWait | crates/stream_pulse/src/lib/process_stream.rs:336 | a hint in the error text replaces the fallback wait |
| Retry.ChatAlwaysFailing | crates/stream_pulse/src/lib/process_stream.rs:343-346 | a request that always fails is made 5 times, with 4 waits, and returns the fifth error |
| Retry.LooksLikeJsonIsTrimStart | crates/stream_pulse/src/lib/process_stream.rs:195 | the JSON check is `trim_start().starts_with('{')` |
| Retry.TranscribeAudio | crates/stream_pulse/src/lib/process_stream.rs:178-216 | the transcription loop returns what the recursive policy `TranscribeRun` gives: result, waits and calls |
| Retry.TranscribeRunWaits | crates/stream_pulse/src/lib/process_stream.rs:185-215 | from any point in the loop, the calls stay within 5 and the waits are 2^attempt seconds for each attempt before the last |
| Retry.TranscribeRunOutcome | crates/stream_pulse/src/lib/process_stream.rs:188-213 | every attempt before the last failed; the result is `Ok` iff the last attempt neither failed nor returned JSON, and then it is that reply unchanged; `Err` only at the fifth attempt |
| Retry.TranscribeRunStep | crates/stream_pulse/src/lib/process_stream.rs:207-215 | a failed attempt before the fifth is followed by a 2^attempt-second wait and the next attempt |
| Retry.TranscribePolicy | crates/stream_pulse/src/lib/process_stream.rs:185-216 | at most 5 calls; the waits are 2, 4, 8, 16 s, as many as the failed attempts before the last; the first good reply is returned unchanged; a JSON-looking reply counts as a failure |
| Retry.AfterWaitsAppend | crates/stream_pulse/src/lib/process_stream.rs:215 | waits taken in two stretches are the waits of both, in order |
| Selection.SortByPermutes | crates/stream_pulse/src/lib/process_stream.rs:605-608 | the sort is a permutation of its input |
| Selection.SortBySorted | crates/stream_pulse/src/lib/process_stream.rs:605-608 | the sort orders by the key, with `None` before every `Some` |
| Selection.SortByStable | crates/stream_pulse/src/lib/process_stream.rs:605-608 | elements with equal keys keep their input order |
| Selection.SortBy | crates/stream_pulse/src/lib/process_stream.rs:603-608 | sorting keeps the number of elements |
| Selection.TakeSorted | crates/stream_pulse/src/lib/process_stream.rs:610 | `take` keeps a sorted prefix of `min(n, len)` elements, and each key group stays a prefix of its group in the input |
| Selection.Take | crates/stream_pulse/src/lib/process_stream.rs:610 | `take(n)` keeps `min(n, len)` elements |
| Selection.FreshMultiplicity | crates/stream_pulse/src/lib/process_stream.rs:600-602 | each stream whose id is not stored is kept exactly as often as it occurs in the input, and a stream with a stored id is not kept |
| Selection.FreshSpec | crates/stream_pulse/src/lib/process_stream.rs:600-602 | the filter keeps no stored id, and keeps each stream whose id is not stored exactly as often as it occurs in the input |
| Selection.FreshAppend | crates/stream_pulse/src/lib/process_stream.rs:600-602 | the filter keeps input order: filtering two parts in turn gives the two filtered parts in turn |
| Selection.FreshWithKey | crates/stream_pulse/src/lib/process_stream.rs:600-608 | keeping the new ids and keeping one date are filters that commute |
| Selection.SortAndFilterSpec | crates/stream_pulse/src/lib/process_stream.rs:583-612 | the selection has no stored id, draws every element from the input, has `min(max_streams, #new)` elements, is oldest first with unknown dates first, and ties keep input order; the candidates are each new stream as often as it occurs, so there are `#new` of them; for each date the selection is a prefix of the new streams of that date in input order |
| Selection.StreamKeyIsTimestamp | crates/stream_pulse/src/lib/process_stream.rs:605-608 | the sort key is `timestamp_from_time_ago` for every stream whose amount fits |
| Workspace.DownloadIffAbsent | crates/stream_pulse/src/lib/process_stream.rs:113-121 | the download is attempted iff `<id>.mp3` is absent; a download error is returned and changes nothing |
| Workspace.SplitIffNoChunks | crates/stream_pulse/src/lib/process_stream.rs:123-137 | the split runs iff the download did not fail, the chunk directory is missing or empty, and `create_dir_all` succeeds; the directory then holds the segments the splitter wrote, even when it failed midway, and the splitter's result is returned; a `create_dir_all` error is returned with only the mp3 changed |
| Workspace.PartialSplitKept | crates/stream_pulse/src/lib/process_stream.rs:123-137 | a split that fails after writing some segments keeps them, so the next run skips the split, succeeds, and the stream keeps only that partial set of chunks |
| Workspace.AudioStepIsLocal | crates/stream_pulse/src/lib/process_stream.rs:100-139 | only the stream's own mp3 and chunk directory can change, and no transcript does |
| Workspace.AudioStepIdempotent | crates/stream_pulse/src/lib/process_stream.rs:113-137 | a second run after one that succeeded and left chunk files behind calls nothing and changes nothing |
| Workspace.HandleAllOk | crates/stream_pulse/src/lib/process_stream.rs:100-139 | over several streams, only missing mp3s are downloaded; a successful run leaves every stream with its mp3; transcripts are untouched |
| Workspace.AfterStepsTwice | crates/stream_pulse/src/lib/process_stream.rs:100-139 | the downloads and splits of two stretches of the per-stream loop are those of both, in order |
| Workspace.AppendChunksSpec | crates/stream_pulse/src/lib/process_stream.rs:160-169 | the transcript becomes its earlier text followed by `transcription ++ "----END_OF_CHUNK----" ++ "\n"` for each chunk before the first failure; that failure is the error |
| Workspace.TranscribeAllIsLocal | crates/stream_pulse/src/lib/process_stream.rs:143-173 | transcription never touches the audio, the chunk directories, or the transcripts of streams not in the list |
| Workspace.TranscribeAllOk | crates/stream_pulse/src/lib/process_stream.rs:143-173 | on success, each transcript is its earlier contents followed by the delimited transcripts of all its chunks, in lexicographic path order |
| Workspace.TranscriptInChunkOrder | crates/stream_pulse/src/lib/process_stream.rs:132-133 | for fewer than a thousand `<id>_%03d.mp3` chunks, listed in any order, the sorted order is the index order |
| Workspace.Store.constructor | crates/stream_pulse/src/lib/process_stream.rs:100-139 | the work directory starts in the given state |
| Workspace.Store.HandleStreamAudio | crates/stream_pulse/src/lib/process_stream.rs:100-139 | `handle_stream_audio` updates the directory as `HandleAudio` says |
| Workspace.Store.HandleStreamsAudio | crates/stream_pulse/src/lib/process_stream.rs:100-139 | the per-stream audio step over all streams, stopping at the first error, updates the directory as `HandleAll` says |
| Workspace.Store.TranscribeStreams | crates/stream_pulse/src/lib/process_stream.rs:143-173 | `transcribe_streams` updates the transcripts as `TranscribeAll` says |
| PathOrder.SortPathsSpec | crates/stream_pulse/src/lib/process_stream.rs:156-158 | sorting by path gives the entries in lexicographic order, as a permutation |
| PathOrder.SortedUnique | crates/stream_pulse/src/lib/process_stream.rs:158 | two sorted orderings of the same entries are equal, so the read_dir order does not matter |
| PathOrder.ChunkNameOrder | crates/stream_pulse/src/lib/process_stream.rs:133 | for indexes below 1000, `<id>_%03d.mp3` names sort in index order |
| PathOrder.ChunkFilesInIndexOrder | crates/stream_pulse/src/lib/process_stream.rs:132-158 | any listing of the chunk files sorts to the index order |
| PathOrder.LexTotal | crates/stream_pulse/src/lib/process_stream.rs:158 | the path comparison orders every pair of names |
| PathOrder.LexTrans | crates/stream_pulse/src/lib/process_stream.rs:158 | the path comparison is transitive |
| PathOrder.LexAntisym | crates/stream_pulse/src/lib/process_stream.rs:158 | two names that compare both ways are equal |
| Cleaning.RegexNew | crates/stream_pulse/src/lib/process_stream.rs:231-234 | `Regex::new` fails iff the pattern holds a backreference |
| Cleaning.NumberChainCompiles | crates/stream_pulse/src/lib/process_stream.rs:231 | the number-chain pattern compiles |
| Cleaning.RepeatedWordsRejected | crates/stream_pulse/src/lib/process_stream.rs:234 | the repeated-words pattern is rejected because of `\1` |
| Cleaning.RemoveNumberChains | crates/stream_pulse/src/lib/process_stream.rs:231-232 | deleting number chains never lengthens the text |
| Cleaning.NoChainUnchanged | crates/stream_pulse/src/lib/process_stream.rs:232 | a text in which no chain starts is left unchanged |
| Cleaning.NoDigitsUnchanged | crates/stream_pulse/src/lib/process_stream.rs:232 | a text without digits is left unchanged |
| Cleaning.PlainPrefix | crates/stream_pulse/src/lib/process_stream.rs:232 | digit-free text in front of a part is kept in front of that part's cleaning |
| Cleaning.SixNumbersDeleted | crates/stream_pulse/src/lib/process_stream.rs:231-232 | six dot-joined numbers form a chain, and the chain is deleted |
| Cleaning.FiveNumbersKept | crates/stream_pulse/src/lib/process_stream.rs:231 | five numbers are not a chain (`{5,}` groups follow the first) |
| Cleaning.CleanAlwaysFails | crates/stream_pulse/src/lib/process_stream.rs:231-237 | the cleaning step fails for every transcript with the backreference error |
| StreamSummary.StrategyRule | crates/stream_pulse/src/lib/process_stream.rs:239-276 | a transcript of at most 110000 tokens gets exactly one direct call; a longer one runs `summarize_linear` on the chunk delimiter |
| StreamSummary.SummarizeFromOk | crates/stream_pulse/src/lib/process_stream.rs:226-282 | a successful run stores each stream's own summary in `summary_md`, changes nothing else, and bulk-inserts all streams, in order, once |
| StreamSummary.SummarizeFromErr | crates/stream_pulse/src/lib/process_stream.rs:226-282 | a stream whose pass fails ends the run with an error, and nothing is inserted |
| StreamSummary.NoStreams | crates/stream_pulse/src/lib/process_stream.rs:282-284 | with no streams the empty batch is inserted and its outcome is the result |
| StreamSummary.AsWrittenNeverInserts | crates/stream_pulse/src/lib/process_stream.rs:226-282 | as written, the first stream fails at the transcript read or at the line-234 regex, so no summary is stored and line 282 is never reached |
| StreamSummary.SummarizeStreams | crates/stream_pulse/src/lib/process_stream.rs:221-285 | the loop over the stream array, which updates it in place, produces what `SummarizeFrom` says |
| StreamSummary.SummarizeStream | crates/stream_pulse/src/lib/process_stream.rs:226-279 | one pass of the loop body gives `SummarizeOne`'s result |
| LinearSummary.SummarizeLinear | crates/stream_pulse/src/lib/summary.rs:10-45 | the loop makes the calls, builds the list and gives the result that `Linear` specifies |
| LinearSummary.SummarizePieces | crates/stream_pulse/src/lib/summary.rs:23-44 | the loop over the split pieces matches `LinearOver` |
| LinearSummary.NextContextJoins | crates/stream_pulse/src/lib/summary.rs:36-39 | the context update keeps the context equal to all summaries so far, joined by newlines |
| LinearSummary.PhaseCalls | crates/stream_pulse/src/lib/summary.rs:27-42 | the calls receive the chunks in order; every call but the last succeeded; an error is the last call's |
| LinearSummary.PhaseOk | crates/stream_pulse/src/lib/summary.rs:27-42 | on success there is one call per chunk; call k gets the join of the earlier summaries; summary k is its reply |
| LinearSummary.LinearSpec | crates/stream_pulse/src/lib/summary.rs:23-44 | one call per non-blank trimmed segment, in order; the first context is `None`, later ones the cumulative join; combine is called once with all summaries and its output is the result; a chunk error ends the run without combining |
| LinearSummary.WithoutDelimiter | crates/stream_pulse/src/lib/summary.rs:23-32 | input without the delimiter gives at most one chunk, the trimmed input |
| LinearSummary.Chunks | crates/stream_pulse/src/lib/summary.rs:27-32 | chunks are never empty, and there are no more of them than segments |
| TimeAgo.TimestampFromTimeAgo | crates/stream_datastore/src/domain/stream.rs:48-70 | the timestamp is never later than `now` |
| TimeAgo.TimestampNoneIffNoMatch | crates/stream_datastore/src/domain/stream.rs:51-69 | `None` exactly when the pattern matches nowhere in the text |
| TimeAgo.TimestampOfCaptures | crates/stream_datastore/src/domain/stream.rs:51-66 | a match gives `now` minus the captured amount times the unit's length |
| TimeAgo.DurationIsProduct | crates/stream_datastore/src/domain/stream.rs:55-64 | the duration subtracted is the amount times the unit's length in seconds (1, 60, 3600, 86400, 7 days, 30 days, 365 days) |
| TimeAgo.MatchAtDigits | crates/stream_datastore/src/domain/stream.rs:7-8 | a match captures a non-empty digit run that is followed by whitespace |
| TimeAgo.LeftmostCaptures | crates/stream_datastore/src/domain/stream.rs:51 | the captures are those of the leftmost position where the pattern matches |
| TimeAgo.FirstMatchNone | crates/stream_datastore/src/domain/stream.rs:51 | the search fails iff no position matches |
| TimeAgo.FirstMatchIsLeftmost | crates/stream_datastore/src/domain/stream.rs:51 | the search returns the match at the first matching position |
| TimeAgo.LayoutMatchesAt | crates/stream_datastore/src/domain/stream.rs:7-8 | digits, whitespace, a unit word, an optional `s`, whitespace and `ago` match at their start, capturing those digits and that unit |
| TimeAgo.RenderedMatchesAt | crates/stream_datastore/src/domain/stream.rs:7-8 | the pattern matches a rendered `"<n> <unit>[s] ago"` where it starts, capturing the decimal digits of `n` and the unit |
| TimeAgo.RunLengthIsMaximal | crates/stream_datastore/src/domain/stream.rs:7-8 | a greedy `\d+` or `\s+` run takes every character of its class and stops at the first one outside it |
| TimeAgo.UnitAtWord | crates/stream_datastore/src/domain/stream.rs:7-8 | a unit word where the unit group starts is captured as that unit |
| TimeAgo.MatchRendered | crates/stream_datastore/src/domain/stream.rs:7-8 | `"<n> <unit>[s] ago"` after digit-free text is the match, with amount `n` |
| TimeAgo.ParseRendered | crates/stream_datastore/src/domain/stream.rs:48-70 | such a text, with anything after it, gives `now - n·factor(unit)` |
| TimeAgo.ParseRenderedAlone | crates/stream_datastore/src/domain/stream.rs:48-70 | the same for the rendered text on its own |
| TimeAgo.AmountMonotone | crates/stream_datastore/src/domain/stream.rs:55-66 | for a fixed unit, a larger amount gives an earlier or equal timestamp |
| TimeAgo.NoDigitsNoTimestamp | crates/stream_datastore/src/domain/stream.rs:67-69 | text without a digit gives `None` |
| TimeAgoExamples.ThirtySecondsAgo | stream_datastore/src/domain/stream.rs:143-148 | "30 seconds ago" gives now − 30 |
| TimeAgoExamples.FifteenMinutesAgo | stream_datastore/src/domain/stream.rs:151-156 | "15 minutes ago" gives now − 900 |
| TimeAgoExamples.TwoHoursAgo | stream_datastore/src/domain/stream.rs:159-164 | "2 hours ago" gives now − 7200 |
| TimeAgoExamples.ThreeDaysAgo | stream_datastore/src/domain/stream.rs:167-172 | "3 days ago" gives now − 3 days |
| TimeAgoExamples.TwoWeeksAgo | stream_datastore/src/domain/stream.rs:175-180 | "2 weeks ago" gives now − 14 days |
| TimeAgoExamples.ThreeMonthsAgo | stream_datastore/src/domain/stream.rs:183-188 | "3 months ago" gives now − 90 days |
| TimeAgoExamples.TwoYearsAgo | stream_datastore/src/domain/stream.rs:191-196 | "2 years ago" gives now − 730 days |
| TimeAgoExamples.OneYearAgo | stream_datastore/src/domain/stream.rs:199-204 | the singular "1 year ago" gives now − 365 days |
| TimeAgoExamples.InvalidFormat | stream_datastore/src/domain/stream.rs:207-210 | "invalid time ago" gives `None` |
| TimeAgoExamples.EmptyText | stream_datastore/src/domain/stream.rs:213-216 | "" gives `None` |
| TimeAgoExamples.FutureTime | stream_datastore/src/domain/stream.rs:219-222 | "2 hours from now" gives `None` |
| StreamDomain.Stream.Url | crates/stream_datastore/src/domain/stream.rs:29-31 | the URL is the watch prefix followed by the video id |
| StreamDomain.Stream.TimestampFromTimeAgo | crates/stream_datastore/src/domain/stream.rs:48-70 | the record's date, read at `now`, is never later than `now` |
| StreamDomain.Stream.Category | crates/stream_datastore/src/domain/stream.rs:76-84 | NationalAssembly iff the lowercased title contains "national assembly"; Senate iff it does not but contains "senate"; Other otherwise |
| StreamDomain.UrlInjective | crates/stream_datastore/src/domain/stream.rs:29-31 | two records have the same URL iff they have the same id |
| StreamDomain.CategoryCaseInsensitive | crates/stream_datastore/src/domain/stream.rs:77-80 | the category does not depend on letter case |
| StreamDomain.NationalAssemblyTitle | crates/stream_datastore/src/domain/stream.rs:77-79 | a title mentioning the National Assembly, in any case, is filed there, whatever else it says |
| StreamDomain.SenateTitle | crates/stream_datastore/src/domain/stream.rs:80-82 | a title mentioning the Senate and not the National Assembly is filed under Senate |
| StreamDomain.CategoryOfName | crates/stream_datastore/src/domain/stream.rs:76-101 | a title equal to a category's display name is filed under that category |
| StreamDomain.NamesDistinct | crates/stream_datastore/src/domain/stream.rs:94-101 | the display names are pairwise different |
| StreamDomain.NamedNationalAssembly | crates/stream_datastore/src/domain/stream.rs:76-101 | a title equal to "National Assembly" is filed under NationalAssembly |
| StreamDomain.NamedSenate | crates/stream_datastore/src/domain/stream.rs:76-101 | a title equal to "Senate" is filed under Senate |
| StreamDomain.NamedOther | crates/stream_datastore/src/domain/stream.rs:76-101 | a title equal to "Other" is filed under Other |
| StreamDomain.UrlOfTestStream | stream_datastore/src/domain/stream.rs:137-140 | the id "test_id" gives the test's URL |
| StreamDomain.UrlOfDocExample | stream_datastore/src/domain/stream.rs:24-35 | the id "dQw4w9WgXcQ" gives the doc example's URL |
| LegacyStreamDomain.Stream.Url | stream_datastore/src/domain/stream.rs:33-35 | the URL is the watch prefix followed by the video id |
| LegacyStreamDomain.Stream.TimestampFromTimeAgo | stream_datastore/src/domain/stream.rs:65-89 | the date read at `now` is never later than `now` |
| LegacyStreamDomain.Stream.Category | stream_datastore/src/domain/stream.rs:95-103 | `Some(NationalAssembly)` iff the lowercased title contains "national assembly"; `None` iff it contains neither keyword |
| LegacyStreamDomain.VersionsAgree | stream_datastore/src/domain/stream.rs:33-103 | the two crates' records with the same fields agree on URL and timestamp, and `None` corresponds to Other |
| LegacyStreamDomain.UrlOfTestStream | stream_datastore/src/domain/stream.rs:137-140 | the unit test's URL |
| LegacyStreamDomain.UrlOfDocExample | stream_datastore/src/domain/stream.rs:24-35 | the doc test's URL |
| PgStore.InsertAllCounts | crates/stream_datastore/src/store.rs:56-101 | successes plus failures equal the number of streams; each success adds one row; the old rows stay |
| PgStore.InsertOneShape | crates/stream_datastore/src/store.rs:57-100 | one insert either adds that stream's row under a new id and counts a success, or changes no row and adds one failure carrying its id |
| PgStore.FailuresInOrder | crates/stream_datastore/src/store.rs:56-101 | the failures of a prefix of the batch are a prefix of the failures, so failures come in input order |
| PgStore.FailureTagged | crates/stream_datastore/src/store.rs:57-100 | each stream is stored or adds exactly one failure with its own id: "Invalid timestamp", DuplicateEntry for a taken id, or OtherError |
| PgStore.BulkInsertSpec | crates/stream_datastore/src/store.rs:48-119 | `Ok` accounts for every stream; a begin or commit failure is `Err` and changes nothing |
| PgStore.TwoFreshStreams | crates/stream_datastore/src/store.rs:148-183 | two fresh streams with readable dates give 2 successes, no failures, and both rows |
| PgStore.DataStore.constructor | crates/stream_datastore/src/store.rs:16-33 | the table starts empty |
| PgStore.DataStore.StreamExists | crates/stream_datastore/src/store.rs:35-45 | true iff the id has a row; a failing query is the context error |
| PgStore.DataStore.BulkInsertStreams | crates/stream_datastore/src/store.rs:48-119 | the bulk insert updates the table as `BulkInsert` says |
| SqliteStore.RowRoundTrip | stream_datastore/src/store.rs:36-73 | a stored row reads back as the stream it was made from |
| SqliteStore.StreamOf | stream_datastore/src/store.rs:171-179 | a row read back is the stream with the id asked for |
| SqliteStore.InsertAllTxCounts | stream_datastore/src/store.rs:110-169 | on `Ok` every stream is counted once, each success adds one row, and the old rows stay |
| SqliteStore.InsertAllTxErrIffBadDate | stream_datastore/src/store.rs:137-141 | the batch fails iff some stream's date does not parse, with the timestamp error |
| SqliteStore.BadDateStoresNothing | stream_datastore/src/store.rs:80-108 | an unparseable date anywhere in the batch stores none of it |
| SqliteStore.BulkInsertSpec | stream_datastore/src/store.rs:80-108 | `Ok` accounts for every stream; any error leaves the table as it was |
| SqliteStore.DuplicateInBatch | stream_datastore/src/store.rs:293-338 | three streams with one repeated id give 2 successes, one DuplicateEntry and 2 rows |
| SqliteStore.InsertRejects | stream_datastore/src/store.rs:36-73 | inserting a taken id, or a stream whose date does not parse, is `Err` and changes nothing |
| SqliteStore.InsertThenGet | stream_datastore/src/store.rs:171-179 | an inserted stream reads back as itself |
| SqliteStore.UpdateSpec | stream_datastore/src/store.rs:181-202 | update changes only title, view count, duration and summary of that row; a missing id changes nothing |
| SqliteStore.DeleteSpec | stream_datastore/src/store.rs:204-212 | delete removes exactly that row; a missing id is `Ok` and changes nothing |
| SqliteStore.NewestExists | stream_datastore/src/store.rs:214-222 | a non-empty table has a newest row, so the newest-first listing can start |
| SqliteStore.DataStore.constructor | stream_datastore/src/store.rs:9-34 | the table starts empty |
| SqliteStore.DataStore.InsertStream | stream_datastore/src/store.rs:36-73 | `insert_stream` updates the table as `Insert` says |
| SqliteStore.DataStore.GetStream | stream_datastore/src/store.rs:171-179 | `get_stream` returns what `Get` says |
| SqliteStore.DataStore.StreamExists | stream_datastore/src/store.rs:75-78 | `stream_exists` iff `get_stream` gives `Some`, that is, iff the id has a row |
| SqliteStore.DataStore.UpdateStream | stream_datastore/src/store.rs:181-202 | `update_stream` updates the table as `Update` says |
| SqliteStore.DataStore.DeleteStream | stream_datastore/src/store.rs:204-212 | `delete_stream` updates the table as `Delete` says |
| SqliteStore.DataStore.ListStreams | stream_datastore/src/store.rs:214-222 | every row once, as stored, newest first |
| SqliteStore.OrderNewestFirst | stream_datastore/src/store.rs:216 | `ORDER BY stream_timestamp DESC` lists every id once, newest first |
| ScrapeStore.InsertAllTxCounts | yt_scrape/src/datastore.rs:112-154 | every stream is counted once, each success adds one row, and the old rows stay |
| ScrapeStore.BulkInsertSpec | yt_scrape/src/datastore.rs:82-110 | `Ok` iff the transaction begins and commits, and then every stream is counted once; an error leaves both tables as they were |
| ScrapeStore.DuplicateInBatch | yt_scrape/src/datastore.rs:333-375 | three streams with one repeated id give 2 successes, one DuplicateEntry and 2 rows |
| ScrapeStore.OperationsKeepValid | yt_scrape/src/datastore.rs:26-58 | every single-row operation keeps the foreign key from captions to streams |
| ScrapeStore.BulkInsertKeepsValid | yt_scrape/src/datastore.rs:82-154 | the bulk insert keeps the foreign key |
| ScrapeStore.InsertThenGet | yt_scrape/src/datastore.rs:60-80 | an inserted stream reads back as itself; a second insert of its id is UniqueConstraintViolation |
| ScrapeStore.UpdateThenGet | yt_scrape/src/datastore.rs:166-181 | update overwrites title, view count, date and duration; a missing id is `Ok` with no change |
| ScrapeStore.DeleteThenGet | yt_scrape/src/datastore.rs:183-191 | after deleting, `get_stream` gives `None` and the table shrinks by the deleted row; a missing id is `Ok` |
| ScrapeStore.DeleteRefusedWithCaptions | yt_scrape/src/datastore.rs:183-191 | a stream that still has captions cannot be deleted |
| ScrapeStore.CaptionsRoundTrip | yt_scrape/src/datastore.rs:202-262 | insert then get returns the captions; update then get returns the new text; delete then get gives `None` |
| ScrapeStore.CaptionsNeedStream | yt_scrape/src/datastore.rs:202-218 | captions for a stream that is not stored are refused |
| ScrapeStore.ListIds | yt_scrape/src/datastore.rs:193-200 | the listing holds every id of the table once |
| ScrapeStore.StreamOf | yt_scrape/src/datastore.rs:156-164 | a row read back is the stream with that id, and writing it again gives the same row |
| ScrapeStore.DataStore.constructor | yt_scrape/src/datastore.rs:26-58 | both tables start empty, with the foreign key holding |
| ScrapeStore.DataStore.Insert | yt_scrape/src/datastore.rs:60-80 | `insert_stream` as `InsertStream` |
| ScrapeStore.DataStore.BulkInsertStreams | yt_scrape/src/datastore.rs:82-154 | `bulk_insert_streams` as `BulkInsert` |
| ScrapeStore.DataStore.Get | yt_scrape/src/datastore.rs:156-164 | `get_stream` as `GetStream` |
| ScrapeStore.DataStore.Update | yt_scrape/src/datastore.rs:166-181 | `update_stream` as `UpdateStream` |
| ScrapeStore.DataStore.Delete | yt_scrape/src/datastore.rs:183-191 | `delete_stream` as `DeleteStream` |
| ScrapeStore.DataStore.List | yt_scrape/src/datastore.rs:193-200 | every stored stream once, as stored |
| ScrapeStore.DataStore.InsertClosedCaptions | yt_scrape/src/datastore.rs:202-218 | `insert_closed_captions` as `InsertCaptions` |
| ScrapeStore.DataStore.GetClosedCaptions | yt_scrape/src/datastore.rs:220-233 | `get_closed_captions` as `GetCaptions` |
| ScrapeStore.DataStore.UpdateClosedCaptions | yt_scrape/src/datastore.rs:235-252 | `update_closed_captions` as `UpdateCaptions` |
| ScrapeStore.DataStore.DeleteClosedCaptions | yt_scrape/src/datastore.rs:254-262 | `delete_closed_captions` as `DeleteCaptions` |
| ScrapeStream.Stream.Url | yt_scrape/src/parser.rs:15-17 | the URL is the watch prefix followed by the id |
| ScrapeStream.UrlInjective | yt_scrape/src/parser.rs:15-17 | two records have the same URL iff they have the same id |
| SlidingWindows.SlidingWindow.constructor | vtt_digest/src/sliding_window.rs:14-21 | start 0, end `min(2000, len)`, empty context, and the invariant `0 ≤ start ≤ end ≤ len`, `end − start ≤ 2000` holds |
| SlidingWindows.SlidingWindow.Slide | vtt_digest/src/sliding_window.rs:23-30 | false iff `end ≥ len`, and then nothing changes; otherwise start grows by 1000 and end strictly grows; the invariant is kept |
| SlidingWindows.SlidingWindow.CurrentWindow | vtt_digest/src/sliding_window.rs:32-34 | the window is `text[start..end]`, at most 2000 long |
| SlidingWindows.SlidingWindow.UpdateContext | vtt_digest/src/sliding_window.rs:36-41 | the context becomes `ContextAfter` of the old one; nothing else changes |
| SlidingWindows.ContextAfterIsTail | vtt_digest/src/sliding_window.rs:36-41 | the new context is the suffix of `old ++ "\n" ++ summary` of length `min(500, total)` |
| SlidingWindows.ContextEndsWithSummary | vtt_digest/src/sliding_window.rs:36-41 | a summary shorter than 500 characters ends the new context, right after a newline |
| SlidingWindows.SummarizeWithSlidingWindow | vtt_digest/src/lib.rs:7-31 | the loop makes the calls, and gives the result, that `Run` specifies |
| SlidingWindows.RunSpec | vtt_digest/src/lib.rs:16-30 | at least one call, the first on the first window with an empty context; call i gets window i; combining is reached with one summary per window, summary i being the reply of call i, and its output is the result; otherwise the result is an error |
| SlidingWindows.RunFromFirst | vtt_digest/src/lib.rs:19-21 | the next call gets the current window and context |
| SlidingWindows.RunFromWindows | vtt_digest/src/lib.rs:19-28 | the j-th call gets window k + j |
| SlidingWindows.RunFromCombined | vtt_digest/src/lib.rs:23-30 | a run that combines made one call per remaining window, combines the earlier summaries followed by one new summary per call, and passes that list to `combine` once; the last window ends at the end of the text |
| SlidingWindows.RunFromReplies | vtt_digest/src/lib.rs:19-30 | in a run that combines, the summary after the earlier ones in position j is the reply of the j-th new call, so `combine` gets the replies in call order |
| SlidingWindows.RunFromFailed | vtt_digest/src/lib.rs:20-21 | a failing call ends the run with its error, without combining |
| SlidingWindows.ContextThreaded | vtt_digest/src/lib.rs:21-22 | every call after the first gets the context updated with the previous call's summary |
| SlidingWindows.WindowCount | vtt_digest/src/sliding_window.rs:23-30 | up to 2000 characters make one window; each further 1000, or part of it, makes one more |
| Vtt.ParseVttContent | ytdlp_bindings/src/file_types/vtt.rs:26-59 | `parse_vtt_content` gives `ParseVtt` |
| Vtt.EntriesFromVttStr | ytdlp_bindings/src/processors/vtt.rs:63-96 | `entries_from_vtt_str` gives `ParseVtt` too, so the two copies agree on every input |
| Vtt.ReadPayload | ytdlp_bindings/src/file_types/vtt.rs:39-47 | the payload is the lines up to the first empty line or the end, each followed by a newline |
| Vtt.DrainPayload | ytdlp_bindings/src/processors/vtt.rs:78-84 | the same payload read from the shared iterator, leaving exactly the lines after it |
| Vtt.HeaderSkipped | ytdlp_bindings/src/file_types/vtt.rs:30-31 | the first line is skipped whatever it holds, even an arrow |
| Vtt.CuesAtMostArrows | ytdlp_bindings/src/file_types/vtt.rs:33-36 | there are no more entries than lines with `-->` |
| Vtt.EntryCountBound | ytdlp_bindings/src/file_types/vtt.rs:27-58 | the entries are at most the non-header lines with `-->` |
| Vtt.CuesFromTimingLines | ytdlp_bindings/src/file_types/vtt.rs:33-53 | each entry is the cue of its own timing line, with start and end trimmed and the payload trimmed, in order of those lines |
| Vtt.FirstCue | ytdlp_bindings/src/file_types/vtt.rs:33-34 | the lines before the first cue are not timing lines |
| Vtt.CueGaps | ytdlp_bindings/src/file_types/vtt.rs:33-47 | a cue's timing line comes after the previous payload, and lines between cues are not timing lines; payload lines are never re-read |
| Vtt.LastCue | ytdlp_bindings/src/file_types/vtt.rs:33-56 | the lines after the last payload are not timing lines |
| Vtt.OneCue | ytdlp_bindings/src/file_types/vtt.rs:33-53 | a header, an empty line, a timing line and one payload line closed by an empty line make one cue |
| Vtt.SampleCues | ytdlp_bindings/src/processors/vtt.rs:144-158 | the mock's line stream gives the one expected cue |
| Vtt.SampleEntry | ytdlp_bindings/src/processors/vtt.rs:141-201 | the mock's sample text gives exactly `("00:00:01.000", "00:00:04.000", "Hello, world!")` |
| YtDlp.Argv | crates/ytdlp_bindings/src/ytldp.rs:381-391 | with cookies, argv is `["--cookies", path] ++ args`; without, it is `args` |
| YtDlp.Message | crates/ytdlp_bindings/src/ytldp.rs:397-406 | the message is stderr if non-blank, else stdout if non-blank, else the fixed text; it is never blank |
| YtDlp.Outcome | crates/ytdlp_bindings/src/ytldp.rs:392-413 | a spawn failure is an execution error; otherwise `Ok` iff the process succeeded; a NonZeroExit names the binary and a non-blank message |
| YtDlp.RunOnce | crates/ytdlp_bindings/src/ytldp.rs:378-414 | `run_yt_dlp_once` gives `Once`: the cookies check, then the process |
| YtDlp.Attempt | crates/ytdlp_bindings/src/ytldp.rs:354 | attempt n of the loop gives the n-th answer of `run_yt_dlp_once` |
| YtDlp.RunYtDlp | crates/ytdlp_bindings/src/ytldp.rs:347-376 | the retry loop gives `RunFrom` over its attempts |
| YtDlp.RunFromSpec | crates/ytdlp_bindings/src/ytldp.rs:352-375 | from any point: every attempt before the last was a NonZeroExit, each followed by a 2 s wait; the last attempt's outcome is returned |
| YtDlp.RetryPolicy | crates/ytdlp_bindings/src/ytldp.rs:347-376 | at most 3 attempts; only NonZeroExit is retried; the last outcome is returned as it is, and a NonZeroExit only after the third attempt |
| YtDlp.FirstSuccess | crates/ytdlp_bindings/src/ytldp.rs:357 | the first success ends the loop with `Ok` |
| YtDlp.ThirdFailureReturned | crates/ytdlp_bindings/src/ytldp.rs:367-369 | three NonZeroExits: the third is returned as it is |
| YtDlp.MissingCookies | crates/ytdlp_bindings/src/ytldp.rs:381-387 | a missing cookies file is InvalidPath after one attempt, with no process run |
| YtDlp.ProcessArgv | crates/ytdlp_bindings/src/ytldp.rs:379-392 | every process runs the binary with `Argv`, and its NonZeroExit names the binary |
| YtDlp.DownloadAudio | crates/ytdlp_bindings/src/ytldp.rs:168-189 | a non-UTF-8 output path is InvalidPath with no run; otherwise the run gets `["-f","bestaudio","-x","--audio-format",format,"--output",path,url]` |
| YtDlp.AudioArgs | crates/ytdlp_bindings/src/ytldp.rs:179-188 | the eight arguments: `-f bestaudio -x --audio-format <format> --output <path>`, then the URL |
| YtDlp.DownloadWithOptions | crates/ytdlp_bindings/src/ytldp.rs:278-282 | the run gets `options ++ [url]` |
| YtDlp.DownloadAutoSub | crates/ytdlp_bindings/src/ytldp.rs:295-311 | a non-UTF-8 output path is InvalidPath; otherwise the run gets the auto-sub arguments; a missing cookies file fails with InvalidPath |
| YtDlp.AutoSubArgs | crates/ytdlp_bindings/src/ytldp.rs:295-311 | the five arguments: `--write-auto-sub --skip-download --output <path>`, then the URL |
| YtDlp.OptionsArgv | crates/ytdlp_bindings/src/ytldp.rs:278-282 | with cookies, the process sees `--cookies`, then the options, then the URL last |
| Json.PathNested | ytparse_cron/src/parser.rs:29-35 | a key path leads back to the value nested under it |
| StreamPage.VideoFields | ytparse_cron/src/parser.rs:64-98 | success needs every key; a panic names a missing key; the id is the string under `videoId`, or "" when that value is not a string; other failures are the four field messages |
| StreamPage.ParseStreams | ytparse_cron/src/parser.rs:26-48 | the item loop gives `ParseAll` |
| StreamPage.WalkSpec | ytparse_cron/src/parser.rs:33-40 | over the video renderers of the items: `Ok` iff each reads, giving the records in item order; otherwise the first failure, and no partial list |
| StreamPage.WalkReadsRenderers | ytparse_cron/src/parser.rs:33-40 | the walk reads the video renderers of the items and nothing else |
| StreamPage.QualifyingOfItems | ytparse_cron/src/parser.rs:33-36 | the video renderers of a grid built from renderers are those renderers |
| StreamPage.ReadRenderer | ytparse_cron/src/parser.rs:64-98 | a renderer built from five texts reads back as those texts |
| StreamPage.ReadAllOk | ytparse_cron/src/parser.rs:37-38 | reading renderers succeeds iff each does, giving every record in order |
| StreamPage.ReadAllErr | ytparse_cron/src/parser.rs:37 | a failed read is the first failing renderer's error |
| StreamPage.StructureError | ytparse_cron/src/parser.rs:29-45 | a missing third tab, or a grid that is not an array, is a ParseError with the structure message |
| StreamPage.StructureErrorOnly | ytparse_cron/src/parser.rs:29-45 | with `try_from`s that never give it, that message means exactly a wrong structure |
| StreamPage.VideoFieldsNotStructure | ytparse_cron/src/parser.rs:64-98 | `try_from` never fails with the structure message |
| StreamPage.ParseBuiltPage | ytparse_cron/src/parser.rs:26-48 | a page built from renderers that all read gives their records in order |
| StreamPage.SkipItem | ytparse_cron/src/parser.rs:33-36 | an item without a video renderer changes nothing, wherever it is |
| CronPageParser.TryFrom | yt_parse_cron/src/parser.rs:31-59 | the record is the renderer's five texts, copied as they are, and the failure is `VideoFields`' |
| CronPageParser.ParseStreams | yt_parse_cron/src/parser.rs:70-92 | `parse_streams` gives `ParseAll` with this `try_from` |
| CronPageParser.ReadFor | ytparse_cron/src/parser.rs:64-98 | a record's renderer reads back as the record |
| CronPageParser.RoundTrip | ytparse_cron/src/parser.rs:26-48 | the page built from records parses back to those records, in order |
| CronPageParser.VideoIdNotString | ytparse_cron/src/parser.rs:65 | a non-string `videoId` reads as ""; a missing `videoId` key panics |
| ScrapePageParser.TryFrom | yt_scrape/src/parser.rs:23-50 | the scraper's record is the renderer's five texts, copied as they are |
| ScrapePageParser.ParseStreams | yt_scrape/src/parser.rs:52-74 | `parse_streams` gives `ParseAll` with the scraper's `try_from` |
| ScrapePageParser.ReadFor | yt_scrape/src/parser.rs:23-50 | a record's renderer reads back as the record |
| ScrapePageParser.RoundTrip | yt_scrape/src/parser.rs:52-74 | the page built from records parses back to those records, in order |
| Text.Trim | crates/stream_pulse/src/lib/summary.rs:28 | `trim` drops exactly the whitespace margins: empty iff blank, otherwise no whitespace at either end |
| Text.TrimAround | crates/stream_pulse/src/lib/summary.rs:28 | `trim` of a blank margin, a text that starts and ends with a non-blank character, and a blank margin is exactly that text |
| Text.TrimOfTrimmed | crates/stream_pulse/src/lib/summary.rs:28 | a text that is empty or neither starts nor ends with whitespace is its own `trim` |
| Text.TrimStart | crates/stream_pulse/src/lib/process_stream.rs:195 | `trim_start` drops exactly the leading whitespace: the rest does not start with whitespace, and what was dropped is blank |
| Text.TrimEnd | ytdlp_bindings/src/file_types/vtt.rs:52 | the trailing half of `trim` drops exactly the trailing whitespace |
| Text.ToLower | crates/stream_datastore/src/domain/stream.rs:77 | `to_lowercase` keeps the length and lowers each letter in place |
| Text.ToLowerIdempotent | crates/stream_datastore/src/domain/stream.rs:77 | lowering twice is lowering once |
| Text.NatToDigits | crates/stream_pulse/src/lib/process_stream.rs:628 | the decimal rendering is a non-empty digit string whose value is the number |
| Text.FindSpec | crates/stream_pulse/src/lib/process_stream.rs:625-627 | `find` gives the first occurrence, and `None` only when there is none |
| Text.Split | crates/stream_pulse/src/lib/summary.rs:23 | `split` on a string pattern gives at least one piece |
| Text.SplitEmptyPattern | crates/stream_pulse/src/lib/summary.rs:23 | on the empty pattern, `split` gives an empty piece, then each character alone, then an empty piece |
| Text.SplitJoin | crates/stream_pulse/src/lib/summary.rs:23 | joining the pieces of `split` with the delimiter gives the text back |
| Text.SplitPiecesFree | crates/stream_pulse/src/lib/summary.rs:23 | no piece of `split` contains the delimiter |
| Text.SplitCutsLeftmost | crates/stream_pulse/src/lib/summary.rs:23 | each piece but the last ends where the delimiter first occurs in the text from that piece on: the cuts are the leftmost, non-overlapping occurrences |
| Text.SplitWithout | crates/stream_pulse/src/lib/summary.rs:23 | a text without the delimiter splits into itself alone |
| Text.LinesUnlines | ytdlp_bindings/src/file_types/vtt.rs:28 | `lines` reads back the lines of a text written one line per newline |

## Left out

- The HTTP fetch, `extract_json_from_script` and `chat_completions_text_from_response` are left out. The parsers start from an already parsed JSON tree, and a chat reply is an oracle answer whose text extraction may itself fail.
- JSON numbers are kept as their text, because the parsers never read them.
- The OpenAI transcription and chat calls, the tiktoken token counter, the `yt-dlp` process and ffmpeg are oracles.
- The audio download and the 900-second split are oracles answered per stream. The calls in `process_stream.rs` do not match the signatures of `download_audio` and `split_audio_to_chunks` they call (two arguments for three, three for four).
- `run_ffmpeg`, the audio and video processors, `resolve_yt_dlp_binary`, the `build.rs` downloads and the older bindings crate are left out: they are thin wrappers around a process.
- The second `new`/`new_with_cookies` pair of `ytldp.rs` is left out: it only stores its arguments, which the model takes as the `YtDlp` record.
- `download_video`, `download_sub` and the playlist downloads are left out: they are argument lists like `download_audio` and `download_auto_sub`.
- `String::from_utf8_lossy` on the process output is left out: the output is given as text.
- Sleeps are returned as waits (milliseconds for chat and yt-dlp, seconds for transcription).
- `Utc::now()` is the parameter `now` in integer seconds. The source reads the clock on every call, even inside the sort comparator; the model uses one instant.
- chrono's range panics for a duration beyond its limits are not modelled. The i64 parse of the amount is modelled (`AmountFits`).
- TimeAgo.TimestampFromTimeAgo: `amount * 30` (months) and `amount * 365` (years) are computed as unbounded integers. The source computes them in i64 (crates/stream_datastore/src/domain/stream.rs:61-62, stream_datastore/src/domain/stream.rs:80-81). For amounts above i64::MAX/30 or i64::MAX/365 a debug build panics and a release build wraps: "614891469123651720 months ago" wraps to −16 days and gives a time after `now`. The model's `r.value <= now` holds only for the unbounded product.
- TimeAgo.TimestampOfCaptures: states `now - amount·factor` with the unbounded product, so it does not capture the i64 wrap for large month and year amounts.
- TimeAgo.DurationIsProduct: the product is unbounded, so the i64 wrap for large month and year amounts is not captured.
- TimeAgo.ParseRendered: states `now - n·factor` with the unbounded product, so the i64 wrap for large month and year amounts is not captured.
- TimeAgo.ParseRenderedAlone: the same unbounded product, so the same i64 wrap is not captured.
- TimeAgo.AmountMonotone: holds for the unbounded product. In the source it fails where `amount * 30` or `amount * 365` wraps.
- StreamDomain.Stream.TimestampFromTimeAgo: inherits the unmodelled i64 wrap of `TimeAgo.TimestampFromTimeAgo`.
- LegacyStreamDomain.Stream.TimestampFromTimeAgo: inherits the unmodelled i64 wrap of `TimeAgo.TimestampFromTimeAgo`.
- `Selection.SortAndFilter`, `PgStore.BulkInsert` and `SqliteStore` inserts read dates only where the amount fits in an i64. Where it does not, the source panics in `parse().unwrap()`, and the model requires the dates to fit instead.
- `rayon`'s `par_iter_mut` runs the streams one after another; which error a parallel run reports is not modelled.
- Directory listing, creation and file appends are modelled as state. A failed `create_dir_all` is assumed to create nothing, and a failed split to leave exactly the segments it wrote. `read_dir` errors other than a missing directory, and `cleanup_audio_dir`, are left out.
- The cron scheduler, the status server, tracing, Sentry, the CLI, the `main` functions and the prompt templates are left out.
- `fetch_and_process_streams` is left out: it is plumbing that chains the modelled steps.
- `get_existing_stream_ids` is in no store shown; the set of stored ids is an input of the selection.
- SQL is not modelled. Each table is a map keyed by video id; database errors other than a taken key are oracle answers.
- Postgres aborts the rest of a transaction after a failed statement. The model treats each insert in the bulk loop independently.
- SQLite stores the timestamp column as text. `ORDER BY stream_timestamp DESC` is modelled as integer order, and the order of equal timestamps is left open.
- The scraper's datastore binds `stream.video_id` and `stream.streamed_date`, but the scraper's `Stream` names its key `id`. The model keys the table by that `id`.
- Schema creation is modelled only as empty tables with the foreign key that SQLite's `sqlx` connection enforces.
- `Cleaning.RemoveNumberChains`: `\d` is taken as the ASCII digits. The `regex` crate's `\d` also matches other Unicode decimal digits.
- `Cleaning.RegexNew`: the error is the text of its kind, "backreferences are not supported". The multi-line text of the `regex` crate's `Display` for the error, which quotes the pattern, is not modelled. `Cleaning.CleanAlwaysFails` and `StreamSummary.AsWrittenNeverInserts` return that short text.
- `Cleaning.Clean`: the word collapse of the repeated-words regex is never reached, because that regex does not compile. It stays an unused parameter.
- `TimeAgo.CapturesOf`: the regex is a deterministic matcher at the leftmost position, and `\d` is ASCII.
- `to_lowercase` is modelled for ASCII letters only.
- Byte offsets in `SlidingWindow` are character indexes. The UTF-8 char-boundary panics of slicing are left out.
- `Vtt.CueAt`, `Vtt.Cues`, `LinearSummary.Chunks` and `LinearSummary.LinearOver` take `trim` as a parameter. `Vtt.ParseVtt` and `LinearSummary.Linear` instantiate it with `Text.Trim`, as the source does.
- `read_vtt_file`, `stream_vtt_file` and `process_vtt_file` are left out: they read a file.
- `stream_digest` is not part of this model; it uses a `SlidingWindow::get_context` that does not exist in the window shown.
