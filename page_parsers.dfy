/**
  The page parsers of the two cron crates, whose code is the same: `try_from` fills the
  datastore's stream record from a video renderer, and `parse_streams` walks the grid.
 */
module CronPageParser {
  import opened Wrappers
  import opened Json
  import opened StreamPage

  /** The datastore's stream record that the cron parsers produce. */
  datatype Stream = Stream(videoId: string, title: string, viewCount: string, streamedDate: string, duration: string)

  /** `StreamWrapper::try_from`: the renderer's five texts, copied as they are. */
  function TryFrom(renderer: map<string, Json>): (r: Result<Stream, Failure>)
    ensures r.Ok? <==> VideoFields(renderer).Ok?
    ensures r.Err? ==> r.error == VideoFields(renderer).error
    ensures r.Ok? ==> var f := VideoFields(renderer).value;
      r.value == Stream(f.videoId, f.title, f.viewCount, f.streamedDate, f.duration)
  {
    match VideoFields(renderer)
    case Err(e) => Err(e)
    case Ok(f) => Ok(Stream(f.videoId, f.title, f.viewCount, f.streamedDate, f.duration))
  }

  /** `parse_streams` of the cron crates. */
  method ParseStreams(page: Json) returns (r: Result<seq<Stream>, Failure>)
    ensures r == ParseAll(page, TryFrom)
  {
    r := StreamPage.ParseStreams(page, TryFrom);
  }

  /** The smallest renderer carrying a record. */
  function RendererFor(s: Stream): map<string, Json> {
    RendererOf(Fields(s.videoId, s.title, s.viewCount, s.streamedDate, s.duration))
  }

  /** Reading the renderer of a record gives back the record. */
  lemma ReadFor(s: Stream)
    ensures TryFrom(RendererFor(s)) == Ok(s)
  {
    ReadRenderer(Fields(s.videoId, s.title, s.viewCount, s.streamedDate, s.duration));
  }

  /** The renderers of the records, in order. */
  function RenderersFor(streams: seq<Stream>): (r: seq<map<string, Json>>)
    ensures |r| == |streams| && forall k :: 0 <= k < |r| ==> r[k] == RendererFor(streams[k])
  {
    seq(|streams|, k requires 0 <= k < |streams| => RendererFor(streams[k]))
  }

  /** Reading the page built from records gives back those records, in order. */
  lemma RoundTrip(streams: seq<Stream>)
    ensures ParseAll(PageOf(ItemsOf(RenderersFor(streams))), TryFrom) == Ok(streams)
  {
    var renderers := RenderersFor(streams);
    forall k | 0 <= k < |streams|
      ensures TryFrom(renderers[k]) == Ok(streams[k])
    {
      ReadFor(streams[k]);
    }
    ParseBuiltPage(renderers, streams, TryFrom);
  }

  /**
    A renderer whose `videoId` holds no string reads with an empty id, while one that lacks
    the key altogether panics.
   */
  lemma VideoIdNotString(s: Stream, id: Json)
    requires !id.Str?
    ensures TryFrom(RendererFor(s)["videoId" := id]) == Ok(s.(videoId := ""))
    ensures TryFrom(RendererFor(s) - {"videoId"}) == Err(Panic("videoId"))
  {
    var f := Fields(s.videoId, s.title, s.viewCount, s.streamedDate, s.duration);
    ReadRenderer(f);
    var m := RendererFor(s)["videoId" := id];
    assert Get(At(Get(m["title"], "runs"), 0), "text") == Str(s.title);
  }
}

/**
  The page parser of the scraper crate: the same walk, producing the scraper's own record.
 */
module ScrapePageParser {
  import opened Wrappers
  import opened Json
  import opened StreamPage
  import ScrapeStream

  /** `Stream::try_from`: the renderer's five texts, copied as they are. */
  function TryFrom(renderer: map<string, Json>): (r: Result<ScrapeStream.Stream, Failure>)
    ensures r.Ok? <==> VideoFields(renderer).Ok?
    ensures r.Err? ==> r.error == VideoFields(renderer).error
    ensures r.Ok? ==> var f := VideoFields(renderer).value;
      r.value == ScrapeStream.Stream(f.videoId, f.title, f.viewCount, f.streamedDate, f.duration)
  {
    match VideoFields(renderer)
    case Err(e) => Err(e)
    case Ok(f) => Ok(ScrapeStream.Stream(f.videoId, f.title, f.viewCount, f.streamedDate, f.duration))
  }

  /** `parse_streams` of the scraper. */
  method ParseStreams(page: Json) returns (r: Result<seq<ScrapeStream.Stream>, Failure>)
    ensures r == ParseAll(page, TryFrom)
  {
    r := StreamPage.ParseStreams(page, TryFrom);
  }

  function RendererFor(s: ScrapeStream.Stream): map<string, Json> {
    RendererOf(Fields(s.id, s.title, s.viewCount, s.streamedDate, s.duration))
  }

  /** Reading the renderer of a record gives back the record. */
  lemma ReadFor(s: ScrapeStream.Stream)
    ensures TryFrom(RendererFor(s)) == Ok(s)
  {
    ReadRenderer(Fields(s.id, s.title, s.viewCount, s.streamedDate, s.duration));
  }

  /** The renderers of the records, in order. */
  function RenderersFor(streams: seq<ScrapeStream.Stream>): (r: seq<map<string, Json>>)
    ensures |r| == |streams| && forall k :: 0 <= k < |r| ==> r[k] == RendererFor(streams[k])
  {
    seq(|streams|, k requires 0 <= k < |streams| => RendererFor(streams[k]))
  }

  /** Reading the page built from records gives back those records, in order. */
  lemma RoundTrip(streams: seq<ScrapeStream.Stream>)
    ensures ParseAll(PageOf(ItemsOf(RenderersFor(streams))), TryFrom) == Ok(streams)
  {
    var renderers := RenderersFor(streams);
    forall k | 0 <= k < |streams|
      ensures TryFrom(renderers[k]) == Ok(streams[k])
    {
      ReadFor(streams[k]);
    }
    ParseBuiltPage(renderers, streams, TryFrom);
  }
}
