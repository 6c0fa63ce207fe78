/**
  The stream record of the scraper crate, as its parser produces it and its
  datastore stores it, and the crate's error type.
 */
module ScrapeStream {
  import opened Text
  import StreamDomain

  /** The crate's errors: a page that does not parse, a taken id, anything else. */
  datatype ScrapeError = ParseError(msg: string) | InternalError(msg: string) | UniqueConstraintViolation(msg: string)

  datatype Stream = Stream(id: string, title: string, viewCount: string, streamedDate: string, duration: string)
  {
    /** The watch URL: the fixed prefix followed by the video id. */
    function Url(): (r: string)
      ensures StartsWith(r, StreamDomain.WatchPrefix) && r[|StreamDomain.WatchPrefix|..] == id
    {
      StreamDomain.WatchPrefix + id
    }
  }

  /** Different ids give different URLs. */
  lemma UrlInjective(a: Stream, b: Stream)
    ensures a.Url() == b.Url() <==> a.id == b.id
  {
    if a.Url() == b.Url() {
      assert a.id == a.Url()[|StreamDomain.WatchPrefix|..];
    }
  }
}
