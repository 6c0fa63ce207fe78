/**
  The stream record of the older standalone datastore: the same URL and
  relative-date rules, a closed-caption summary in place of the markdown
  fields, and a category that is absent when the title names no house.
 */
module LegacyStreamDomain {
  import opened Wrappers
  import opened Text
  import TimeAgo
  import StreamDomain

  datatype StreamCategory = NationalAssembly | Senate
  {
    function Name(): string {
      match this
      case NationalAssembly => "National Assembly"
      case Senate => "Senate"
    }
  }

  datatype Stream = Stream(
    videoId: string,
    title: string,
    viewCount: string,
    streamedDate: string,
    duration: string,
    closedCaptionsSummary: string)
  {
    function Url(): (r: string)
      ensures StartsWith(r, StreamDomain.WatchPrefix) && r[|StreamDomain.WatchPrefix|..] == videoId
    {
      StreamDomain.WatchPrefix + videoId
    }

    /** The regex is compiled on every call here; the matching is the same. */
    function TimestampFromTimeAgo(now: int): (r: Option<int>)
      requires TimeAgo.AmountFits(streamedDate)
      ensures r.Some? ==> r.value <= now
    {
      TimeAgo.TimestampFromTimeAgo(streamedDate, now)
    }

    function Category(): (c: Option<StreamCategory>)
      ensures c == Some(NationalAssembly) <==> Contains(ToLower(title), "national assembly")
      ensures c.None? <==> !Contains(ToLower(title), "national assembly") && !Contains(ToLower(title), "senate")
    {
      if Contains(ToLower(title), "national assembly") then Some(NationalAssembly)
      else if Contains(ToLower(title), "senate") then Some(Senate)
      else None
    }
  }

  /**
    A legacy record and a record of the newer crate with the same id, title and
    relative date agree: same URL, same timestamp, and the same category, `Other`
    standing for the absent one, with the same display name.
   */
  lemma VersionsAgree(s: Stream, t: StreamDomain.Stream, now: int)
    requires s.videoId == t.videoId && s.title == t.title && s.streamedDate == t.streamedDate
    requires TimeAgo.AmountFits(s.streamedDate)
    ensures t.Url() == s.Url()
    ensures t.TimestampFromTimeAgo(now) == s.TimestampFromTimeAgo(now)
    ensures s.Category().None? <==> t.Category() == StreamDomain.Other
    ensures s.Category().Some? ==> s.Category().value.Name() == t.Category().Name()
  {
  }

  lemma UrlOfTestStream(s: Stream)
    requires s.videoId == "test_id"
    ensures s.Url() == "https://www.youtube.com/watch?v=test_id"
  {
  }

  lemma UrlOfDocExample(s: Stream)
    requires s.videoId == "dQw4w9WgXcQ"
    ensures s.Url() == "https://www.youtube.com/watch?v=dQw4w9WgXcQ"
  {
  }
}
