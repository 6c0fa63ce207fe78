/**
  The stream record of the datastore crate: a scraped YouTube live stream of a
  parliamentary sitting, its watch URL, its relative date read as a timestamp,
  and the house of parliament its title names.
 */
module StreamDomain {
  import opened Wrappers
  import opened Text
  import TimeAgo

  const WatchPrefix: string := "https://www.youtube.com/watch?v="

  datatype StreamCategory = NationalAssembly | Senate | Other
  {
    /** The `Display` text of the category. */
    function Name(): string {
      match this
      case NationalAssembly => "National Assembly"
      case Senate => "Senate"
      case Other => "Other"
    }
  }

  datatype Stream = Stream(
    videoId: string,
    title: string,
    viewCount: string,
    /** The relative date shown by YouTube, such as "3 days ago". */
    streamedDate: string,
    duration: string,
    summaryMd: Option<string>,
    timestampMd: Option<string>)
  {
    /** The watch URL: the fixed prefix followed by the video id. */
    function Url(): (r: string)
      ensures |r| == |WatchPrefix| + |videoId|
      ensures StartsWith(r, WatchPrefix) && r[|WatchPrefix|..] == videoId
    {
      WatchPrefix + videoId
    }

    /** The streamed date read as a timestamp (seconds since the epoch) at instant `now`. */
    function TimestampFromTimeAgo(now: int): (r: Option<int>)
      requires TimeAgo.AmountFits(streamedDate)
      ensures r.Some? ==> r.value <= now
    {
      TimeAgo.TimestampFromTimeAgo(streamedDate, now)
    }

    /** The house named in the title, the National Assembly taking precedence, case-insensitively. */
    function Category(): (c: StreamCategory)
      ensures c == NationalAssembly <==> Contains(ToLower(title), "national assembly")
      ensures c == Senate <==> !Contains(ToLower(title), "national assembly") && Contains(ToLower(title), "senate")
    {
      if Contains(ToLower(title), "national assembly") then NationalAssembly
      else if Contains(ToLower(title), "senate") then Senate
      else Other
    }
  }

  /** Different video ids give different URLs, and the id can be read back from the URL. */
  lemma UrlInjective(a: Stream, b: Stream)
    ensures a.Url() == b.Url() <==> a.videoId == b.videoId
  {
    if a.Url() == b.Url() {
      assert a.videoId == a.Url()[|WatchPrefix|..];
    }
  }

  lemma UrlOfTestStream(s: Stream)
    requires s.videoId == "test_id"
    ensures s.Url() == "https://www.youtube.com/watch?v=test_id"
  {
  }

  lemma UrlOfDocExample(s: Stream)
    requires s.videoId == "dQw4w9WgXcQ"
    ensures s.Url() == "https://www.youtube.com/watch?v=dQw4w9WgXcQ"
  {
  }

  /** The category ignores letter case. */
  lemma CategoryCaseInsensitive(s: Stream)
    ensures s.Category() == s.(title := ToLower(s.title)).Category()
  {
    ToLowerIdempotent(s.title);
  }

  /** A title mentioning the National Assembly, in any case, files the stream under it. */
  lemma NationalAssemblyTitle(s: Stream, before: string, after: string)
    requires ToLower(s.title) == ToLower(before) + "national assembly" + ToLower(after)
    ensures s.Category() == NationalAssembly
  {
    ContainsWitness(ToLower(s.title), "national assembly", |ToLower(before)|);
  }

  /** A title mentioning the Senate and not the National Assembly files the stream under the Senate. */
  lemma SenateTitle(s: Stream, before: string, after: string)
    requires ToLower(s.title) == ToLower(before) + "senate" + ToLower(after)
    requires !Contains(ToLower(s.title), "national assembly")
    ensures s.Category() == Senate
  {
    ContainsWitness(ToLower(s.title), "senate", |ToLower(before)|);
  }

  /** A stream titled with a category's display name is filed under that category. */
  lemma CategoryOfName(s: Stream, c: StreamCategory)
    requires s.title == c.Name()
    ensures s.Category() == c
  {
    match c
    case NationalAssembly => NamedNationalAssembly(s);
    case Senate => NamedSenate(s);
    case Other => NamedOther(s);
  }

  lemma NamedNationalAssembly(s: Stream)
    requires s.title == NationalAssembly.Name()
    ensures s.Category() == NationalAssembly
  {
    assert ToLower(s.title) == "national assembly";
    ContainsWitness(ToLower(s.title), "national assembly", 0);
  }

  lemma NamedSenate(s: Stream)
    requires s.title == Senate.Name()
    ensures s.Category() == Senate
  {
    assert ToLower(s.title) == "senate";
    NotContainsLonger(ToLower(s.title), "national assembly");
    ContainsWitness(ToLower(s.title), "senate", 0);
  }

  lemma NamedOther(s: Stream)
    requires s.title == Other.Name()
    ensures s.Category() == Other
  {
    NotContainsLonger(ToLower(s.title), "national assembly");
    NotContainsLonger(ToLower(s.title), "senate");
  }

  /** The display names are pairwise different. */
  lemma NamesDistinct(c: StreamCategory, d: StreamCategory)
    ensures c.Name() == d.Name() <==> c == d
  {
  }
}
