/**
  The walk over a channel page's `ytInitialData` that the three page parsers share: the
  grid of the third tab, the video renderers in it, and the five texts read from each
  renderer. A renderer is read with `Map` indexing, so a renderer lacking one of the five
  keys panics; the panic is the outcome `Panic(key)`.
 */
module StreamPage {
  import opened Wrappers
  import opened Json

  /** What stops a parse: `ParseError` with its message, or a panic on a missing key. */
  datatype Failure = ParseError(msg: string) | Panic(key: string)

  /** The five texts a renderer gives, in the order they are read. */
  datatype Fields = Fields(videoId: string, title: string, viewCount: string, streamedDate: string, duration: string)

  /** The messages of `ParseError`. */
  const StructureMsg := "Failed to get script contents, structure might have changed"
  const TitleMsg := "Failed to get video title via ['title']['runs'][0]['text']"
  const ViewCountMsg := "Failed to get video view count via ['viewCountText']['simpleText']"
  const StreamedDateMsg := "Failed to get streamed_date via ['publishedTimeText']['simpleText']"
  const DurationMsg := "Failed to get duration via ['lengthText']['simpleText']"

  /** The keys of a renderer the parse indexes, in the order it indexes them. */
  const RendererKeys: seq<string> := ["videoId", "title", "viewCountText", "publishedTimeText", "lengthText"]

  /** `contents.twoColumnBrowseResultsRenderer.tabs`, then the third tab's grid `tabRenderer.content.richGridRenderer.contents`. */
  const TabsPath: seq<string> := ["contents", "twoColumnBrowseResultsRenderer", "tabs"]
  const GridPath: seq<string> := ["tabRenderer", "content", "richGridRenderer", "contents"]
  const RendererPath: seq<string> := ["richItemRenderer", "content", "videoRenderer"]

  /** The items of the grid, when the page has the expected structure. */
  function Contents(page: Json): Option<seq<Json>> {
    match GetIndex(Path(page, TabsPath), 2)
    case None => None
    case Some(tab) => AsArray(Path(tab, GridPath))
  }

  /** The video renderer of a grid item, when it has one. */
  function Renderer(item: Json): Option<map<string, Json>> {
    AsObject(Path(item, RendererPath))
  }

  /** `renderer[key]["simpleText"]` as a string; `msg` when it is not one. */
  function SimpleText(renderer: map<string, Json>, key: string, msg: string): Result<string, Failure> {
    if key !in renderer then Err(Panic(key))
    else match AsStr(Get(renderer[key], "simpleText"))
      case None => Err(ParseError(msg))
      case Some(s) => Ok(s)
  }

  /** `renderer["title"]["runs"][0]["text"]` as a string. */
  function TitleText(renderer: map<string, Json>): Result<string, Failure> {
    if "title" !in renderer then Err(Panic("title"))
    else match AsStr(Get(At(Get(renderer["title"], "runs"), 0), "text"))
      case None => Err(ParseError(TitleMsg))
      case Some(s) => Ok(s)
  }

  /**
    `try_from` of a video renderer: the id, which is empty when it is not a string, and the
    four texts, each of which must be a string.
   */
  function VideoFields(renderer: map<string, Json>): (r: Result<Fields, Failure>)
    ensures r.Ok? ==> forall k :: 0 <= k < |RendererKeys| ==> RendererKeys[k] in renderer
    ensures r.Err? && r.error.Panic? ==> r.error.key in RendererKeys && r.error.key !in renderer
    ensures r.Ok? ==> "videoId" in renderer && r.value.videoId == (if renderer["videoId"].Str? then renderer["videoId"].s else "")
    ensures r.Err? && r.error.ParseError? ==> r.error.msg in {TitleMsg, ViewCountMsg, StreamedDateMsg, DurationMsg}
  {
    if "videoId" !in renderer then Err(Panic("videoId"))
    else
      var id := match AsStr(renderer["videoId"]) case Some(s) => s case None => "";
      match TitleText(renderer)
      case Err(e) => Err(e)
      case Ok(title) =>
        match SimpleText(renderer, "viewCountText", ViewCountMsg)
        case Err(e) => Err(e)
        case Ok(viewCount) =>
          match SimpleText(renderer, "publishedTimeText", StreamedDateMsg)
          case Err(e) => Err(e)
          case Ok(streamedDate) =>
            match SimpleText(renderer, "lengthText", DurationMsg)
            case Err(e) => Err(e)
            case Ok(duration) => Ok(Fields(id, title, viewCount, streamedDate, duration))
  }

  /**
    The outcome of a whole walk over `items`, for a parser whose `try_from` is `tryFrom`:
    every renderer's record, or the first failure.
   */
  function Walk<T>(items: seq<Json>, tryFrom: map<string, Json> -> Result<T, Failure>): Result<seq<T>, Failure>
    decreases |items|
  {
    if items == [] then Ok([])
    else match Renderer(items[0])
      case None => Walk(items[1..], tryFrom)
      case Some(renderer) =>
        match tryFrom(renderer)
        case Err(e) => Err(e)
        case Ok(record) => Prepend([record], Walk(items[1..], tryFrom))
  }

  /** The records `done` before a walk that goes on with `rest`. */
  function Prepend<T>(done: seq<T>, rest: Result<seq<T>, Failure>): Result<seq<T>, Failure> {
    match rest
    case Ok(more) => Ok(done + more)
    case Err(e) => Err(e)
  }

  /** `parse_streams`, for a parser whose `try_from` is `tryFrom`. */
  function ParseAll<T>(page: Json, tryFrom: map<string, Json> -> Result<T, Failure>): Result<seq<T>, Failure> {
    match Contents(page)
    case None => Err(ParseError(StructureMsg))
    case Some(items) => Walk(items, tryFrom)
  }

  /** `parse_streams`: the loop over the grid items that pushes one record per video renderer. */
  method ParseStreams<T>(page: Json, tryFrom: map<string, Json> -> Result<T, Failure>) returns (r: Result<seq<T>, Failure>)
    ensures r == ParseAll(page, tryFrom)
  {
    var contents := Contents(page);
    if contents.None? {
      return Err(ParseError(StructureMsg));
    }
    var items := contents.value;
    var streams: seq<T> := [];
    assert items[0..] == items;
    assert Prepend(streams, Walk(items, tryFrom)) == Walk(items, tryFrom) by {
      if Walk(items, tryFrom).Ok? {
        assert streams + Walk(items, tryFrom).value == Walk(items, tryFrom).value;
      }
    }
    for i := 0 to |items|
      invariant Walk(items, tryFrom) == Prepend(streams, Walk(items[i..], tryFrom))
    {
      assert items[i..][1..] == items[i + 1..];
      var renderer := Renderer(items[i]);
      if renderer.Some? {
        var stream := tryFrom(renderer.value);
        if stream.Err? {
          return Err(stream.error);
        }
        ghost var rest := Walk(items[i + 1..], tryFrom);
        if rest.Ok? {
          assert streams + ([stream.value] + rest.value) == streams + [stream.value] + rest.value;
        }
        streams := streams + [stream.value];
      }
    }
    assert items[|items|..] == [];
    assert streams + [] == streams;
    return Ok(streams);
  }

  // ---------------------------------------------------------------------------------------------
  // Properties of the walk

  /** The video renderers among `items`, in order. */
  function Qualifying(items: seq<Json>): (r: seq<map<string, Json>>)
    ensures |r| <= |items|
    decreases |items|
  {
    if items == [] then []
    else match Renderer(items[0])
      case None => Qualifying(items[1..])
      case Some(renderer) => [renderer] + Qualifying(items[1..])
  }

  /**
    The walk succeeds exactly when every video renderer reads, and then gives one record per
    renderer, in order, built from that renderer alone: items without a renderer are
    skipped, and no partial list is ever returned. When it fails, it fails with the failure
    of the first renderer that does not read.
   */
  lemma WalkSpec<T>(items: seq<Json>, tryFrom: map<string, Json> -> Result<T, Failure>)
    ensures var q := Qualifying(items); var r := Walk(items, tryFrom);
      && (r.Ok? <==> forall k :: 0 <= k < |q| ==> tryFrom(q[k]).Ok?)
      && (r.Ok? ==> |r.value| == |q| && forall k :: 0 <= k < |q| ==> r.value[k] == tryFrom(q[k]).value)
      && (r.Err? ==> exists k :: 0 <= k < |q| && tryFrom(q[k]) == Err(r.error)
                       && forall j :: 0 <= j < k ==> tryFrom(q[j]).Ok?)
  {
    WalkReadsRenderers(items, tryFrom);
    ReadAllOk(Qualifying(items), tryFrom);
    ReadAllErr(Qualifying(items), tryFrom);
  }

  /** Reading renderers one after the other: every record, or the first failure. */
  function ReadAll<T>(renderers: seq<map<string, Json>>, tryFrom: map<string, Json> -> Result<T, Failure>): Result<seq<T>, Failure>
    decreases |renderers|
  {
    if renderers == [] then Ok([])
    else match tryFrom(renderers[0])
      case Err(e) => Err(e)
      case Ok(record) => Prepend([record], ReadAll(renderers[1..], tryFrom))
  }

  /** The walk reads the video renderers of the items, and nothing else. */
  lemma {:induction false} WalkReadsRenderers<T>(items: seq<Json>, tryFrom: map<string, Json> -> Result<T, Failure>)
    ensures Walk(items, tryFrom) == ReadAll(Qualifying(items), tryFrom)
    decreases |items|
  {
    if items != [] {
      WalkReadsRenderers(items[1..], tryFrom);
      match Renderer(items[0])
      case None =>
      case Some(renderer) =>
        assert Qualifying(items)[1..] == Qualifying(items[1..]);
    }
  }

  lemma {:induction false} ReadAllOk<T>(q: seq<map<string, Json>>, tryFrom: map<string, Json> -> Result<T, Failure>)
    ensures var r := ReadAll(q, tryFrom);
      && (r.Ok? <==> forall k :: 0 <= k < |q| ==> tryFrom(q[k]).Ok?)
      && (r.Ok? ==> |r.value| == |q| && forall k :: 0 <= k < |q| ==> r.value[k] == tryFrom(q[k]).value)
    decreases |q|
  {
    if q != [] {
      ReadAllOk(q[1..], tryFrom);
      var rest := ReadAll(q[1..], tryFrom);
      if tryFrom(q[0]).Ok? && rest.Err? {
        var k :| 0 <= k < |q[1..]| && tryFrom(q[1..][k]).Err?;
        assert tryFrom(q[k + 1]).Err?;
      } else if tryFrom(q[0]).Ok? {
        assert forall k :: 1 <= k < |q| ==> q[k] == q[1..][k - 1];
      }
    }
  }

  lemma {:induction false} ReadAllErr<T>(q: seq<map<string, Json>>, tryFrom: map<string, Json> -> Result<T, Failure>)
    ensures var r := ReadAll(q, tryFrom);
      r.Err? ==> exists k :: 0 <= k < |q| && tryFrom(q[k]) == Err(r.error)
                   && forall j :: 0 <= j < k ==> tryFrom(q[j]).Ok?
    decreases |q|
  {
    if q != [] {
      ReadAllErr(q[1..], tryFrom);
      var rest := ReadAll(q[1..], tryFrom);
      if tryFrom(q[0]).Ok? && rest.Err? {
        var k :| 0 <= k < |q[1..]| && tryFrom(q[1..][k]) == Err(rest.error)
          && forall j :: 0 <= j < k ==> tryFrom(q[1..][j]).Ok?;
        assert q[k + 1] == q[1..][k];
        forall j | 0 <= j < k + 1
          ensures tryFrom(q[j]).Ok?
        {
          if j > 0 { assert q[j] == q[1..][j - 1]; }
        }
      }
    }
  }

  /** A page whose third tab is not there, or whose grid is not an array, is a `ParseError` with the structure message. */
  lemma StructureError<T>(page: Json, tryFrom: map<string, Json> -> Result<T, Failure>)
    requires Contents(page).None?
    ensures ParseAll(page, tryFrom) == Err(ParseError(StructureMsg))
  {
  }

  /** With a `try_from` that never fails with the structure message, that message means exactly a wrong structure. */
  lemma StructureErrorOnly<T>(page: Json, tryFrom: map<string, Json> -> Result<T, Failure>)
    requires forall m :: tryFrom(m) != Err(ParseError(StructureMsg))
    ensures ParseAll(page, tryFrom) == Err(ParseError(StructureMsg)) <==> Contents(page).None?
  {
    match Contents(page)
    case None =>
    case Some(items) =>
      WalkSpec(items, tryFrom);
      var r := Walk(items, tryFrom);
      if r.Err? {
        var k :| 0 <= k < |Qualifying(items)| && tryFrom(Qualifying(items)[k]) == Err(r.error);
      }
  }

  /** `try_from` never fails with the structure message. */
  lemma VideoFieldsNotStructure(renderer: map<string, Json>)
    ensures VideoFields(renderer) != Err(ParseError(StructureMsg))
  {
    var r := VideoFields(renderer);
    if r.Err? && r.error.ParseError? {
      assert |StructureMsg| == 59;
      assert |TitleMsg| == 58 && |ViewCountMsg| == 66 && |StreamedDateMsg| == 67 && |DurationMsg| == 55;
    }
  }

  // ---------------------------------------------------------------------------------------------
  // Pages built from records

  /** The smallest renderer that carries `f`. */
  function RendererOf(f: Fields): map<string, Json> {
    map[
      "videoId" := Str(f.videoId),
      "title" := Single("runs", Array([Single("text", Str(f.title))])),
      "viewCountText" := Single("simpleText", Str(f.viewCount)),
      "publishedTimeText" := Single("simpleText", Str(f.streamedDate)),
      "lengthText" := Single("simpleText", Str(f.duration))
    ]
  }

  /** Reading a renderer gives back the record it was built from. */
  lemma ReadRenderer(f: Fields)
    ensures VideoFields(RendererOf(f)) == Ok(f)
  {
    var m := RendererOf(f);
    assert Get(At(Get(m["title"], "runs"), 0), "text") == Str(f.title);
  }

  /** A grid item holding a renderer. */
  function ItemOf(renderer: map<string, Json>): (r: Json)
    ensures Renderer(r) == Some(renderer)
  {
    PathNested(RendererPath, Object(renderer));
    Nest(RendererPath, Object(renderer))
  }

  /** A page whose third tab's grid holds `items`. */
  function PageOf(items: seq<Json>): (r: Json)
    ensures Contents(r) == Some(items)
  {
    var tab := Nest(GridPath, Array(items));
    PathNested(GridPath, Array(items));
    PathNested(TabsPath, Array([Null, Null, tab]));
    Nest(TabsPath, Array([Null, Null, tab]))
  }

  /** The items of a grid holding the given renderers, one per item. */
  function ItemsOf(renderers: seq<map<string, Json>>): (r: seq<Json>)
    ensures |r| == |renderers|
    ensures forall k :: 0 <= k < |r| ==> r[k] == ItemOf(renderers[k])
  {
    seq(|renderers|, k requires 0 <= k < |renderers| => ItemOf(renderers[k]))
  }

  /** The renderers of the records, in order. */
  function RenderersOf(fs: seq<Fields>): (r: seq<map<string, Json>>)
    ensures |r| == |fs|
    ensures forall k :: 0 <= k < |r| ==> r[k] == RendererOf(fs[k])
  {
    seq(|fs|, k requires 0 <= k < |fs| => RendererOf(fs[k]))
  }

  /** The video renderers of a grid built from renderers are those renderers. */
  lemma {:induction false} QualifyingOfItems(renderers: seq<map<string, Json>>)
    ensures Qualifying(ItemsOf(renderers)) == renderers
    decreases |renderers|
  {
    if renderers != [] {
      QualifyingOfItems(renderers[1..]);
      assert ItemsOf(renderers)[1..] == ItemsOf(renderers[1..]);
    }
  }

  /**
    Parsing a page built from renderers gives, in order, the records `xs` that `try_from`
    reads from them, when it reads each of them.
   */
  lemma ParseBuiltPage<T>(renderers: seq<map<string, Json>>, xs: seq<T>, tryFrom: map<string, Json> -> Result<T, Failure>)
    requires |renderers| == |xs|
    requires forall k :: 0 <= k < |renderers| ==> tryFrom(renderers[k]) == Ok(xs[k])
    ensures ParseAll(PageOf(ItemsOf(renderers)), tryFrom) == Ok(xs)
  {
    var items := ItemsOf(renderers);
    WalkSpec(items, tryFrom);
    QualifyingOfItems(renderers);
    var r := Walk(items, tryFrom);
    assert r.Ok?;
    assert r.value == xs;
  }

  /** Items without a video renderer change nothing: adding one anywhere gives the same outcome. */
  lemma {:induction false} SkipItem<T>(before: seq<Json>, item: Json, after: seq<Json>, tryFrom: map<string, Json> -> Result<T, Failure>)
    requires Renderer(item).None?
    ensures Walk(before + [item] + after, tryFrom) == Walk(before + after, tryFrom)
    decreases |before|
  {
    if before == [] {
      assert (before + [item] + after)[1..] == after;
      assert before + after == after;
    } else {
      SkipItem(before[1..], item, after, tryFrom);
      assert (before + [item] + after)[1..] == before[1..] + [item] + after;
      assert (before + after)[1..] == before[1..] + after;
    }
  }
}
