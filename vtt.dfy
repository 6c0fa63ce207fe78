/**
  Cue extraction from WebVTT text, a loose subset of the cue-block layout of
  section 4.1 ("WebVTT file structure") of the W3C WebVTT specification: a header
  line, then cues made of a `start --> end` timing line and payload lines up to a
  blank line. The bindings crate carries two copies of the same extraction loop;
  both are modelled here, each proved equal to one specification, so the two agree
  on every input.
 */
module Vtt {
  import opened Text

  datatype SubtitleEntry = SubtitleEntry(startTime: string, endTime: string, text: string)

  const Arrow := "-->"

  /** A timing line: it contains the arrow and splits on it into exactly two parts. */
  predicate IsTiming(line: string) {
    Contains(line, Arrow) && |Split(line, Arrow)| == 2
  }

  /**
    The payload after a timing line, read from line `i`: each line up to the first
    empty line, followed by a newline; and the index of the line after the empty
    line that ends it (the empty line is consumed), or the end of the lines.
   */
  function TextBlock(lines: seq<string>, i: nat): (r: (string, nat))
    requires i <= |lines|
    ensures i <= r.1 <= |lines|
    ensures r.1 == i <==> i == |lines|
    decreases |lines| - i
  {
    if i == |lines| then ("", i)
    else if lines[i] == "" then ("", i + 1)
    else
      var rest := TextBlock(lines, i + 1);
      (lines[i] + "\n" + rest.0, rest.1)
  }

  /**
    The entry of the timing line at index `j`: its two parts and its payload, each
    passed through `trim` (which is `Trim` in `ParseVtt`; the lemmas below hold for
    any trimming).
   */
  function CueAt(lines: seq<string>, j: nat, trim: string -> string): (e: SubtitleEntry)
    requires j < |lines| && IsTiming(lines[j])
  {
    var times := Split(lines[j], Arrow);
    SubtitleEntry(trim(times[0]), trim(times[1]), trim(TextBlock(lines, j + 1).0))
  }

  /** The entries read from line `i` on: a timing line opens a cue; any other line is passed over. */
  function Cues(lines: seq<string>, i: nat, trim: string -> string): seq<SubtitleEntry>
    requires i <= |lines|
    decreases |lines| - i
  {
    if i == |lines| then []
    else if IsTiming(lines[i]) then [CueAt(lines, i, trim)] + Cues(lines, TextBlock(lines, i + 1).1, trim)
    else Cues(lines, i + 1, trim)
  }

  /** The indexes of the timing lines that open the entries of `Cues(lines, i, trim)`. */
  function CueLines(lines: seq<string>, i: nat): (r: seq<nat>)
    requires i <= |lines|
    ensures forall k :: 0 <= k < |r| ==> i <= r[k] < |lines|
    decreases |lines| - i
  {
    if i == |lines| then []
    else if IsTiming(lines[i]) then [i] + CueLines(lines, TextBlock(lines, i + 1).1)
    else CueLines(lines, i + 1)
  }

  /** The entries of a WebVTT text: its lines, the first one skipped as the header. */
  function ParseVtt(content: string): seq<SubtitleEntry> {
    var lines := Lines(content);
    if lines == [] then [] else Cues(lines, 1, Trim)
  }

  /** The number of lines from `i` on that contain the arrow. */
  function ArrowCount(lines: seq<string>, i: nat): nat
    requires i <= |lines|
    decreases |lines| - i
  {
    if i == |lines| then 0
    else (if Contains(lines[i], Arrow) then 1 else 0) + ArrowCount(lines, i + 1)
  }

  /**
    The payload loop of `parse_vtt_content`: lines are drawn from index `from` until
    an empty line, which is consumed, or the end; each is appended with a newline.
   */
  method ReadPayload(lines: seq<string>, from: nat) returns (text: string, next: nat)
    requires from <= |lines|
    ensures (text, next) == TextBlock(lines, from)
  {
    text := "";
    next := from;
    while next < |lines|
      invariant from <= next <= |lines|
      invariant text + TextBlock(lines, next).0 == TextBlock(lines, from).0
      invariant TextBlock(lines, next).1 == TextBlock(lines, from).1
      decreases |lines| - next
    {
      var textLine := lines[next];
      next := next + 1;
      if textLine == "" {
        assert TextBlock(lines, next - 1) == ("", next);
        assert text + "" == text;
        break;
      }
      text := text + textLine + "\n";
    }
    assert text == TextBlock(lines, from).0 && next == TextBlock(lines, from).1;
  }

  /** `parse_vtt_content`: a loop over the lines after the header, reading a payload after each timing line. */
  method ParseVttContent(content: string) returns (entries: seq<SubtitleEntry>)
    ensures entries == ParseVtt(content)
  {
    entries := [];
    var lines := Lines(content);
    if lines == [] {
      return;
    }
    var i := 1;
    while i < |lines|
      invariant 1 <= i <= |lines|
      invariant entries + Cues(lines, i, Trim) == Cues(lines, 1, Trim)
      decreases |lines| - i
    {
      var line := lines[i];
      ghost var at := i;
      i := i + 1;
      if Contains(line, Arrow) {
        var times := Split(line, Arrow);
        if |times| == 2 {
          assert IsTiming(lines[at]);
          var startTime := Trim(times[0]);
          var endTime := Trim(times[1]);
          var text;
          text, i := ReadPayload(lines, i);
          CueStep(lines, at, Trim, entries, SubtitleEntry(startTime, endTime, Trim(text)));
          entries := entries + [SubtitleEntry(startTime, endTime, Trim(text))];
        }
      }
    }
  }

  /** One cue read at line `at`, appended to the entries so far. */
  lemma CueStep(lines: seq<string>, at: nat, trim: string -> string, entries: seq<SubtitleEntry>, e: SubtitleEntry)
    requires at < |lines| && IsTiming(lines[at]) && e == CueAt(lines, at, trim)
    ensures entries + Cues(lines, at, trim) == (entries + [e]) + Cues(lines, TextBlock(lines, at + 1).1, trim)
  {
  }

  /**
    The payload loop of `entries_from_vtt_str`, which draws on the line iterator by
    reference: `rest` is what the iterator has not yet yielded, the tail of `lines`.
   */
  method DrainPayload(ghost lines: seq<string>, ghost from: nat, rest: seq<string>)
    returns (text: string, left: seq<string>, ghost next: nat)
    requires from <= |lines| && rest == lines[from..]
    ensures (text, next) == TextBlock(lines, from) && left == lines[next..]
  {
    text := "";
    left := rest;
    next := from;
    while left != []
      invariant from <= next <= |lines| && left == lines[next..]
      invariant text + TextBlock(lines, next).0 == TextBlock(lines, from).0
      invariant TextBlock(lines, next).1 == TextBlock(lines, from).1
      decreases |left|
    {
      var textLine := left[0];
      left := left[1..];
      next := next + 1;
      if textLine == "" {
        assert TextBlock(lines, next - 1) == ("", next);
        assert text + "" == text;
        break;
      }
      text := text + textLine + "\n";
    }
    assert text == TextBlock(lines, from).0 && next == TextBlock(lines, from).1;
  }

  /** `SubtitleEntry::entries_from_vtt_str`: the same extraction, over the iterator's remaining lines. */
  method EntriesFromVttStr(content: string) returns (entries: seq<SubtitleEntry>)
    ensures entries == ParseVtt(content)
  {
    entries := [];
    var lines := Lines(content);
    if lines == [] {
      return;
    }
    var rest := lines[1..];
    ghost var pos := 1;
    while rest != []
      invariant 1 <= pos <= |lines| && rest == lines[pos..]
      invariant entries + Cues(lines, pos, Trim) == Cues(lines, 1, Trim)
      decreases |rest|
    {
      var line := rest[0];
      ghost var at := pos;
      rest := rest[1..];
      pos := pos + 1;
      if Contains(line, Arrow) {
        var times := Split(line, Arrow);
        if |times| == 2 {
          assert IsTiming(lines[at]);
          var startTime := Trim(times[0]);
          var endTime := Trim(times[1]);
          var text;
          text, rest, pos := DrainPayload(lines, pos, rest);
          CueStep(lines, at, Trim, entries, SubtitleEntry(startTime, endTime, Trim(text)));
          entries := entries + [SubtitleEntry(startTime, endTime, Trim(text))];
        }
      }
    }
  }

  /** Nothing after the first `i` lines of a and b differs: then neither do their cues from `i`. */
  lemma {:induction false} TextBlockFrom(a: seq<string>, b: seq<string>, i: nat)
    requires i <= |a| == |b|
    requires forall k :: i <= k < |a| ==> a[k] == b[k]
    ensures TextBlock(a, i) == TextBlock(b, i)
    decreases |a| - i
  {
    if i < |a| && a[i] != "" {
      TextBlockFrom(a, b, i + 1);
    }
  }

  lemma {:induction false} CuesFrom(a: seq<string>, b: seq<string>, i: nat, trim: string -> string)
    requires i <= |a| == |b|
    requires forall k :: i <= k < |a| ==> a[k] == b[k]
    ensures Cues(a, i, trim) == Cues(b, i, trim)
    decreases |a| - i
  {
    if i < |a| {
      if IsTiming(a[i]) {
        TextBlockFrom(a, b, i + 1);
        CuesFrom(a, b, TextBlock(a, i + 1).1, trim);
      } else {
        CuesFrom(a, b, i + 1, trim);
      }
    }
  }

  /**
    The first line is the header whatever it holds, even a timing line: a text gives
    the entries it would give under the standard `WEBVTT` header.
   */
  lemma HeaderSkipped(header: string, rest: string)
    requires '\n' !in header
    ensures ParseVtt(header + "\n" + rest) == ParseVtt("WEBVTT\n" + rest)
  {
    var a, b := Lines(header + "\n" + rest), Lines("WEBVTT" + "\n" + rest);
    LinesCons(header, rest);
    LinesCons("WEBVTT", rest);
    assert "WEBVTT\n" + rest == "WEBVTT" + "\n" + rest;
    forall k | 1 <= k < |a|
      ensures a[k] == b[k]
    {
      assert a[k] == a[1..][k - 1];
      assert b[k] == b[1..][k - 1];
    }
    CuesFrom(a, b, 1, Trim);
  }

  lemma {:induction false} ArrowCountMonotone(lines: seq<string>, i: nat, j: nat)
    requires i <= j <= |lines|
    ensures ArrowCount(lines, j) <= ArrowCount(lines, i)
    decreases j - i
  {
    if i < j {
      ArrowCountMonotone(lines, i + 1, j);
    }
  }

  /** There are no more entries than lines containing the arrow. */
  lemma {:induction false} CuesAtMostArrows(lines: seq<string>, i: nat, trim: string -> string)
    requires i <= |lines|
    ensures |Cues(lines, i, trim)| <= ArrowCount(lines, i)
    decreases |lines| - i
  {
    if i < |lines| {
      if IsTiming(lines[i]) {
        var next := TextBlock(lines, i + 1).1;
        CuesAtMostArrows(lines, next, trim);
        ArrowCountMonotone(lines, i + 1, next);
      } else {
        CuesAtMostArrows(lines, i + 1, trim);
      }
    }
  }

  /** A text's entries are at most its non-header lines that contain the arrow. */
  lemma EntryCountBound(content: string)
    ensures Lines(content) != [] ==> |ParseVtt(content)| <= ArrowCount(Lines(content), 1)
    ensures Lines(content) == [] ==> ParseVtt(content) == []
  {
    if Lines(content) != [] {
      CuesAtMostArrows(Lines(content), 1, Trim);
    }
  }

  /** Each entry is the cue of its own timing line, in the order of those lines. */
  lemma {:induction false} CuesFromTimingLines(lines: seq<string>, i: nat, trim: string -> string)
    requires i <= |lines|
    ensures var idx, cs := CueLines(lines, i), Cues(lines, i, trim);
      && |idx| == |cs|
      && (forall k :: 0 <= k < |idx| ==> IsTiming(lines[idx[k]]) && cs[k] == CueAt(lines, idx[k], trim))
    decreases |lines| - i
  {
    if i < |lines| {
      var idx, cs := CueLines(lines, i), Cues(lines, i, trim);
      if IsTiming(lines[i]) {
        var next := TextBlock(lines, i + 1).1;
        CuesFromTimingLines(lines, next, trim);
        var tail, rest := CueLines(lines, next), Cues(lines, next, trim);
        assert idx == [i] + tail;
        assert cs == [CueAt(lines, i, trim)] + rest;
        forall k | 1 <= k < |idx|
          ensures IsTiming(lines[idx[k]]) && cs[k] == CueAt(lines, idx[k], trim)
        {
          assert idx[k] == tail[k - 1];
          assert cs[k] == rest[k - 1];
        }
      } else {
        CuesFromTimingLines(lines, i + 1, trim);
      }
    }
  }

  /** A line from `from` up to `to` is not a timing line. */
  predicate NoTiming(lines: seq<string>, from: nat, to: nat)
    requires to <= |lines|
  {
    forall j :: from <= j < to ==> !IsTiming(lines[j])
  }

  /** The line after the payload of the cue whose timing line is at `at`. */
  function After(lines: seq<string>, at: nat): nat
    requires at < |lines|
  {
    TextBlock(lines, at + 1).1
  }

  /** Before the first cue, every line passed over is not a timing line; with no cue, none is. */
  lemma {:induction false} FirstCue(lines: seq<string>, i: nat)
    requires i <= |lines|
    ensures var idx := CueLines(lines, i);
      && (idx == [] ==> NoTiming(lines, i, |lines|))
      && (idx != [] ==> NoTiming(lines, i, idx[0]) && IsTiming(lines[idx[0]]))
    decreases |lines| - i
  {
    if i < |lines| && !IsTiming(lines[i]) {
      FirstCue(lines, i + 1);
    }
  }

  /**
    The next timing line considered lies after the previous cue's payload, so no
    payload line is read again and cues come in order of appearance; the lines passed
    over between two cues are not timing lines.
   */
  lemma {:induction false} CueGaps(lines: seq<string>, i: nat)
    requires i <= |lines|
    ensures var idx := CueLines(lines, i);
      forall k :: 0 <= k < |idx| - 1 ==>
        After(lines, idx[k]) <= idx[k + 1] && NoTiming(lines, After(lines, idx[k]), idx[k + 1])
    decreases |lines| - i
  {
    if i < |lines| {
      var idx := CueLines(lines, i);
      if IsTiming(lines[i]) {
        var next := After(lines, i);
        CueGaps(lines, next);
        FirstCue(lines, next);
        var tail := CueLines(lines, next);
        assert idx == [i] + tail;
        forall k | 0 <= k < |idx| - 1
          ensures After(lines, idx[k]) <= idx[k + 1] && NoTiming(lines, After(lines, idx[k]), idx[k + 1])
        {
          assert idx[k + 1] == tail[k];
          if k > 0 {
            assert idx[k] == tail[k - 1];
          }
        }
      } else {
        CueGaps(lines, i + 1);
        assert idx == CueLines(lines, i + 1);
      }
    }
  }

  /** The lines after the last cue's payload are not timing lines. */
  lemma {:induction false} LastCue(lines: seq<string>, i: nat)
    requires i <= |lines|
    ensures var idx := CueLines(lines, i);
      idx != [] ==> NoTiming(lines, After(lines, idx[|idx| - 1]), |lines|)
    decreases |lines| - i
  {
    if i < |lines| {
      var idx := CueLines(lines, i);
      if IsTiming(lines[i]) {
        var next := After(lines, i);
        LastCue(lines, next);
        FirstCue(lines, next);
        var tail := CueLines(lines, next);
        assert idx == [i] + tail;
      } else {
        LastCue(lines, i + 1);
      }
    }
  }

  /** A line with the arrow once, and no '-' elsewhere, is a timing line split around the arrow. */
  lemma SplitAround(left: string, right: string)
    requires '-' !in left && '-' !in right
    ensures IsTiming(left + Arrow + right) && Split(left + Arrow + right, Arrow) == [left, right]
  {
    var line := left + Arrow + right;
    FindAfterFree(left, Arrow, right);
    assert line[..|left|] == left;
    assert line[|left| + |Arrow|..] == right;
    AbsentFirstChar(right, Arrow);
    SplitWithout(right, Arrow);
  }

  /** `start --> end`, with one space around the arrow, is a timing line whose parts trim to `start` and `end`. */
  lemma TimingParts(start: string, end: string)
    requires '-' !in start && '-' !in end
    requires start != [] && !IsWhitespace(start[0]) && !IsWhitespace(start[|start| - 1])
    requires end != [] && !IsWhitespace(end[0]) && !IsWhitespace(end[|end| - 1])
    ensures var line := (start + " ") + Arrow + (" " + end);
      IsTiming(line) && Trim(Split(line, Arrow)[0]) == start && Trim(Split(line, Arrow)[1]) == end
  {
    SplitAround(start + " ", " " + end);
    TrimAround("", start, " ");
    assert "" + start + " " == start + " ";
    TrimAround(" ", end, "");
    assert " " + end + "" == " " + end;
  }

  /** The sample's timing line splits into its two times. */
  lemma SampleTiming(line: string)
    requires line == "00:00:01.000 --> 00:00:04.000"
    ensures IsTiming(line)
    ensures Trim(Split(line, Arrow)[0]) == "00:00:01.000" && Trim(Split(line, Arrow)[1]) == "00:00:04.000"
  {
    assert line == ("00:00:01.000" + " ") + Arrow + (" " + "00:00:04.000");
    TimingParts("00:00:01.000", "00:00:04.000");
  }

  /** A header, an empty line, a timing line and one payload line closed by an empty line make one cue. */
  lemma OneCue(lines: seq<string>, trim: string -> string, e: SubtitleEntry)
    requires |lines| == 5 && lines[1] == "" && IsTiming(lines[2]) && lines[3] != "" && lines[4] == ""
    requires var times := Split(lines[2], Arrow);
      e == SubtitleEntry(trim(times[0]), trim(times[1]), trim(lines[3] + "\n"))
    ensures Cues(lines, 1, trim) == [e]
  {
    AbsentFirstChar(lines[1], Arrow);
    assert TextBlock(lines, 4) == ("", 5);
    assert lines[3] + "\n" + "" == lines[3] + "\n";
    assert TextBlock(lines, 3) == (lines[3] + "\n", 5);
    assert Cues(lines, 1, trim) == Cues(lines, 2, trim) == [CueAt(lines, 2, trim)] + Cues(lines, 5, trim);
  }

  /** The sample's payload line, with its newline, trims back to itself. */
  lemma SamplePayload(text: string)
    requires text == "Hello, world!"
    ensures Trim(text + "\n") == text
  {
    TrimAround("", text, "\n");
    assert "" + text + "\n" == text + "\n";
  }

  /** The lines of the sample text. */
  lemma SampleLines(content: string)
    requires content == Unlines(["WEBVTT", "", "00:00:01.000 --> 00:00:04.000", "Hello, world!", ""])
    ensures Lines(content) == ["WEBVTT", "", "00:00:01.000 --> 00:00:04.000", "Hello, world!", ""]
  {
    LinesUnlines(["WEBVTT", "", "00:00:01.000 --> 00:00:04.000", "Hello, world!", ""]);
  }

  /** The cues of the sample's lines. */
  lemma SampleCues(lines: seq<string>)
    requires lines == ["WEBVTT", "", "00:00:01.000 --> 00:00:04.000", "Hello, world!", ""]
    ensures Cues(lines, 1, Trim) == [SubtitleEntry("00:00:01.000", "00:00:04.000", "Hello, world!")]
  {
    SampleTiming(lines[2]);
    SamplePayload(lines[3]);
    OneCue(lines, Trim, SubtitleEntry("00:00:01.000", "00:00:04.000", "Hello, world!"));
  }

  /**
    The sample text of the bindings' tests, `WEBVTT`, an empty line, one timing line,
    one payload line and an empty line, each ended by a newline, gives the one entry
    the tests expect.
   */
  lemma SampleEntry(content: string)
    requires content == Unlines(["WEBVTT", "", "00:00:01.000 --> 00:00:04.000", "Hello, world!", ""])
    ensures ParseVtt(content) == [SubtitleEntry("00:00:01.000", "00:00:04.000", "Hello, world!")]
  {
    SampleLines(content);
    SampleCues(Lines(content));
  }
}
