/**
  The three documents `process_audiofile` writes from the ordered segment
  list the speech model returns: the timecoded transcript, the raw
  transcript and the SubRip (SRT) subtitle file. Each is built here as a
  string instead of being written to a file.
*/
module Transcript {
  import opened Wrappers
  import opened Text
  import opened Timecode
  import opened Lines

  /** One recognised speech span, as in `result['segments']`; the text is
      kept exactly as the model emits it. */
  datatype Segment = Segment(start: Time, end: Time, text: string)

  /** No segment text holds a line break. */
  predicate SingleLineTexts(segs: seq<Segment>)
  {
    forall k :: 0 <= k < |segs| ==> '\n' !in segs[k].text
  }

  // ---------------------------------------------------------------------------
  // Timecoded transcript
  // ---------------------------------------------------------------------------

  /** `f'{timecode} {text}'` without its line break; the text is not
      stripped. */
  function TimecodeLine(seg: Segment): string
  {
    BracketTimecode(seg.start.secs) + " " + seg.text
  }

  /** The lines of the timecoded transcript, one per segment, in segment
      order. */
  function TimecodeLines(segs: seq<Segment>): seq<string>
  {
    seq(|segs|, k requires 0 <= k < |segs| => TimecodeLine(segs[k]))
  }

  /** The timecoded transcript: each segment's line followed by `"\n"`. */
  function TimecodeDocument(segs: seq<Segment>): string
  {
    Unlines(TimecodeLines(segs))
  }

  lemma TimecodeLinesAppend(a: seq<Segment>, b: seq<Segment>)
    ensures TimecodeLines(a + b) == TimecodeLines(a) + TimecodeLines(b)
  {
    var l, r := TimecodeLines(a + b), TimecodeLines(a) + TimecodeLines(b);
    forall k | 0 <= k < |l| ensures l[k] == r[k] {
      if k < |a| {
        assert (a + b)[k] == a[k];
      } else {
        assert (a + b)[k] == b[k - |a|];
      }
    }
  }

  /** The `for segment in result['segments']` loop that writes the timecoded
      file, one `write` per segment. */
  method WriteTimecodeFile(segs: seq<Segment>) returns (doc: string)
    ensures doc == TimecodeDocument(segs)
  {
    doc := "";
    for i := 0 to |segs|
      invariant doc == TimecodeDocument(segs[..i])
    {
      var segment := segs[i];
      var timecode := BracketTimecode(segment.start.secs);
      TakeSnoc(segs, i);
      TimecodeLinesAppend(segs[..i], [segment]);
      assert TimecodeLines([segment]) == [TimecodeLine(segment)];
      UnlinesSnoc(TimecodeLines(segs[..i]), TimecodeLine(segment));
      doc := doc + (timecode + " " + segment.text + "\n");
    }
    assert segs[..|segs|] == segs;
  }

  /** With single-line texts the file is exactly one `"\n"`-terminated line
      per segment, in segment order. */
  lemma TimecodeDocumentLines(segs: seq<Segment>)
    requires SingleLineTexts(segs)
    ensures Split(TimecodeDocument(segs), '\n') == TimecodeLines(segs) + [""]
  {
    var lines := TimecodeLines(segs);
    forall k | 0 <= k < |lines| ensures '\n' !in lines[k] {
      NoNewline(segs[k].start);
      assert lines[k] == BracketTimecode(segs[k].start.secs) + " " + segs[k].text;
    }
    UnlinesSplit(lines);
  }

  /** Each line starts with a bracket timecode that reads back as the whole
      seconds of the segment's start, then one space, then the unstripped
      text. */
  lemma TimecodeLineReadsBack(seg: Segment)
    ensures var line, n := TimecodeLine(seg), |BracketTimecode(seg.start.secs)|;
      && n < |line|
      && ParseBracket(line[..n]) == Some(seg.start.secs)
      && line[n] == ' '
      && line[n + 1..] == seg.text
  {
    var line, b := TimecodeLine(seg), BracketTimecode(seg.start.secs);
    assert line[..|b|] == b;
    BracketTimecodeRoundTrip(seg.start.secs);
  }

  /** Rendering a longer list appends to the rendering of its prefix. */
  lemma TimecodeDocumentAppend(a: seq<Segment>, b: seq<Segment>)
    ensures TimecodeDocument(a + b) == TimecodeDocument(a) + TimecodeDocument(b)
  {
    TimecodeLinesAppend(a, b);
    UnlinesAppend(TimecodeLines(a), TimecodeLines(b));
  }

  // ---------------------------------------------------------------------------
  // Raw transcript
  // ---------------------------------------------------------------------------

  function StrippedTexts(segs: seq<Segment>): seq<string>
  {
    seq(|segs|, k requires 0 <= k < |segs| => Strip(segs[k].text))
  }

  /** `' '.join(text.strip() for each segment)` followed by
      `re.sub(" +", " ", ...)`: never two spaces in a row, and empty when
      there are no segments. */
  function RawText(segs: seq<Segment>): (r: string)
    ensures NoDoubleSpace(r)
    ensures |segs| == 0 ==> r == ""
  {
    CollapseSpaces(Join(StrippedTexts(segs), " "))
  }

  /** Collapsing the raw transcript again changes nothing. */
  lemma RawTextStable(segs: seq<Segment>)
    ensures CollapseSpaces(RawText(segs)) == RawText(segs)
  {
    CollapseFixpoint(RawText(segs));
  }

  /** The non-space characters of all texts, in segment order. */
  function NonSpaceText(parts: seq<string>): string
  {
    if |parts| == 0 then "" else DropSpaces(parts[0]) + NonSpaceText(parts[1..])
  }

  lemma {:induction false} DropSpacesJoin(parts: seq<string>)
    ensures DropSpaces(Join(parts, " ")) == NonSpaceText(parts)
  {
    if |parts| > 0 {
      var rest := parts[1..];
      assert parts == [parts[0]] + rest;
      JoinCons(parts[0], rest, " ");
      DropSpacesJoin(rest);
      if |rest| > 0 {
        DropSpacesAppend(parts[0], " " + Join(rest, " "));
        DropSpacesAppend(" ", Join(rest, " "));
        assert parts[0] + " " + Join(rest, " ") == parts[0] + (" " + Join(rest, " "));
      } else {
        assert NonSpaceText(rest) == "";
      }
    }
  }

  /** Besides spaces, the raw transcript holds exactly the characters of the
      stripped texts, in segment order. */
  lemma RawTextKeepsWords(segs: seq<Segment>)
    ensures DropSpaces(RawText(segs)) == NonSpaceText(StrippedTexts(segs))
  {
    CollapseKeepsText(Join(StrippedTexts(segs), " "));
    DropSpacesJoin(StrippedTexts(segs));
  }

  /** A text that is non-empty, starts and ends with a non-space and holds no
      double space. */
  predicate CleanWord(s: string)
  {
    |s| > 0 && s[0] != ' ' && s[|s| - 1] != ' ' && NoDoubleSpace(s)
  }

  /** Clean words joined by single spaces make a clean text. */
  lemma {:induction false} JoinCleanWords(parts: seq<string>)
    requires forall k :: 0 <= k < |parts| ==> CleanWord(parts[k])
    ensures NoDoubleSpace(Join(parts, " "))
    ensures |parts| > 0 ==> CleanWord(Join(parts, " "))
  {
    if |parts| == 1 {
      assert CleanWord(parts[0]);
    } else if |parts| > 1 {
      var rest := parts[1..];
      assert parts == [parts[0]] + rest;
      JoinCons(parts[0], rest, " ");
      JoinCleanWords(rest);
      var w, tail := parts[0], Join(rest, " ");
      var j := w + " " + tail;
      assert CleanWord(w) && CleanWord(tail);
      forall k | 0 <= k < |j| - 1
        ensures !(j[k] == ' ' && j[k + 1] == ' ')
      {
        if k < |w| - 1 {
          assert j[k] == w[k] && j[k + 1] == w[k + 1];
        } else if k == |w| - 1 {
          assert j[k] == w[|w| - 1];
        } else if k == |w| {
          assert j[k + 1] == tail[0];
        } else {
          assert j[k] == tail[k - |w| - 1] && j[k + 1] == tail[k - |w|];
        }
      }
      assert j[0] == w[0] && j[|j| - 1] == tail[|tail| - 1];
    }
  }

  /** When every stripped text is non-empty and has no double space, the
      collapse changes nothing: the raw transcript is the stripped texts
      joined by single spaces. */
  lemma RawTextOfCleanTexts(segs: seq<Segment>)
    requires forall k :: 0 <= k < |segs| ==> |Strip(segs[k].text)| > 0 && NoDoubleSpace(Strip(segs[k].text))
    ensures RawText(segs) == Join(StrippedTexts(segs), " ")
  {
    var parts := StrippedTexts(segs);
    forall k | 0 <= k < |parts| ensures CleanWord(parts[k]) {
      assert parts[k] == Strip(segs[k].text);
    }
    JoinCleanWords(parts);
    CollapseFixpoint(Join(parts, " "));
  }

  // ---------------------------------------------------------------------------
  // SRT
  // ---------------------------------------------------------------------------

  /** `{start_time} --> {end_time}` */
  function CueTiming(seg: Segment): string
  {
    FormatTime(seg.start) + " --> " + FormatTime(seg.end)
  }

  /** The four lines of cue `index`: the 1-based index, the timing, the
      unstripped text and a blank line. */
  function CueLines(index: nat, seg: Segment): seq<string>
  {
    [Decimal(index), CueTiming(seg), seg.text, ""]
  }

  /** The cues of `segs` numbered from `first`, in segment order. */
  function Cues(segs: seq<Segment>, first: nat): seq<seq<string>>
  {
    NumberedBlocks(segs, first, CueLines)
  }

  /** The lines of the cues numbered from `first`, cue after cue. */
  function SrtLines(segs: seq<Segment>, first: nat): seq<string>
  {
    Flatten(Cues(segs, first))
  }

  /** The SRT file: every cue line followed by `"\n"`, cues numbered from 1. */
  function SrtDocument(segs: seq<Segment>): string
  {
    Unlines(SrtLines(segs, 1))
  }

  /** Numbering continues across a split of the segment list. */
  lemma SrtLinesAppend(a: seq<Segment>, b: seq<Segment>, first: nat)
    ensures SrtLines(a + b, first) == SrtLines(a, first) + SrtLines(b, first + |a|)
  {
    NumberedBlocksAppend(a, b, first, CueLines);
    FlattenAppend(Cues(a, first), Cues(b, first + |a|));
  }

  /** Appending a segment appends its block
      `f"{idx + 1}\n{start_time} --> {end_time}\n{text}\n\n"`, numbered one
      past the segments before it. */
  lemma SrtDocumentSnoc(segs: seq<Segment>, seg: Segment)
    ensures SrtDocument(segs + [seg])
         == SrtDocument(segs) + (Decimal(|segs| + 1) + "\n" + CueTiming(seg) + "\n" + seg.text + "\n\n")
  {
    SrtLinesAppend(segs, [seg], 1);
    assert SrtLines([seg], |segs| + 1) == CueLines(|segs| + 1, seg) by {
      assert Cues([seg], |segs| + 1) == [CueLines(|segs| + 1, seg)];
      assert Flatten([CueLines(|segs| + 1, seg)]) == CueLines(|segs| + 1, seg) + Flatten([]);
    }
    UnlinesAppend(SrtLines(segs, 1), CueLines(|segs| + 1, seg));
    UnlinesBlankEnded(Decimal(|segs| + 1), CueTiming(seg), seg.text);
  }

  /** The `for idx, segment in enumerate(...)` loop that writes the SRT file,
      one block per segment. */
  method WriteSrtFile(segs: seq<Segment>) returns (doc: string)
    ensures doc == SrtDocument(segs)
  {
    doc := "";
    for idx := 0 to |segs|
      invariant doc == SrtDocument(segs[..idx])
    {
      TakeSnoc(segs, idx);
      var segment := segs[idx];
      var startTime := FormatTime(segment.start);
      var endTime := FormatTime(segment.end);
      SrtDocumentSnoc(segs[..idx], segment);
      doc := doc + (Decimal(idx + 1) + "\n" + (startTime + " --> " + endTime) + "\n" + segment.text + "\n\n");
    }
    assert segs[..|segs|] == segs;
  }

  /** A cue of a single-line text holds no line break in any of its lines. */
  lemma CueLinesSingleLine(index: nat, seg: Segment)
    requires '\n' !in seg.text
    ensures forall j :: 0 <= j < |CueLines(index, seg)| ==> '\n' !in CueLines(index, seg)[j]
  {
    DigitsAvoid(Decimal(index), '\n');
    NoNewline(seg.start);
    NoNewline(seg.end);
    assert '\n' !in CueTiming(seg);
  }

  /** With single-line texts the SRT file is exactly its cue lines, each
      ended by `"\n"`. */
  lemma SrtDocumentLines(segs: seq<Segment>)
    requires SingleLineTexts(segs)
    ensures Split(SrtDocument(segs), '\n') == SrtLines(segs, 1) + [""]
  {
    var cues := Cues(segs, 1);
    forall k | 0 <= k < |cues|
      ensures forall j :: 0 <= j < |cues[k]| ==> '\n' !in cues[k][j]
    {
      CueLinesSingleLine(1 + k, segs[k]);
    }
    FlattenAvoids(cues, '\n');
    UnlinesSplit(Flatten(cues));
  }

  /** Cue `i` of the lines numbered from `first` occupies lines `4 * i` to
      `4 * i + 3`. */
  lemma SrtLinesAt(segs: seq<Segment>, first: nat, i: nat)
    requires i < |segs|
    ensures |SrtLines(segs, first)| == 4 * |segs|
    ensures SrtLines(segs, first)[4 * i .. 4 * i + 4] == CueLines(first + i, segs[i])
  {
    assert Cues(segs, first)[i] == CueLines(first + i, segs[i]);
    CuesFourLines(segs, first);
    FlattenBlock(Cues(segs, first), i);
  }

  lemma CuesFourLines(segs: seq<Segment>, first: nat)
    ensures FourLineBlocks(Cues(segs, first))
  {
  }

  /** Lines `4 * i` to `4 * i + 3` of the SRT file are cue `i`, whose first
      line reads back as the index `i + 1`. */
  lemma SrtDocumentCue(segs: seq<Segment>, i: nat)
    requires SingleLineTexts(segs)
    requires i < |segs|
    ensures var f := Split(SrtDocument(segs), '\n');
      && 4 * i + 4 <= |f|
      && f[4 * i .. 4 * i + 4] == CueLines(i + 1, segs[i])
      && AllDigits(f[4 * i]) && ParseDigits(f[4 * i]) == i + 1
  {
    var f := Split(SrtDocument(segs), '\n');
    SrtDocumentLines(segs);
    SrtLinesAt(segs, 1, i);
    assert f[4 * i .. 4 * i + 4] == SrtLines(segs, 1)[4 * i .. 4 * i + 4];
    assert f[4 * i] == CueLines(i + 1, segs[i])[0];
    DecimalRoundTrip(i + 1);
  }

  /** With single-line texts the SRT file reads as one four-line cue per
      segment and nothing else: lines `4 * i` to `4 * i + 3` are cue `i`
      (the index `i + 1`, the segment's timing, its unstripped text and a
      blank line), and the file ends with a line break. */
  lemma SrtDocumentCues(segs: seq<Segment>)
    requires SingleLineTexts(segs)
    ensures var f := Split(SrtDocument(segs), '\n');
      && |f| == 4 * |segs| + 1
      && Last(f) == ""
      && forall i :: 0 <= i < |segs| ==>
           && f[4 * i .. 4 * i + 4] == CueLines(i + 1, segs[i])
           && AllDigits(f[4 * i]) && ParseDigits(f[4 * i]) == i + 1
  {
    SrtDocumentLines(segs);
    CuesFourLines(segs, 1);
    FlattenLength(Cues(segs, 1));
    forall i | 0 <= i < |segs|
      ensures var f := Split(SrtDocument(segs), '\n');
        && f[4 * i .. 4 * i + 4] == CueLines(i + 1, segs[i])
        && AllDigits(f[4 * i]) && ParseDigits(f[4 * i]) == i + 1
    {
      SrtDocumentCue(segs, i);
    }
  }

  /** `a --> b` splits at its spaces into `a`, the arrow and `b` when
      neither side holds a space. */
  lemma SplitArrow(a: string, b: string)
    requires ' ' !in a && ' ' !in b
    ensures Split(a + " --> " + b, ' ') == [a, "-->", b]
  {
    assert a + " --> " + b == a + [' '] + ("-->" + [' '] + b);
    SplitAround(a, ' ', "-->" + [' '] + b);
    SplitAround("-->", ' ', b);
    SplitNone(b, ' ');
  }

  /** The timing line reads back as the segment's start and end: three
      space-separated fields, the outer two parsing to the start and end
      times exactly. */
  lemma CueTimingReadsBack(seg: Segment)
    ensures var f := Split(CueTiming(seg), ' ');
      && |f| == 3 && f[1] == "-->"
      && ParseSrtTime(f[0]) == Some(seg.start)
      && ParseSrtTime(f[2]) == Some(seg.end)
  {
    var a, b := FormatTime(seg.start), FormatTime(seg.end);
    FormatTimeChars(seg.start);
    FormatTimeChars(seg.end);
    assert ' ' !in a && ' ' !in b;
    SplitArrow(a, b);
    FormatTimeRoundTrip(seg.start);
    FormatTimeRoundTrip(seg.end);
  }
}
