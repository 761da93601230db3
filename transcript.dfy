/** The WebVTT transcript writer of the audio toolkit (generate_webvtt).
    Formatting a time as HH:MM:SS.mmm works on floats and is a parameter here. */
module Transcript {
  import opened Strings

  /** A segment with its timing; the speaker PAUSE marks a silence. */
  datatype TimedSegment = TimedSegment(speaker: string, text: string, start: real, end: real)

  const Pause: string := "PAUSE"

  function ToUpper(c: char): char {
    if 'a' <= c <= 'z' then ((c as int) - 32) as char else c
  }

  function ToLower(c: char): char {
    if 'A' <= c <= 'Z' then ((c as int) + 32) as char else c
  }

  function LowerAll(s: string): (r: string)
    ensures |r| == |s| && forall i :: 0 <= i < |s| ==> r[i] == ToLower(s[i])
  {
    if s == [] then [] else [ToLower(s[0])] + LowerAll(s[1..])
  }

  /** Python's str.capitalize on ASCII letters: the first character upper-case,
      every other one lower-case. */
  function Capitalize(s: string): (r: string)
    ensures |r| == |s|
    ensures s != [] ==> r[0] == ToUpper(s[0])
    ensures forall i :: 1 <= i < |s| ==> r[i] == ToLower(s[i])
  {
    if s == [] then [] else [ToUpper(s[0])] + LowerAll(s[1..])
  }

  /** The segments that produce a cue, in their original order. */
  function Spoken(segments: seq<TimedSegment>): (r: seq<TimedSegment>)
    ensures |r| <= |segments|
    ensures forall k :: 0 <= k < |r| ==> r[k].speaker != Pause
  {
    if segments == [] then []
    else
      var init := Spoken(segments[..|segments| - 1]);
      var last := segments[|segments| - 1];
      if last.speaker == Pause then init else init + [last]
  }

  /** The four lines of cue number `cue`: its number, its time range, the
      speaker's voice tag with the text, and a blank line. */
  function CueLines(cue: nat, seg: TimedSegment, timestamp: real -> string): seq<string> {
    [ NatToDecimal(cue),
      timestamp(seg.start) + " --> " + timestamp(seg.end),
      "<v " + Capitalize(seg.speaker) + ">" + seg.text,
      "" ]
  }

  /** Consecutive four-line blocks, one per item, numbered from `first`. */
  function Blocks<T>(items: seq<T>, block: (nat, T) -> seq<string>, first: nat): seq<string> {
    if items == [] then []
    else Blocks(items[..|items| - 1], block, first) + block(first + |items| - 1, items[|items| - 1])
  }

  /** The cue of a spoken segment, as a block. */
  function CueBlock(timestamp: real -> string): (nat, TimedSegment) -> seq<string> {
    (cue: nat, seg: TimedSegment) => CueLines(cue, seg, timestamp)
  }

  /** The cues for the given spoken segments, numbered consecutively from `first`. */
  function Cues(spoken: seq<TimedSegment>, timestamp: real -> string, first: nat): seq<string> {
    Blocks(spoken, CueBlock(timestamp), first)
  }

  /** The lines of the transcript, before they are joined with newlines. */
  function WebVttLines(segments: seq<TimedSegment>, timestamp: real -> string): seq<string> {
    ["WEBVTT", ""] + Cues(Spoken(segments), timestamp, 1)
  }

  lemma {:induction false} BlocksLength<T>(items: seq<T>, block: (nat, T) -> seq<string>, first: nat)
    requires forall n, x :: |block(n, x)| == 4
    ensures |Blocks(items, block, first)| == 4 * |items|
  {
    if items != [] {
      BlocksLength(items[..|items| - 1], block, first);
    }
  }

  /** Item k's block occupies lines 4k to 4k+3, numbered first + k. */
  lemma {:induction false} BlockAt<T>(items: seq<T>, block: (nat, T) -> seq<string>, first: nat, k: nat)
    requires forall n, x :: |block(n, x)| == 4
    requires k < |items|
    ensures |Blocks(items, block, first)| == 4 * |items|
    ensures Blocks(items, block, first)[4 * k..4 * k + 4] == block(first + k, items[k])
  {
    var init := items[..|items| - 1];
    var bi := Blocks(init, block, first);
    var last := block(first + |items| - 1, items[|items| - 1]);
    BlocksLength(items, block, first);
    BlocksLength(init, block, first);
    if k == |items| - 1 {
      SliceAfterPrefix(bi, last, 0, 4);
      assert last[0..4] == last;
    } else {
      assert init[k] == items[k];
      BlockAt(init, block, first, k);
      SliceBeforeSuffix(bi, last, 4 * k, 4 * k + 4);
    }
  }

  lemma CueBlockLength(timestamp: real -> string)
    ensures forall n, x :: |CueBlock(timestamp)(n, x)| == 4
  {
  }

  /** The k-th spoken segment occupies lines 4k to 4k+3 of the cues, as cue number first + k. */
  lemma CueAt(spoken: seq<TimedSegment>, timestamp: real -> string, first: nat, k: nat)
    requires k < |spoken|
    ensures |Cues(spoken, timestamp, first)| == 4 * |spoken|
    ensures Cues(spoken, timestamp, first)[4 * k..4 * k + 4] == CueLines(first + k, spoken[k], timestamp)
  {
    CueBlockLength(timestamp);
    BlockAt(spoken, CueBlock(timestamp), first, k);
  }

  /** The transcript's layout: a header line and a blank line, then four lines
      per spoken segment, numbered 1, 2, ... in input order. */
  lemma WebVttShape(segments: seq<TimedSegment>, timestamp: real -> string)
    ensures var lines := WebVttLines(segments, timestamp);
            var spoken := Spoken(segments);
            && |lines| == 2 + 4 * |spoken|
            && lines[0] == "WEBVTT" && lines[1] == ""
            && forall k :: 0 <= k < |spoken| ==>
                 lines[2 + 4 * k..6 + 4 * k] == CueLines(k + 1, spoken[k], timestamp)
  {
    var spoken := Spoken(segments);
    CueBlockLength(timestamp);
    BlocksLength(spoken, CueBlock(timestamp), 1);
    forall k | 0 <= k < |spoken|
      ensures WebVttLines(segments, timestamp)[2 + 4 * k..6 + 4 * k] == CueLines(k + 1, spoken[k], timestamp)
    {
      CueLinesAt(segments, timestamp, k);
    }
  }

  /** Cue k of the transcript sits after the two header lines. */
  lemma CueLinesAt(segments: seq<TimedSegment>, timestamp: real -> string, k: nat)
    requires k < |Spoken(segments)|
    ensures |WebVttLines(segments, timestamp)| == 2 + 4 * |Spoken(segments)|
    ensures WebVttLines(segments, timestamp)[2 + 4 * k..6 + 4 * k] == CueLines(k + 1, Spoken(segments)[k], timestamp)
  {
    var spoken := Spoken(segments);
    var cues := Cues(spoken, timestamp, 1);
    CueAt(spoken, timestamp, 1, k);
    SliceAfterPrefix(["WEBVTT", ""], cues, 4 * k, 4 * k + 4);
  }

  lemma SliceAfterPrefix<T>(a: seq<T>, b: seq<T>, i: nat, j: nat)
    requires i <= j <= |b|
    ensures (a + b)[|a| + i..|a| + j] == b[i..j]
  {
    assert forall x :: 0 <= x < j - i ==> (a + b)[|a| + i..|a| + j][x] == b[i..j][x];
  }

  lemma SliceBeforeSuffix<T>(a: seq<T>, b: seq<T>, i: nat, j: nat)
    requires i <= j <= |a|
    ensures (a + b)[i..j] == a[i..j]
  {
  }

  lemma PrefixSnoc<T>(s: seq<T>, i: nat)
    requires i < |s|
    ensures s[..i + 1] == s[..i] + [s[i]]
  {
  }

  lemma SpokenSnoc(segments: seq<TimedSegment>, seg: TimedSegment)
    ensures Spoken(segments + [seg]) == if seg.speaker == Pause then Spoken(segments) else Spoken(segments) + [seg]
  {
    assert (segments + [seg])[..|segments|] == segments;
  }

  lemma CuesSnoc(spoken: seq<TimedSegment>, seg: TimedSegment, timestamp: real -> string)
    ensures Cues(spoken + [seg], timestamp, 1) == Cues(spoken, timestamp, 1) + CueLines(|spoken| + 1, seg, timestamp)
  {
    var t := spoken + [seg];
    assert t[..|t| - 1] == spoken && t[|t| - 1] == seg && 1 + |t| - 1 == |spoken| + 1;
  }

  /** One more input segment adds its cue, numbered after those before it, unless it is a pause. */
  lemma LinesStep(segments: seq<TimedSegment>, i: nat, timestamp: real -> string)
    requires i < |segments|
    ensures var spoken := Spoken(segments[..i]);
            var seg := segments[i];
            && |Spoken(segments[..i + 1])| == |spoken| + (if seg.speaker == Pause then 0 else 1)
            && WebVttLines(segments[..i + 1], timestamp)
               == WebVttLines(segments[..i], timestamp) + (if seg.speaker == Pause then [] else CueLines(|spoken| + 1, seg, timestamp))
  {
    PrefixSnoc(segments, i);
    SpokenSnoc(segments[..i], segments[i]);
    CuesSnoc(Spoken(segments[..i]), segments[i], timestamp);
  }

  /** A PAUSE segment contributes no cue: adding one leaves the transcript as it was. */
  lemma PauseAddsNothing(segments: seq<TimedSegment>, pause: TimedSegment, timestamp: real -> string)
    requires pause.speaker == Pause
    ensures WebVttLines(segments + [pause], timestamp) == WebVttLines(segments, timestamp)
  {
    assert (segments + [pause])[..|segments|] == segments;
  }

  /** Every transcript begins with the WEBVTT header line. */
  lemma StartsWithHeader(segments: seq<TimedSegment>, timestamp: real -> string)
    ensures var vtt := Join(WebVttLines(segments, timestamp), '\n');
            |vtt| >= 7 && vtt[..7] == "WEBVTT\n"
  {
    var lines := WebVttLines(segments, timestamp);
    assert |lines| >= 2 && lines[0] == "WEBVTT";
    var rest := Join(lines[1..], '\n');
    assert Join(lines, '\n') == "WEBVTT\n" + rest;
    SliceBeforeSuffix("WEBVTT\n", rest, 0, 7);
  }

  /** The loop body of generate_webvtt for a spoken segment: its four lines, appended one by one. */
  method AppendCue(lines: seq<string>, cueNumber: nat, segment: TimedSegment, timestamp: real -> string)
    returns (lines': seq<string>)
    ensures lines' == lines + CueLines(cueNumber, segment, timestamp)
  {
    var start := timestamp(segment.start);
    var end := timestamp(segment.end);
    var speaker := Capitalize(segment.speaker);
    var text := segment.text;
    lines' := lines + [NatToDecimal(cueNumber)];
    lines' := lines' + [start + " --> " + end];
    lines' := lines' + ["<v " + speaker + ">" + text];
    lines' := lines' + [""];
    assert lines' == lines + [NatToDecimal(cueNumber), start + " --> " + end, "<v " + speaker + ">" + text, ""];
  }

  /** generate_webvtt: walk the segments, skip pauses, append four lines per cue
      and number the cues from 1; then join the lines with newlines. */
  method GenerateWebVtt(segmentsWithTiming: seq<TimedSegment>, timestamp: real -> string) returns (vtt: string)
    ensures vtt == Join(WebVttLines(segmentsWithTiming, timestamp), '\n')
  {
    var lines := ["WEBVTT", ""];
    var cueNumber := 1;
    for i := 0 to |segmentsWithTiming|
      invariant lines == WebVttLines(segmentsWithTiming[..i], timestamp)
      invariant cueNumber == |Spoken(segmentsWithTiming[..i])| + 1
    {
      var segment := segmentsWithTiming[i];
      LinesStep(segmentsWithTiming, i, timestamp);
      if segment.speaker == Pause {
        continue;
      }
      lines := AppendCue(lines, cueNumber, segment, timestamp);
      cueNumber := cueNumber + 1;
    }
    assert segmentsWithTiming[..|segmentsWithTiming|] == segmentsWithTiming;
    vtt := Join(lines, '\n');
  }
}
