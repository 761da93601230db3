/** The cache migration script: script parsing, the old-key to new-key mapping,
    the classification of one segment's migration and the final tally.
    Hashing, file access, ffmpeg and the object store are left to parameters. */
module CacheMigration {
  import opened Wrappers
  import opened Strings

  const EricVoice: string := "gP8LZQ3GGokV0MP5JYjg"
  const MayaVoice: string := "21m00Tcm4TlvDq8ikWAM"

  /** One spoken line of a podcast script. */
  datatype ScriptSegment = ScriptSegment(speaker: string, text: string)

  // ---------- Matching `**NAME:** text` ----------

  predicate IsUpperAscii(c: char) { 'A' <= c <= 'Z' }

  /** The number of A-Z letters at the start of s. */
  function UpperRun(s: string): (n: nat)
    ensures n <= |s|
    ensures forall i :: 0 <= i < n ==> IsUpperAscii(s[i])
    ensures n < |s| ==> !IsUpperAscii(s[n])
  {
    if s != [] && IsUpperAscii(s[0]) then 1 + UpperRun(s[1..]) else 0
  }

  /** The part of s before its first newline (what `.*` matches). */
  function UpToNewline(s: string): (r: string)
    ensures '\n' !in r
    ensures '\n' !in s ==> r == s
    ensures |r| <= |s| && r == s[..|r|]
  ensures |r| < |s| ==> s[|r|] == '\n'
  {
    if s == [] || s[0] == '\n' then [] else [s[0]] + UpToNewline(s[1..])
  }

  /** The number of capitals in the `**NAME:**` label that starts line, if it starts with one. */
  function LabelLength(line: string): (n: Option<nat>)
    ensures n.Some? ==> 1 <= n.value && n.value + 5 <= |line|
    ensures n.Some? ==> forall i :: 2 <= i < 2 + n.value ==> IsUpperAscii(line[i])
    ensures n.Some? ==> line[..2] == "**" && line[2 + n.value..5 + n.value] == ":**"
  {
    if |line| >= 2 && line[..2] == "**" then
      var n := UpperRun(line[2..]);
      if n >= 1 && |line| >= n + 5 && line[2 + n..5 + n] == ":**" then Some(n) else None
    else None
  }

  /** re.match(r'\*\*([A-Z]+):\*\*\s*(.*)', line): the two groups, speaker and text.
      [A-Z]+ cannot match ':', so the greedy run of capitals is the only candidate;
      \s* takes all the whitespace and .* the rest of the line. */
  function MatchSpeakerLine(line: string): Option<(string, string)> {
    match LabelLength(line)
    case None => None
    case Some(n) => Some((line[2..2 + n], UpToNewline(TrimLeft(line[5 + n..], IsPythonSpace))))
  }

  /** The run of capitals ends at the first character that is not one. */
  lemma {:induction false} UpperRunStops(t: string, n: nat)
    requires n < |t| && !IsUpperAscii(t[n])
    requires forall i :: 0 <= i < n ==> IsUpperAscii(t[i])
    ensures UpperRun(t) == n
  {
    if n > 0 {
      UpperRunStops(t[1..], n - 1);
    }
  }

  /** A line that starts with `**`, one or more capitals and `:**` has a label of
      exactly those capitals. */
  lemma LabelOfSpeaker(line: string, speaker: string)
    requires |speaker| >= 1 && forall i :: 0 <= i < |speaker| ==> IsUpperAscii(speaker[i])
    requires OccursAt(line, "**" + speaker + ":**", 0)
    ensures LabelLength(line) == Some(|speaker|) && line[2..2 + |speaker|] == speaker
  {
    var tag := "**" + speaker + ":**";
    var n := |speaker|;
    assert line[..|tag|] == tag;
    assert line[..2] == "**";
    assert forall i :: 0 <= i < n ==> line[2..][i] == tag[2 + i];
    assert line[2..][n] == ':';
    UpperRunStops(line[2..], n);
    assert line[2..2 + n] == tag[2..2 + n];
    assert line[2 + n..5 + n] == tag[2 + n..];
  }

  /** Conversely, a label is `**`, one or more capitals and `:**` at the start of the line. */
  lemma LabelIsSpeakerTag(line: string)
    requires LabelLength(line).Some?
    ensures var speaker := line[2..2 + LabelLength(line).value];
            && |speaker| >= 1 && (forall i :: 0 <= i < |speaker| ==> IsUpperAscii(speaker[i]))
            && OccursAt(line, "**" + speaker + ":**", 0)
  {
    var n := LabelLength(line).value;
    assert line[..5 + n] == line[..2] + line[2..2 + n] + line[2 + n..5 + n];
  }

  /** The speaker group is the label's capitals. */
  lemma MatchedSpeaker(line: string)
    ensures MatchSpeakerLine(line).Some? <==> LabelLength(line).Some?
    ensures MatchSpeakerLine(line).Some? ==> MatchSpeakerLine(line).value.0 == line[2..2 + LabelLength(line).value]
  {
  }

  // ---------- Cleaning the text ----------

  /** re.sub of a lazy pattern `open .*? close` by '': scanning left to right, each
      `open` with a later `close` is removed up to and including the first such
      `close`; every other character is kept. */
  function RemoveLazySpans(s: string, open: string, close: string): (r: string)
    requires |open| > 0
    ensures |r| <= |s|
    ensures forall c :: c in r ==> c in s
    decreases |s|
  {
    if s == [] then []
    else if OccursAt(s, open, 0) && FindFrom(s, close, |open|).Some? then
      var q := FindFrom(s, close, |open|).value;
      var r := RemoveLazySpans(s[q + |close|..], open, close);
      assert forall c :: c in r ==> c in s[q + |close|..];
      r
    else
      [s[0]] + RemoveLazySpans(s[1..], open, close)
  }

  /** Python's str.replace(pat, ''): non-overlapping occurrences, left to right. */
  function RemoveAll(s: string, pat: string): (r: string)
    requires |pat| > 0
    decreases |s|
  {
    if s == [] then []
    else if OccursAt(s, pat, 0) then RemoveAll(s[|pat|..], pat)
    else [s[0]] + RemoveAll(s[1..], pat)
  }

  /** The markdown clean-up applied to a speaker's text. */
  function CleanText(text: string): string {
    var noBoldNotes := RemoveLazySpans(text, "**[", "]**");
    var noNotes := RemoveLazySpans(noBoldNotes, "[", "]");
    var noStars := RemoveAll(RemoveAll(noNotes, "**"), "*");
    Strip(noStars, IsPythonSpace)
  }

  /** No `[` is followed, anywhere later, by a `]`. */
  ghost predicate NoBracketedNote(s: string) {
    forall i, j :: 0 <= i < j < |s| && s[i] == '[' ==> s[j] != ']'
  }

  lemma {:induction false} SingleStarRemoval(s: string)
    ensures RemoveAll(s, "*") == FilterOut(s, '*')
  {
    if s != [] {
      SingleStarRemoval(s[1..]);
      if OccursAt(s, "*", 0) {
        assert s[0] == '*';
      } else {
        assert s[..1] != "*";
        assert s[0] != '*';
      }
    }
  }

  lemma {:induction false} DoubleStarRemoval(s: string)
    ensures FilterOut(RemoveAll(s, "**"), '*') == FilterOut(s, '*')
  {
    if s != [] {
      if OccursAt(s, "**", 0) {
        DoubleStarRemoval(s[2..]);
        assert s[0] == '*' && s[1] == '*';
        assert FilterOut(s, '*') == FilterOut(s[1..], '*');
        assert s[1..][1..] == s[2..];
      } else {
        DoubleStarRemoval(s[1..]);
        FilterOutAppend([s[0]], RemoveAll(s[1..], "**"), '*');
      }
    }
  }

  /** Removing `**` and then `*` removes every asterisk and nothing else. */
  lemma StarsRemoved(s: string)
    ensures RemoveAll(RemoveAll(s, "**"), "*") == FilterOut(s, '*')
  {
    SingleStarRemoval(RemoveAll(s, "**"));
    DoubleStarRemoval(s);
  }

  lemma {:induction false} BracketNotesRemoved(s: string)
    ensures NoBracketedNote(RemoveLazySpans(s, "[", "]"))
  {
    if s != [] {
      if OccursAt(s, "[", 0) && FindFrom(s, "]", 1).Some? {
        var q := FindFrom(s, "]", 1).value;
        BracketNotesRemoved(s[q + 1..]);
      } else {
        var rest := RemoveLazySpans(s[1..], "[", "]");
        BracketNotesRemoved(s[1..]);
        if s[0] == '[' {
          assert OccursAt(s, "[", 0);
          forall q | 1 <= q < |s| ensures s[q] != ']' {
            assert !OccursAt(s, "]", q);
            assert s[q..q + 1] == [s[q]];
          }
          assert ']' !in s[1..];
          assert ']' !in rest;
        }
        var r := [s[0]] + rest;
        forall i, j | 0 <= i < j < |r| && r[i] == '[' ensures r[j] != ']' {
          if i == 0 {
            assert r[j] == rest[j - 1];
            assert r[j] in rest;
          } else {
            assert r[i] == rest[i - 1] && r[j] == rest[j - 1];
          }
        }
      }
    }
  }

  lemma {:induction false} FilterKeepsNoBracketedNote(s: string, c: char)
    requires NoBracketedNote(s)
    ensures NoBracketedNote(FilterOut(s, c))
  {
    if s != [] {
      assert NoBracketedNote(s[1..]) by {
        forall i, j | 0 <= i < j < |s[1..]| && s[1..][i] == '[' ensures s[1..][j] != ']' {
          assert s[i + 1] == '[' && s[1..][j] == s[j + 1];
        }
      }
      FilterKeepsNoBracketedNote(s[1..], c);
      var rest := FilterOut(s[1..], c);
      var r := FilterOut(s, c);
      if s[0] != c {
        assert r == [s[0]] + rest;
        if s[0] == '[' {
          assert forall j :: 1 <= j < |s| ==> s[j] != ']';
          assert ']' !in s[1..];
        }
        forall i, j | 0 <= i < j < |r| && r[i] == '[' ensures r[j] != ']' {
          assert r[j] == rest[j - 1];
          if i == 0 {
            assert r[j] in rest;
          } else {
            assert r[i] == rest[i - 1];
          }
        }
      } else {
        assert r == rest;
      }
    }
  }

  /** A slice of a text free of asterisks and of `[...]` notes is free of them too. */
  lemma SliceKeepsClean(s: string, i: nat, j: nat)
    requires i <= j <= |s|
    requires '*' !in s && NoBracketedNote(s)
    ensures '*' !in s[i..j] && NoBracketedNote(s[i..j])
  {
    var r := s[i..j];
    forall a, b | 0 <= a < b < |r| && r[a] == '[' ensures r[b] != ']' {
      assert r[a] == s[i + a] && r[b] == s[i + b];
    }
    assert forall x :: x in r ==> x in s;
  }

  /** Stripping keeps a text free of asterisks and of `[...]` notes. */
  lemma StripKeepsClean(s: string)
    requires '*' !in s && NoBracketedNote(s)
    ensures '*' !in Strip(s, IsPythonSpace) && NoBracketedNote(Strip(s, IsPythonSpace))
  {
    var i, j :| 0 <= i <= j <= |s| && Strip(s, IsPythonSpace) == s[i..j];
    SliceKeepsClean(s, i, j);
  }

  /** Cleaned text holds no asterisk, no `[...]` note, and no surrounding whitespace. */
  lemma CleanTextProperties(text: string)
    ensures var r := CleanText(text);
            && '*' !in r
            && NoBracketedNote(r)
            && (r == [] || (!IsPythonSpace(r[0]) && !IsPythonSpace(r[|r| - 1])))
  {
    var noBoldNotes := RemoveLazySpans(text, "**[", "]**");
    var noNotes := RemoveLazySpans(noBoldNotes, "[", "]");
    BracketNotesRemoved(noBoldNotes);
    StarsRemoved(noNotes);
    FilterKeepsNoBracketedNote(noNotes, '*');
    StripKeepsClean(FilterOut(noNotes, '*'));
  }

  // ---------- Parsing a script ----------

  /** What a parsed segment always satisfies. */
  ghost predicate WellFormed(seg: ScriptSegment) {
    && (seg.speaker == "ERIC" || seg.speaker == "MAYA")
    && seg.text != []
    && '*' !in seg.text
    && NoBracketedNote(seg.text)
    && !IsPythonSpace(seg.text[0]) && !IsPythonSpace(seg.text[|seg.text| - 1])
  }

  /** The segment one line of the script yields, if any. */
  function ParseLine(rawLine: string): (seg: Option<ScriptSegment>)
    ensures seg.Some? ==> WellFormed(seg.value)
    ensures seg.Some? ==> OccursAt(Strip(rawLine, IsPythonSpace), "**" + seg.value.speaker + ":**", 0)
  {
    var line := Strip(rawLine, IsPythonSpace);
    if line == "" then None
    else
      match MatchSpeakerLine(line)
      case None => None
      case Some((speaker, rest)) =>
        var text := CleanText(rest);
        CleanTextProperties(rest);
        if text != "" && (speaker == "ERIC" || speaker == "MAYA") then
          MatchedSpeaker(line);
          LabelIsSpeakerTag(line);
          Some(ScriptSegment(speaker, text))
        else None
  }

  /** The values f yields on xs, in order, skipping the elements it yields nothing for. */
  function Collect<A, B>(xs: seq<A>, f: A -> Option<B>): (ys: seq<B>)
    ensures |ys| <= |xs|
  {
    if xs == [] then []
    else
      var init := Collect(xs[..|xs| - 1], f);
      match f(xs[|xs| - 1])
      case Some(y) => init + [y]
      case None => init
  }

  lemma {:induction false} CollectAppend<A, B>(xs: seq<A>, ys: seq<A>, f: A -> Option<B>)
    ensures Collect(xs + ys, f) == Collect(xs, f) + Collect(ys, f)
  {
    if ys == [] {
      assert xs + ys == xs;
    } else {
      var ys' := ys[..|ys| - 1];
      assert (xs + ys)[..|xs + ys| - 1] == xs + ys';
      CollectAppend(xs, ys', f);
    }
  }

  /** The segments of a sequence of lines, in line order. */
  function SegmentsOf(lines: seq<string>): (segs: seq<ScriptSegment>)
    ensures |segs| <= |lines|
  {
    Collect(lines, ParseLine)
  }

  /** Every segment the parser emits is well formed: ERIC or MAYA, with non-empty
      cleaned text. */
  lemma {:induction false} SegmentsWellFormed(lines: seq<string>)
    ensures var segs := SegmentsOf(lines);
            forall k :: 0 <= k < |segs| ==> WellFormed(segs[k])
  {
    if lines != [] {
      var init := lines[..|lines| - 1];
      SegmentsWellFormed(init);
      var parsed := ParseLine(lines[|lines| - 1]);
      if parsed.Some? {
        assert SegmentsOf(lines) == SegmentsOf(init) + [parsed.value];
      } else {
        assert SegmentsOf(lines) == SegmentsOf(init);
      }
    }
  }

  /** Segments keep the order of the lines they come from: the segments of a
      concatenation of lines are those of the first part, then those of the second. */
  lemma SegmentsInLineOrder(a: seq<string>, b: seq<string>)
    ensures SegmentsOf(a + b) == SegmentsOf(a) + SegmentsOf(b)
  {
    CollectAppend(a, b, ParseLine);
  }

  /** A blank line, or one that does not start with a speaker tag, yields nothing. */
  lemma UnlabelledLineYieldsNothing(rawLine: string)
    requires MatchSpeakerLine(Strip(rawLine, IsPythonSpace)).None?
    ensures ParseLine(rawLine).None?
  {
  }

  /** A line made of a speaker tag and the rest matches with that speaker and the
      first line of the rest, leading whitespace dropped. */
  lemma TaggedLineMatches(line: string, speaker: string, rest: string)
    requires |speaker| >= 1 && forall i :: 0 <= i < |speaker| ==> IsUpperAscii(speaker[i])
    requires line == "**" + speaker + ":**" + rest
    ensures MatchSpeakerLine(line) == Some((speaker, UpToNewline(TrimLeft(rest, IsPythonSpace))))
  {
    var tag := "**" + speaker + ":**";
    assert line[..|tag|] == tag;
    LabelOfSpeaker(line, speaker);
    assert line[5 + |speaker|..] == rest;
  }

  /** The two hosts' names are speaker labels. */
  lemma HostIsLabel(speaker: string)
    requires speaker == "ERIC" || speaker == "MAYA"
    ensures |speaker| >= 1 && forall i :: 0 <= i < |speaker| ==> IsUpperAscii(speaker[i])
  {
  }

  /** Conversely, a line tagged `**ERIC:**` or `**MAYA:**` whose cleaned text is not
      empty yields exactly that speaker and that text. */
  lemma KeptLine(rawLine: string, speaker: string, rest: string)
    requires speaker == "ERIC" || speaker == "MAYA"
    requires Strip(rawLine, IsPythonSpace) == "**" + speaker + ":**" + rest
    requires CleanText(UpToNewline(TrimLeft(rest, IsPythonSpace))) != ""
    ensures ParseLine(rawLine)
            == Some(ScriptSegment(speaker, CleanText(UpToNewline(TrimLeft(rest, IsPythonSpace)))))
  {
    HostIsLabel(speaker);
    TaggedLineMatches(Strip(rawLine, IsPythonSpace), speaker, rest);
  }

  /** One more line adds the segment it yields, if any. */
  lemma SegmentsStep(lines: seq<string>, i: nat)
    requires i < |lines|
    ensures SegmentsOf(lines[..i + 1])
            == SegmentsOf(lines[..i]) + (if ParseLine(lines[i]).Some? then [ParseLine(lines[i]).value] else [])
  {
    assert lines[..i + 1] == lines[..i] + [lines[i]];
    CollectAppend(lines[..i], [lines[i]], ParseLine);
  }

  /** parse_podcast_script over the text of a script file. */
  method ParsePodcastScript(content: string) returns (segments: seq<ScriptSegment>)
    ensures segments == SegmentsOf(Split(content, '\n'))
    ensures forall k :: 0 <= k < |segments| ==> WellFormed(segments[k])
  {
    var lines := Split(content, '\n');
    SegmentsWellFormed(lines);
    segments := [];
    for i := 0 to |lines|
      invariant segments == SegmentsOf(lines[..i])
    {
      SegmentsStep(lines, i);
      var segment := ParseLine(lines[i]);
      if segment.Some? {
        segments := segments + [segment.value];
      }
    }
    assert lines[..|lines|] == lines;
  }

  // ---------- The segment mapping ----------

  /** An episode directory: its name and, when script.md exists, its text. */
  datatype EpisodeDir = EpisodeDir(name: string, script: Option<string>)

  /** What the mapping records for one old cache key. */
  datatype MappingEntry = MappingEntry(newKey: string, episode: string, speaker: string, textPreview: string)

  /** get_old_cache_key and get_new_cache_key: SHA-256 digests of JSON payloads,
      given as functions of (text, voice id). */
  datatype CacheKeys = CacheKeys(oldKey: (string, string) -> string, newKey: (string, string) -> string)

  /** ERIC speaks with the ERIC voice; every other speaker with the MAYA voice. */
  function VoiceFor(speaker: string): (voice: string)
    ensures voice == EricVoice <==> speaker == "ERIC"
    ensures voice == MayaVoice <==> speaker != "ERIC"
  {
    if speaker == "ERIC" then EricVoice else MayaVoice
  }

  /** text_preview: the first 50 characters, with `...` when the text is longer. */
  function TextPreview(text: string): (preview: string)
    ensures |preview| <= 53
    ensures |text| <= 50 ==> preview == text
    ensures |text| > 50 ==> |preview| == 53 && preview[..50] == text[..50] && preview[50..] == "..."
  {
    text[..if |text| < 50 then |text| else 50] + (if |text| > 50 then "..." else "")
  }

  /** The episode directories build_segment_mapping reads: not `api`, matching the
      filter when one is given (an empty filter is no filter), and holding a script. */
  predicate Admitted(dir: EpisodeDir, episodeFilter: Option<string>) {
    && dir.name != "api"
    && (episodeFilter.None? || episodeFilter.value == "" || dir.name == episodeFilter.value)
    && dir.script.Some?
  }

  function EntryFor(episode: string, seg: ScriptSegment, keys: CacheKeys): (string, MappingEntry) {
    var voice := VoiceFor(seg.speaker);
    (keys.oldKey(seg.text, voice),
     MappingEntry(keys.newKey(seg.text, voice), episode, seg.speaker, TextPreview(seg.text)))
  }

  /** The (old key, entry) writes for one episode's segments, in order. */
  function EpisodeWrites(episode: string, segs: seq<ScriptSegment>, keys: CacheKeys): (w: seq<(string, MappingEntry)>)
    ensures |w| == |segs|
    ensures forall k :: 0 <= k < |w| ==> w[k] == EntryFor(episode, segs[k], keys)
  {
    if segs == [] then []
    else EpisodeWrites(episode, segs[..|segs| - 1], keys) + [EntryFor(episode, segs[|segs| - 1], keys)]
  }

  /** All the writes build_segment_mapping makes, directory by directory. */
  function MappingWrites(dirs: seq<EpisodeDir>, episodeFilter: Option<string>, keys: CacheKeys): seq<(string, MappingEntry)> {
    if dirs == [] then []
    else
      var dir := dirs[|dirs| - 1];
      var init := MappingWrites(dirs[..|dirs| - 1], episodeFilter, keys);
      if Admitted(dir, episodeFilter) then
        var segs := SegmentsOf(Split(dir.script.value, '\n'));
        init + EpisodeWrites(dir.name, segs, keys)
      else init
  }

  /** The dictionary that results from performing the writes in order. */
  function MapOf(writes: seq<(string, MappingEntry)>): (m: map<string, MappingEntry>)
    ensures forall k :: k in m ==> (k, m[k]) in writes
  {
    if writes == [] then map[]
    else
      var (k, v) := writes[|writes| - 1];
      var init := MapOf(writes[..|writes| - 1]);
      assert forall x :: x in writes[..|writes| - 1] ==> x in writes;
      init[k := v]
  }

  /** A later write to the same old key replaces the earlier one: each key maps to
      the entry of the last write that names it. */
  lemma {:induction false} LastWriteWins(writes: seq<(string, MappingEntry)>, i: nat)
    requires i < |writes|
    requires forall j :: i < j < |writes| ==> writes[j].0 != writes[i].0
    ensures writes[i].0 in MapOf(writes) && MapOf(writes)[writes[i].0] == writes[i].1
  {
    if i < |writes| - 1 {
      LastWriteWins(writes[..|writes| - 1], i);
    }
  }

  /** Every written key is in the mapping. */
  lemma {:induction false} EveryKeyMapped(writes: seq<(string, MappingEntry)>)
    ensures forall j :: 0 <= j < |writes| ==> writes[j].0 in MapOf(writes)
  {
    if writes != [] {
      EveryKeyMapped(writes[..|writes| - 1]);
      assert forall j :: 0 <= j < |writes| - 1 ==> writes[j] == writes[..|writes| - 1][j];
    }
  }

  lemma MapOfSnoc(writes: seq<(string, MappingEntry)>, key: string, entry: MappingEntry)
    ensures MapOf(writes + [(key, entry)]) == MapOf(writes)[key := entry]
  {
    assert (writes + [(key, entry)])[..|writes|] == writes;
  }

  lemma EpisodeWritesStep(episode: string, segs: seq<ScriptSegment>, j: nat, keys: CacheKeys)
    requires j < |segs|
    ensures EpisodeWrites(episode, segs[..j + 1], keys) == EpisodeWrites(episode, segs[..j], keys) + [EntryFor(episode, segs[j], keys)]
  {
    assert segs[..j + 1][..j] == segs[..j];
  }

  lemma MappingWritesStep(dirs: seq<EpisodeDir>, d: nat, episodeFilter: Option<string>, keys: CacheKeys)
    requires d < |dirs|
    ensures Admitted(dirs[d], episodeFilter) ==>
              MappingWrites(dirs[..d + 1], episodeFilter, keys)
              == MappingWrites(dirs[..d], episodeFilter, keys)
                 + EpisodeWrites(dirs[d].name, SegmentsOf(Split(dirs[d].script.value, '\n')), keys)
    ensures !Admitted(dirs[d], episodeFilter) ==>
              MappingWrites(dirs[..d + 1], episodeFilter, keys) == MappingWrites(dirs[..d], episodeFilter, keys)
  {
    assert dirs[..d + 1][..d] == dirs[..d];
  }

  /** The inner loop of build_segment_mapping: one episode's segments, in order. */
  method AddEpisode(mapping: map<string, MappingEntry>, episode: string, segments: seq<ScriptSegment>,
                    keys: CacheKeys, ghost done: seq<(string, MappingEntry)>)
    returns (mapping': map<string, MappingEntry>)
    requires mapping == MapOf(done)
    ensures mapping' == MapOf(done + EpisodeWrites(episode, segments, keys))
  {
    mapping' := mapping;
    assert done + EpisodeWrites(episode, segments[..0], keys) == done;
    for j := 0 to |segments|
      invariant mapping' == MapOf(done + EpisodeWrites(episode, segments[..j], keys))
    {
      var seg := segments[j];
      var voiceId := VoiceFor(seg.speaker);
      var oldKey := keys.oldKey(seg.text, voiceId);
      var newKey := keys.newKey(seg.text, voiceId);
      mapping' := mapping'[oldKey := MappingEntry(newKey, episode, seg.speaker, TextPreview(seg.text))];
      EpisodeWritesStep(episode, segments, j, keys);
      MapOfSnoc(done + EpisodeWrites(episode, segments[..j], keys), oldKey, MappingEntry(newKey, episode, seg.speaker, TextPreview(seg.text)));
      assert done + EpisodeWrites(episode, segments[..j + 1], keys)
             == (done + EpisodeWrites(episode, segments[..j], keys)) + [EntryFor(episode, seg, keys)];
    }
    assert segments[..|segments|] == segments;
  }

  /** build_segment_mapping over the (sorted) episode directories. */
  method BuildSegmentMapping(dirs: seq<EpisodeDir>, episodeFilter: Option<string>, keys: CacheKeys)
    returns (mapping: map<string, MappingEntry>)
    ensures mapping == MapOf(MappingWrites(dirs, episodeFilter, keys))
  {
    mapping := map[];
    for d := 0 to |dirs|
      invariant mapping == MapOf(MappingWrites(dirs[..d], episodeFilter, keys))
    {
      var episodeDir := dirs[d];
      MappingWritesStep(dirs, d, episodeFilter, keys);
      if episodeDir.name == "api" {
        continue;
      }
      if episodeFilter.Some? && episodeFilter.value != "" && episodeDir.name != episodeFilter.value {
        continue;
      }
      if episodeDir.script.None? {
        continue;
      }
      var segments := ParsePodcastScript(episodeDir.script.value);
      mapping := AddEpisode(mapping, episodeDir.name, segments, keys, MappingWrites(dirs[..d], episodeFilter, keys));
    }
    assert dirs[..|dirs|] == dirs;
  }

  // ---------- Migrating and tallying ----------

  /** The record migrate_segment returns. */
  datatype MigrationResult = MigrationResult(
    oldKey: string, newKey: string, episode: string,
    success: bool, skipped: bool, error: Option<string>)

  /** How a step of migrate_segment that may raise went: it returned, or it
      raised an exception that nothing in migrate_segment catches. */
  datatype Attempt<T> = Returned(value: T) | Raised(exception: string)

  /** migrate_segment, given whether the old file is in the local cache and how
      each later step went: creating the temporary file, normalize_audio (which
      raises when running ffmpeg raises), reading the normalised file back, and
      upload_to_r2 (which catches its own errors). An exception escapes as Err;
      the `finally` clause only removes the temporary file. */
  function MigrateSegment(oldKey: string, info: MappingEntry, inLocalCache: bool, dryRun: bool,
                          tempFile: Attempt<()>, normalize: Attempt<bool>, readBack: Attempt<()>,
                          uploaded: bool): (r: Result<MigrationResult>)
    ensures r.Err? <==> inLocalCache && !dryRun
                        && (tempFile.Raised? || normalize.Raised? || (normalize == Returned(true) && readBack.Raised?))
    ensures r.Ok? ==> r.value.oldKey == oldKey && r.value.newKey == info.newKey && r.value.episode == info.episode
    ensures r.Ok? ==> (r.value.skipped <==> !inLocalCache)
    ensures r.Ok? ==> (r.value.success <==> inLocalCache && (dryRun || (normalize == Returned(true) && uploaded)))
    ensures r.Ok? ==> (r.value.success <==> r.value.error.None?)
    ensures r.Ok? ==> !(r.value.success && r.value.skipped)
  {
    var result := MigrationResult(oldKey, info.newKey, info.episode, false, false, None);
    if !inLocalCache then Ok(result.(skipped := true, error := Some("Not in local cache")))
    else if dryRun then Ok(result.(success := true))
    else if tempFile.Raised? then Err(tempFile.exception)
    else
      match normalize
      case Raised(e) => Err(e)
      case Returned(false) => Ok(result.(error := Some("Normalization failed")))
      case Returned(true) =>
        if readBack.Raised? then Err(readBack.exception)
        else if uploaded then Ok(result.(success := true))
        else Ok(result.(error := Some("Upload failed")))
  }

  datatype Tally = Tally(success: nat, failed: nat, skipped: nat)

  /** One result increments exactly one counter: success first, then skipped, else failed. */
  function Count(t: Tally, r: MigrationResult): Tally {
    if r.success then t.(success := t.success + 1)
    else if r.skipped then t.(skipped := t.skipped + 1)
    else t.(failed := t.failed + 1)
  }

  function TallyOf(results: seq<MigrationResult>): (t: Tally)
    ensures t.success + t.failed + t.skipped == |results|
    ensures t.failed <= |results|
  {
    if results == [] then Tally(0, 0, 0)
    else Count(TallyOf(results[..|results| - 1]), results[|results| - 1])
  }

  /** The progress bar drawn after the i-th of total results. */
  function ProgressBar(i: nat, total: nat): string
    requires total > 0
  {
    var pct := i * 100 / total;
    Repeat('#', pct / 5) + Repeat('-', 20 - pct / 5)
  }

  /** x <= y follows from x * b <= y * b when b is positive. */
  lemma CancelFactor(x: int, y: int, b: int)
    requires b > 0 && x * b <= y * b
    ensures x <= y
  {
    assert (y - x) * b >= 0;
  }

  lemma PercentAtMost100(i: nat, total: nat)
    requires 1 <= i <= total
    ensures 0 <= i * 100 / total <= 100
  {
    var q := i * 100 / total;
    assert q * total <= i * 100;
    CancelFactor(q, 100, total);
  }

  /** For 1 <= i <= total the bar is twenty characters: pct//5 hashes, then dashes. */
  lemma ProgressBarShape(i: nat, total: nat)
    requires 1 <= i <= total
    ensures var bar := ProgressBar(i, total);
            var hashes := (i * 100 / total) / 5;
            && |bar| == 20 && 0 <= hashes <= 20
            && (forall k :: 0 <= k < hashes ==> bar[k] == '#')
            && (forall k :: hashes <= k < 20 ==> bar[k] == '-')
  {
    PercentAtMost100(i, total);
  }

  /** The last result fills the bar. */
  lemma ProgressBarFull(total: nat)
    requires total >= 1
    ensures var bar := ProgressBar(total, total);
            |bar| == 20 && forall k :: 0 <= k < 20 ==> bar[k] == '#'
  {
    var q := total * 100 / total;
    assert q * total + total * 100 % total == total * 100;
    CancelFactor(q, 100, total);
    assert 99 * total < q * total;
    CancelFactor(99, q, total);
    ProgressBarShape(total, total);
  }

  /** The results of futures that all returned, in order. */
  function Values(completed: seq<Result<MigrationResult>>): (rs: seq<MigrationResult>)
    requires forall j :: 0 <= j < |completed| ==> completed[j].Ok?
    ensures |rs| == |completed| && forall j :: 0 <= j < |rs| ==> rs[j] == completed[j].value
  {
    seq(|completed|, j requires 0 <= j < |completed| => completed[j].value)
  }

  /** The result loop of main over the futures in completion order: count each
      result and draw the bar. future.result() raises again the exception of a
      migrate_segment that raised, which ends main there with the interpreter's
      exit status 1; otherwise main exits with 0 exactly when nothing failed. */
  method SummarizeResults(completed: seq<Result<MigrationResult>>)
    returns (handled: nat, tally: Tally, bars: seq<string>, exitCode: int)
    ensures handled <= |completed|
    ensures forall j :: 0 <= j < handled ==> completed[j].Ok?
    ensures handled < |completed| ==> completed[handled].Err? && exitCode == 1
    ensures tally == TallyOf(Values(completed[..handled]))
    ensures tally.success + tally.failed + tally.skipped == handled
    ensures |bars| == handled
    ensures forall i :: 0 <= i < handled ==> bars[i] == ProgressBar(i + 1, |completed|)
    ensures handled == |completed| ==> (exitCode == 0 <==> tally.failed == 0)
    ensures exitCode == 0 || exitCode == 1
  {
    var success, failed, skipped := 0, 0, 0;
    var total := |completed|;
    bars := [];
    handled := 0;
    while handled < total
      invariant handled <= total
      invariant forall j :: 0 <= j < handled ==> completed[j].Ok?
      invariant Tally(success, failed, skipped) == TallyOf(Values(completed[..handled]))
      invariant |bars| == handled
      invariant forall k :: 0 <= k < handled ==> bars[k] == ProgressBar(k + 1, total)
    {
      var future := completed[handled];
      if future.Err? {
        tally := Tally(success, failed, skipped);
        exitCode := 1;
        return;
      }
      var result := future.value;
      var i := handled + 1;
      assert Values(completed[..i])[..handled] == Values(completed[..handled]);
      if result.success {
        success := success + 1;
      } else if result.skipped {
        skipped := skipped + 1;
      } else {
        failed := failed + 1;
      }
      var pct := i * 100 / total;
      var bar := Repeat('#', pct / 5) + Repeat('-', 20 - pct / 5);
      bars := bars + [bar];
      handled := i;
    }
    tally := Tally(success, failed, skipped);
    exitCode := if tally.failed == 0 then 0 else 1;
  }

  const RequiredVars: seq<string> := ["R2_ENDPOINT", "R2_ACCESS_KEY_ID", "R2_SECRET_ACCESS_KEY"]

  /** A required variable counts as missing when unset or empty. */
  predicate CredentialsMissing(environ: map<string, string>) {
    exists v :: v in RequiredVars && (v !in environ || environ[v] == "")
  }

  /** The mapping entries whose old key has a file in the local cache. */
  function ToMigrate(mapping: map<string, MappingEntry>, cachedKeys: set<string>): (m: map<string, MappingEntry>)
    ensures m.Keys == mapping.Keys * cachedKeys
    ensures forall k :: k in m ==> m[k] == mapping[k]
  {
    map k | k in mapping && k in cachedKeys :: mapping[k]
  }

  /** main reaches the mapping: a dry run, or set credentials and an object-store
      client that `import boto3` and `boto3.client` created without raising. */
  predicate ReachesMapping(dryRun: bool, environ: map<string, string>, clientSetup: Attempt<()>) {
    dryRun || (!CredentialsMissing(environ) && clientSetup.Returned?)
  }

  /** main: check credentials, create the client, build the mapping, keep the
      cached keys, create the worker pool, and tally the migration results in the
      order the workers complete them. An exception (from creating the client,
      from a pool of `workers` <= 0, or raised again by a result) ends main with
      the interpreter's exit status 1. */
  method RunMigration(dryRun: bool, environ: map<string, string>, clientSetup: Attempt<()>, workers: int,
                      dirs: seq<EpisodeDir>, episodeFilter: Option<string>, keys: CacheKeys,
                      cachedKeys: set<string>, completed: seq<Result<MigrationResult>>)
    returns (exitCode: int)
    requires |completed| == |ToMigrate(MapOf(MappingWrites(dirs, episodeFilter, keys)), cachedKeys)|
    ensures !ReachesMapping(dryRun, environ, clientSetup) ==> exitCode == 1
    ensures ReachesMapping(dryRun, environ, clientSetup) && completed == [] ==> exitCode == 0
    ensures ReachesMapping(dryRun, environ, clientSetup) && completed != [] && workers <= 0 ==> exitCode == 1
    ensures ReachesMapping(dryRun, environ, clientSetup) && workers > 0 ==>
              (exitCode == 0 <==> (forall j :: 0 <= j < |completed| ==> completed[j].Ok?)
                                  && TallyOf(Values(completed)).failed == 0)
  {
    if !dryRun {
      var missing := [];
      for k := 0 to |RequiredVars|
        invariant (exists v :: v in RequiredVars[..k] && (v !in environ || environ[v] == "")) <==> missing != []
      {
        var v := RequiredVars[k];
        assert RequiredVars[..k + 1] == RequiredVars[..k] + [v];
        if v !in environ || environ[v] == "" {
          missing := missing + [v];
        }
      }
      assert RequiredVars[..|RequiredVars|] == RequiredVars;
      if missing != [] {
        return 1;
      }
      if clientSetup.Raised? {
        return 1;
      }
    }
    var mapping := BuildSegmentMapping(dirs, episodeFilter, keys);
    var toMigrate := ToMigrate(mapping, cachedKeys);
    if |toMigrate| == 0 {
      return 0;
    }
    if workers <= 0 {
      return 1;
    }
    var handled, tally, bars, code := SummarizeResults(completed);
    assert handled == |completed| ==> completed[..handled] == completed;
    return code;
  }
}
