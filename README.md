# Strollcast audio pipeline: a verified model

This project models, in Dafny, the sequential logic at the heart of three parts
of the Strollcast podcast pipeline. Every subprocess, network call, file-system
access, clock and hash is an outcome given to the model as a parameter.

- **The MP3 concatenation container** (`api/container/main.go`) is modelled in
  module `ConcatServer`. The class `Container` owns the shared `ContainerStatus`
  record. `HandleConcat` validates the request and records the job as
  processing. It then downloads the segments one by one, counting each, writes
  `list.txt`, runs ffmpeg, probes the duration, stats and uploads the output,
  and finally leaves the record idle or in error. `HandleStatus` reports the
  record. The external steps are fields of an `Env` value: the decoded body,
  the temp directory, cancellation at each check point, each download, the list
  write, ffmpeg, ffprobe, the float parser, stat and the upload. The ghost field
  `history` lists every value written to the record, and `removedDirs` lists the
  work directories removed on the way out.
  - Each method is proved against spec functions: `Job`, `ConcatWrites`,
    `ConcatReply` and `StatusAfter`.
  - Lemmas prove what the handler promises: validation before any write, the
    progress count growing by one, failures recording their message, success
    resetting the record, and 503 versus 500.
  - The pure helpers are modelled as functions, each with lemmas on its shape:
    the ffmpeg argument list, the concat list, the probe-output check, and the
    two transfer-acceptance rules.
- **The cache migration script** (`python/migrate_cache_to_r2.py`) is modelled
  in module `CacheMigration`. This covers:
  - `parse_podcast_script`, with the `**NAME:**` regular expression and the
    markdown clean-up written out by hand;
  - the voice choice and text preview of `build_segment_mapping`;
  - the classification of `migrate_segment`;
  - the result tally, progress bar and exit code of `main`.

  The loops are methods proved against spec functions (`SegmentsOf`, `MapOf` of
  `MappingWrites`, `TallyOf`).
- **The transcript writer** (`modal/src/audio.py`): `generate_webvtt` is
  modelled in module `Transcript`. The timestamp formatter is a parameter.
- `parse_loudnorm_stats` appears in both Python files. It is modelled once, in
  module `Loudnorm`, with the JSON decoder as a parameter.
- Module `Strings` holds the text operations that both languages provide:
  - `str.strip` and `strings.TrimSpace`, each with its own whitespace set;
  - `str.split`, `str.join`, `str.rfind`;
  - `%d`, `%04d` and `c * n`.

  It also proves the round trips these operations complete: join after split,
  split after join, and decimal value after decimal rendering.

`Wrappers` provides `Option` and `Result`.

## Model

| member | source | states |
|---|---|---|
| ConcatServer.SendError | api/container/main.go:404-412 | the reply has the given code, `success` false and `error` equal to the message |
| ConcatServer.DownloadFile | api/container/main.go:316-340 | a download succeeds exactly when GET answers with status 200 and creating and copying the file succeed |
| ConcatServer.UploadFile | api/container/main.go:342-374 | an upload succeeds exactly when open, stat and request building succeed and PUT answers with a status below 300 |
| ConcatServer.TransferAcceptanceDiffers | api/container/main.go:323 | for any code strictly between 200 and 300, the download fails with `GET returned <code>: <body>` while the upload succeeds |
| ConcatServer.GetDuration | api/container/main.go:376-402 | a duration is returned exactly when ffprobe ran and its trimmed output is neither empty nor `N/A` and parses as a number; the value is that parse |
| ConcatServer.BlankProbeOutputHasNoDuration | api/container/main.go:389-394 | output that is all whitespace, or that trims to `N/A`, gives the error "no duration found" |
| ConcatServer.SegmentPathsDistinct | api/container/main.go:203 | the files `segment_%04d.mp3` of two distinct indices are distinct |
| ConcatServer.ConcatListLines | api/container/main.go:209 | read back line by line, list.txt is one `file '<segment path>'` line per segment in request order, then the empty text after the final newline |
| ConcatServer.ConcatListTerminated | api/container/main.go:209 | the list content is its lines, each followed by a newline |
| ConcatServer.ListLines | api/container/main.go:194-215 | there is one list line per downloaded segment |
| ConcatServer.ListLinesSnoc | api/container/main.go:209 | each download appends exactly its own line to the list |
| ConcatServer.ListLineHasNoNewline | api/container/main.go:209 | a list line holds no newline when the work directory holds none |
| ConcatServer.FfmpegArgsShape | api/container/main.go:227-251 | the arguments are the 14 fixed arguments, then a `-metadata` pair per filled field, then `-y` and the output path; the length is 16 plus twice the number of filled fields |
| ConcatServer.MetadataTitleArgs | api/container/main.go:238-240 | a non-empty title gives the first pair `-metadata title=<title>`; an empty title adds nothing |
| ConcatServer.BuildFfmpegArgs | api/container/main.go:227-251 | the appended argument list equals the specified argument list |
| ConcatServer.AppendMetadata | api/container/main.go:238-249 | one conditional append adds the `-metadata key=value` pair when the value is set, and nothing otherwise |
| ConcatServer.FirstStop | api/container/main.go:194-207 | the download loop stops at the first index whose cancellation check or download fails; when none fails, every segment is downloaded |
| ConcatServer.Progress | api/container/main.go:212-214 | after k downloads there have been k progress writes |
| ConcatServer.ProgressSnoc | api/container/main.go:212-214 | the write after download i sets the download count to i+1 and changes nothing else |
| ConcatServer.AcceptedRequest | api/container/main.go:143-311 | an accepted request replies with the job's reply, writes Started and then the job's writes, removes the work directory it created, and leaves the job's final status |
| ConcatServer.StatusIsLastWrite | api/container/main.go:121-311 | the record after the handler is its last write, or the record from before when nothing was written |
| ConcatServer.DownloadedCount | api/container/main.go:194-215 | a failed job has counted at most as many downloads as there are segments |
| ConcatServer.RejectionWritesNothing | api/container/main.go:121-140 | a request is rejected exactly when no status is written; a rejection is 405 or 400 with `success` false; a method other than POST gets 405 "Method not allowed" |
| ConcatServer.AcceptedJobStarts | api/container/main.go:143-153 | an accepted job first writes state processing with its episode id, start time and segment total, a download count of 0 and no error |
| ConcatServer.AcceptedWrites | api/container/main.go:143-303 | the writes of an accepted job are: the start; one write per counted download, with count j at position j; then the final status. At most every segment is counted |
| ConcatServer.ProgressGrowsByOne | api/container/main.go:194-215 | every write after the first, except the last, adds exactly one to the download count and changes nothing else; the count never exceeds the total |
| ConcatServer.FailureRecordsMessage | api/container/main.go:156-163 | a failure after acceptance replies 500 or 503 with `success` false; its last write sets state error and lastError to the reply's message and keeps the rest of the record |
| ConcatServer.SuccessResetsStatus | api/container/main.go:294-311 | a 200 reply comes only from an accepted job; it has `success` true and no error; the last write is the idle record, after every segment was counted |
| ConcatServer.StopCodeFitsMessage | api/container/main.go:194-207 | a stop in the download loop is 503 with a cancellation message, or 500 with a message naming the failed download |
| ConcatServer.AfterDownloadsCodeFitsMessage | api/container/main.go:218-290 | a failure after the downloads is 503 with a cancellation message, or 500 with a message naming the failed step |
| ConcatServer.FailureCodes | api/container/main.go:170-290 | every failed job has code 503 with a cancellation message, or code 500 with a message naming the step that failed |
| ConcatServer.CancelledBeforeStart | api/container/main.go:182-187 | cancellation seen before the loop fails the job with 503 "Job cancelled: …" and no download counted |
| ConcatServer.FfmpegFailureCode | api/container/main.go:258-266 | a failed ffmpeg run gives 503 exactly when the context is done at that point, and 500 otherwise |
| ConcatServer.ProbeFailureNotFatal | api/container/main.go:269-290 | whatever ffprobe does, the job fails or succeeds the same way with the same file size; a failed probe gives duration 0 |
| ConcatServer.Container.constructor | api/container/main.go:38 | the record starts idle, with nothing written and nothing removed |
| ConcatServer.Container.HandleStatus | api/container/main.go:101-113 | GET returns 200 with the current record; any other method returns 405 "Method not allowed" |
| ConcatServer.Container.Publish | api/container/main.go:144-153 | a locked write sets the record and appends it to the history |
| ConcatServer.Container.HandleError | api/container/main.go:156-163 | the record keeps its job, total and count, takes state error and the message, and the reply is the error reply |
| ConcatServer.Container.DownloadSegments | api/container/main.go:194-215 | the loop stops at FirstStop; it wrote one progress write per counted download; when nothing stopped it, the list content is the full concat list |
| ConcatServer.Container.RecordProgress | api/container/main.go:212-214 | one progress write increments the download count by one |
| ConcatServer.Container.CheckAndDownload | api/container/main.go:195-207 | one loop round is the cancellation check, then the download of segment i to its own file |
| ConcatServer.Container.FinishJob | api/container/main.go:218-311 | writing the list, encoding and delivering end as AfterDownloads says, with exactly one final write |
| ConcatServer.Container.Encode | api/container/main.go:253-266 | the ffmpeg step ends as Encoding says, with exactly one final write |
| ConcatServer.Container.Deliver | api/container/main.go:268-311 | probe, stat and upload end as Delivery says, with exactly one final write |
| ConcatServer.Container.ProcessJob | api/container/main.go:182-311 | a job in a work directory writes its progress and its final status and replies as JobIn says |
| ConcatServer.Container.RunJob | api/container/main.go:165-311 | the accepted job writes as JobWrites says and replies as Job says, and the directory it created is removed |
| ConcatServer.Container.Validate | api/container/main.go:121-140 | the checks reject exactly as Rejection says: method, body, segments, output URL, in that order |
| ConcatServer.Container.Accept | api/container/main.go:143-311 | an accepted request writes Started, then the job's writes, and replies and leaves the record as the handler's specification says |
| ConcatServer.Container.HandleConcat | api/container/main.go:120-311 | the reply, the sequence of status writes, the final record and the removed directories are those of ConcatReply, ConcatWrites, StatusAfter and RemovedDirs |
| CacheMigration.UpperRun | python/migrate_cache_to_r2.py:91 | the run of capitals `[A-Z]+` is maximal: every character before it is a capital, and the next one is not |
| CacheMigration.UpToNewline | python/migrate_cache_to_r2.py:91 | `.*` matches the longest prefix holding no newline: it stops only at the end of the text or at its first newline |
| CacheMigration.LabelLength | python/migrate_cache_to_r2.py:91 | a label found means the line starts with `**`, one or more capitals and `:**` |
| CacheMigration.UpperRunStops | python/migrate_cache_to_r2.py:91 | a run of capitals ending at a non-capital is exactly the greedy match |
| CacheMigration.LabelOfSpeaker | python/migrate_cache_to_r2.py:91 | a line starting with `**SPEAKER:**` has a label of exactly the speaker's capitals |
| CacheMigration.LabelIsSpeakerTag | python/migrate_cache_to_r2.py:91 | conversely, every label is `**`, capitals and `:**` at the start of the line |
| CacheMigration.MatchedSpeaker | python/migrate_cache_to_r2.py:91-94 | the pattern matches exactly when a label is found, and the speaker group is the label's capitals |
| CacheMigration.RemoveLazySpans | python/migrate_cache_to_r2.py:97-98 | removing lazy spans never lengthens the text or adds characters |
| CacheMigration.SingleStarRemoval | python/migrate_cache_to_r2.py:99 | `replace('*', '')` removes every asterisk and nothing else |
| CacheMigration.DoubleStarRemoval | python/migrate_cache_to_r2.py:99 | `replace('**', '')` removes only asterisks |
| CacheMigration.StarsRemoved | python/migrate_cache_to_r2.py:99 | the two replaces together remove exactly the asterisks |
| CacheMigration.BracketNotesRemoved | python/migrate_cache_to_r2.py:98 | after removing `[...]` spans, no `[` is followed anywhere later by a `]` |
| CacheMigration.FilterKeepsNoBracketedNote | python/migrate_cache_to_r2.py:99 | deleting a character cannot create a `[...]` note |
| CacheMigration.SliceKeepsClean | python/migrate_cache_to_r2.py:99 | a slice of clean text is clean |
| CacheMigration.StripKeepsClean | python/migrate_cache_to_r2.py:99 | stripping keeps text clean |
| CacheMigration.CleanTextProperties | python/migrate_cache_to_r2.py:97-99 | cleaned text has no asterisk, no `[...]` note, and no leading or trailing whitespace |
| CacheMigration.ParseLine | python/migrate_cache_to_r2.py:87-102 | a segment from one line has speaker ERIC or MAYA and non-empty clean text, and the stripped line starts with that speaker's tag |
| CacheMigration.Collect | python/migrate_cache_to_r2.py:86-102 | keeping the matched lines yields no more segments than lines |
| CacheMigration.CollectAppend | python/migrate_cache_to_r2.py:86-102 | collecting over a concatenation yields the first part's results, then the second's |
| CacheMigration.SegmentsOf | python/migrate_cache_to_r2.py:86-102 | a script yields at most one segment per line |
| CacheMigration.SegmentsWellFormed | python/migrate_cache_to_r2.py:91-102 | every emitted segment is ERIC or MAYA with non-empty cleaned text |
| CacheMigration.SegmentsInLineOrder | python/migrate_cache_to_r2.py:86-103 | segments keep the order of the lines they come from |
| CacheMigration.UnlabelledLineYieldsNothing | python/migrate_cache_to_r2.py:87-94 | a blank line, or one without a leading `**NAME:**` once stripped, yields no segment |
| CacheMigration.TaggedLineMatches | python/migrate_cache_to_r2.py:91-94 | a line made of `**NAME:**` and a rest matches with NAME and the rest's first line, leading whitespace dropped |
| CacheMigration.KeptLine | python/migrate_cache_to_r2.py:87-102 | a stripped line `**ERIC:**` or `**MAYA:**` followed by text whose cleaned first line is not empty yields exactly that speaker and that cleaned text |
| CacheMigration.SegmentsStep | python/migrate_cache_to_r2.py:86-102 | each line adds its own segment, if any, after those of earlier lines |
| CacheMigration.ParsePodcastScript | python/migrate_cache_to_r2.py:80-104 | the parser's loop returns exactly the segments of the script's lines, every one well formed |
| CacheMigration.VoiceFor | python/migrate_cache_to_r2.py:176 | ERIC gets the ERIC voice; every other speaker gets the MAYA voice |
| CacheMigration.TextPreview | python/migrate_cache_to_r2.py:184 | the preview is the text when it has at most 50 characters, and otherwise its first 50 characters and `...`; it never exceeds 53 |
| CacheMigration.EpisodeWrites | python/migrate_cache_to_r2.py:174-186 | an episode writes one entry per segment, in order, keyed by the old key of the segment's text and voice |
| CacheMigration.MapOf | python/migrate_cache_to_r2.py:180-185 | every mapped key comes from a write of that key and entry |
| CacheMigration.LastWriteWins | python/migrate_cache_to_r2.py:180-185 | a key maps to the entry of the last write that names it, so a later segment with the same old key overwrites an earlier one |
| CacheMigration.EveryKeyMapped | python/migrate_cache_to_r2.py:180-185 | every written key is in the mapping |
| CacheMigration.MapOfSnoc | python/migrate_cache_to_r2.py:180-185 | one more write updates exactly its key |
| CacheMigration.EpisodeWritesStep | python/migrate_cache_to_r2.py:174-186 | each segment adds its own entry after those of the earlier segments |
| CacheMigration.MappingWritesStep | python/migrate_cache_to_r2.py:163-186 | an admitted directory adds its episode's writes; a skipped one adds nothing |
| CacheMigration.AddEpisode | python/migrate_cache_to_r2.py:174-186 | the inner loop leaves the mapping as the earlier writes followed by the episode's writes |
| CacheMigration.BuildSegmentMapping | python/migrate_cache_to_r2.py:156-187 | the mapping is the result of every admitted directory's writes, in directory order |
| CacheMigration.MigrateSegment | python/migrate_cache_to_r2.py:208-259 | an exception escapes exactly when the segment is cached, it is not a dry run, and creating the temporary file raises, normalize_audio raises, or normalisation succeeds and reading the file back raises. Otherwise the result carries the old key, new key and episode; it is skipped exactly when the segment is not in the local cache; it succeeds exactly when the segment is cached and it is a dry run or both normalisation and upload succeed; the error is set exactly when it did not succeed |
| CacheMigration.TallyOf | python/migrate_cache_to_r2.py:339-363 | the three counters sum to the number of results |
| CacheMigration.PercentAtMost100 | python/migrate_cache_to_r2.py:367 | for 1 ≤ i ≤ total the percentage lies between 0 and 100 |
| CacheMigration.ProgressBarShape | python/migrate_cache_to_r2.py:367-368 | for 1 ≤ i ≤ total the bar is exactly 20 characters: `pct//5` hashes, then dashes |
| CacheMigration.ProgressBarFull | python/migrate_cache_to_r2.py:367-368 | after the last result the bar is 20 hashes |
| CacheMigration.Values | python/migrate_cache_to_r2.py:355-356 | the results of futures that all returned are their values, in completion order |
| CacheMigration.SummarizeResults | python/migrate_cache_to_r2.py:339-383 | the loop handles the futures up to the first one that raised, and that one ends main with exit status 1. The counters are those of TallyOf over the handled results, each result increments exactly one of them (success before skipped), and one bar is drawn per handled result. When every future returned, the exit code is 0 exactly when nothing failed |
| CacheMigration.ToMigrate | python/migrate_cache_to_r2.py:318-319 | the entries kept are exactly those whose old key is in the local cache, unchanged |
| CacheMigration.RunMigration | python/migrate_cache_to_r2.py:288-383 | outside a dry run, missing credentials, or an exception from `import boto3` or `boto3.client`, give exit status 1. Otherwise nothing to migrate gives 0. A worker count of 0 or less makes creating the pool raise, which gives 1. With a positive worker count, the exit code is 0 exactly when no migration raised and no result failed |
| Loudnorm.ParseLoudnormStats | python/migrate_cache_to_r2.py:107-116 | without a `{`, or when the last `}` comes before the last `{`, the statistics are empty (the same function as modal/src/audio.py:13-22) |
| Loudnorm.DecodesLastBraceSlice | modal/src/audio.py:13-22 | when a `{` is followed by a `}` and neither occurs again later, the statistics are the decode of exactly the text from that `{` through that `}`, or empty when the decode fails |
| Transcript.LowerAll | modal/src/audio.py:196 | every character is lower-cased in place |
| Transcript.Capitalize | modal/src/audio.py:196 | the first character is upper-cased and every other one lower-cased; the length is kept |
| Transcript.Spoken | modal/src/audio.py:190-192 | the segments producing cues are the non-PAUSE ones, no more than the input |
| Transcript.BlocksLength | modal/src/audio.py:199-202 | four lines per cue give four times as many lines as cues |
| Transcript.BlockAt | modal/src/audio.py:199-204 | cue k occupies lines 4k to 4k+3 with number first+k |
| Transcript.CueBlockLength | modal/src/audio.py:199-202 | every cue is four lines |
| Transcript.CueAt | modal/src/audio.py:189-204 | the k-th spoken segment is cue number first+k at lines 4k to 4k+3 |
| Transcript.WebVttShape | modal/src/audio.py:187-206 | the transcript has 2 + 4n lines: `WEBVTT`, an empty line, then cues numbered 1..n in input order, each of number, `start --> end`, `<v Speaker>text`, empty line |
| Transcript.CueLinesAt | modal/src/audio.py:187-204 | cue k of the transcript comes after the two header lines |
| Transcript.SpokenSnoc | modal/src/audio.py:190-192 | one more segment adds itself to the cues unless it is a pause |
| Transcript.CuesSnoc | modal/src/audio.py:199-204 | one more spoken segment appends its cue with the next number |
| Transcript.LinesStep | modal/src/audio.py:190-204 | each input segment adds its four-line cue, numbered after the earlier ones, unless it is a pause |
| Transcript.PauseAddsNothing | modal/src/audio.py:191-192 | a PAUSE segment leaves the transcript as it was |
| Transcript.StartsWithHeader | modal/src/audio.py:187 | the joined transcript starts with `WEBVTT` and a newline |
| Transcript.AppendCue | modal/src/audio.py:194-202 | the four appends add exactly the cue's four lines |
| Transcript.GenerateWebVtt | modal/src/audio.py:177-206 | the loop's output is the newline join of the specified transcript lines |
| Strings.TrimLeft | api/container/main.go:389 | drops exactly the longest prefix of whitespace |
| Strings.TrimRight | api/container/main.go:389 | drops exactly the longest suffix of whitespace |
| Strings.Strip | python/migrate_cache_to_r2.py:87 | the result is a slice of the input with only whitespace outside it, and it neither starts nor ends with whitespace |
| Strings.FindFrom | python/migrate_cache_to_r2.py:97-98 | returns the first occurrence at or after the start index, or none when there is none |
| Strings.RFind | python/migrate_cache_to_r2.py:108-109 | -1 exactly when the character is absent; otherwise the last index holding it |
| Strings.Split | python/migrate_cache_to_r2.py:86 | splitting gives at least one part and no part holds the separator |
| Strings.JoinSplit | python/migrate_cache_to_r2.py:86 | joining the parts back with the separator gives the text that was split |
| Strings.SplitJoin | modal/src/audio.py:206 | splitting a join of separator-free parts gives the parts back |
| Strings.SplitNoSep | python/migrate_cache_to_r2.py:86 | text without the separator is a single part |
| Strings.SplitAround | python/migrate_cache_to_r2.py:86 | a separator splits the text exactly where it stands |
| Strings.SplitExtendLast | python/migrate_cache_to_r2.py:86 | appending separator-free text extends only the last part |
| Strings.AppendLine | api/container/main.go:209 | appending a line and a newline after a final newline adds that line as a part |
| Strings.SplitTerminated | api/container/main.go:209 | newline-terminated lines split back into the lines and a final empty part |
| Strings.NatToDecimal | modal/src/audio.py:199 | the rendering is a non-empty string of digits without a leading zero |
| Strings.DecimalRoundTrip | modal/src/audio.py:199 | the digits rendered denote the number |
| Strings.LeadingZerosIgnored | api/container/main.go:203 | leading zeros do not change the value |
| Strings.ZeroPadded | api/container/main.go:203 | `%04d` gives digits denoting the number, exactly four of them or the number's own digit count when that is larger |
| Strings.Repeat | python/migrate_cache_to_r2.py:368 | `c * n` is n copies of c, and empty when n is not positive |
| Strings.FilterOut | python/migrate_cache_to_r2.py:99 | the result holds no occurrence of the character and no new character |
| Strings.FilterOutAppend | python/migrate_cache_to_r2.py:99 | filtering distributes over concatenation |

## Left out

- HTTP serving and JSON are not modelled. The decoded request arrives as a
  `Result`, and the response is a value. The bodies of `http.Get`, the PUT
  request and the file copy are reduced to their outcomes
  (`DownloadSteps`, `UploadSteps`). So are `os.MkdirTemp`, `os.WriteFile`,
  `os.Stat` and the removal of the work directory.
- ffmpeg and ffprobe runs are outcomes. The same holds for `normalize_audio`,
  `generate_silence`, `concatenate_segments`, `get_audio_duration` and the
  normalisation and upload in `migrate_segment`.
- The status mutex, the signal handler, the context timeout and the worker
  pool are not modelled:
  - Cancellation is what the context reports at each check point.
  - The order in which the workers complete is the order of the `completed`
    results.
  - Two concurrent requests cannot interleave in the model.
- `handleHealth`, `main`'s server start and argument parsing, and all console
  output are left out.
- The float parse in `getDuration`, `format_vtt_timestamp` and the loudnorm
  values are parameters or opaque values. Floating point is not modelled.
- The SHA-256 and `json.dumps` cache keys are left out. The two key functions
  are parameters (`CacheKeys`).
- Other library behaviour is reduced or left out:
  - The episode glob is a sequence of directories in sorted order.
  - The cache-directory glob is a set of cached keys.
  - Reading a script file is its text, without Python's newline translation.
- ConcatServer.InDir: `filepath.Join(workDir, name)` is modelled as
  `workDir + "/" + name`. `os.MkdirTemp` does not clean the directory it
  builds from `$TMPDIR`, but `filepath.Join` does. So the model is exact only
  when `$TMPDIR` is a clean path, as the default `/tmp` is. With an unclean
  one such as `/var//tmp`, Go's paths in list.txt and in the ffmpeg arguments
  are the cleaned ones, and the model's are not.
- Transcript.Capitalize, Transcript.LowerAll: upper- and lower-casing are ASCII
  only. Python's `str.capitalize` also changes non-ASCII letters.
- The `StartedAt` time is an integer supplied by the caller (`now`), not a
  `time.Time`.
- Loudnorm.ParseLoudnormStats: the decode step is a parameter. The lemma
  `Loudnorm.DecodesLastBraceSlice` states that exactly the text from the last
  `{` through the last `}` is decoded.
- The mapping that `build_segment_mapping` returns is stated as the result of
  its writes (`MapOf`), not as a property of each entry.
- CacheMigration.RunMigration: the results of `migrate_segment` arrive in
  `completed`, each a returned result or a raised exception. Whether creating
  the object-store client raises is an input (`clientSetup`). The model does not
  tie each result to its entry of the mapping.
- CacheMigration.ParsePodcastScript, CacheMigration.BuildSegmentMapping:
  opening or decoding a script file can raise (python/migrate_cache_to_r2.py:82),
  and that ends `main` with a traceback. The model is given each script's text
  and does not model that exception.
- CacheMigration.MigrateSegment: the exceptions it models are those of creating
  the temporary file, `normalize_audio` (running ffmpeg, or decoding its
  output as text) and reading the normalised file back. An exception from
  checking that the cached file exists, or from removing the temporary file in
  the `finally` clause, is not modelled.
