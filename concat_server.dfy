/** The MP3 concatenation server that runs in the container: the /concat and
    /status handlers, the container status record they share, and the pure
    helpers that build the ffmpeg command, the concat list and the duration.
    HTTP, files, ffmpeg, ffprobe, the clock and cancellation are outcomes given
    to the model in an Env value; the status mutex is not modelled. */
module ConcatServer {
  import opened Wrappers
  import opened Strings

  // ---------- Status and request types ----------

  /** The states "idle", "processing" and "error" of the status record. */
  datatype State = Idle | Processing | Error

  /** ContainerStatus; StartedAt is absent (nil) or a time given as an integer. */
  datatype Status = Status(
    state: State, jobId: string, startedAt: Option<int>,
    segmentsTotal: int, segmentsDownloaded: int, lastError: string)

  /** The status at start-up and after a successful job. */
  const IdleStatus: Status := Status(Idle, "", None, 0, 0, "")

  datatype Metadata = Metadata(title: string, artist: string, album: string, genre: string)

  datatype ConcatRequest = ConcatRequest(episodeId: string, segments: seq<string>, outputUrl: string, metadata: Metadata)

  /** ConcatResponse; an empty error is left out of the JSON. */
  datatype ConcatResponse = ConcatResponse(success: bool, durationSeconds: real, fileSize: int, error: string)

  datatype Body = ConcatBody(response: ConcatResponse) | StatusBody(status: Status)

  /** An HTTP reply: its status code and its JSON body. */
  datatype Reply = Reply(code: int, body: Body)

  const StatusOK: int := 200
  const StatusBadRequest: int := 400
  const StatusMethodNotAllowed: int := 405
  const StatusInternalServerError: int := 500
  const StatusServiceUnavailable: int := 503

  /** sendError: the given code and a failed response carrying the message. */
  function SendError(message: string, code: int): (r: Reply)
    ensures r.code == code && r.body.ConcatBody?
    ensures !r.body.response.success && r.body.response.error == message
  {
    Reply(code, ConcatBody(ConcatResponse(false, 0.0, 0, message)))
  }

  // ---------- Outcomes of the outside world ----------

  /** The two errors a done context reports. */
  datatype CtxErr = Canceled | DeadlineExceeded

  function CtxMessage(e: CtxErr): string {
    match e
    case Canceled => "context canceled"
    case DeadlineExceeded => "context deadline exceeded"
  }

  datatype IoResult = IoOk | IoFailed(err: string)

  /** An HTTP exchange: no reply (with the client's error) or a reply with its code and body. */
  datatype HttpReply = NoReply(err: string) | HttpResponse(statusCode: int, body: string)

  /** The steps of downloadFile: GET, create the file, copy the body into it. */
  datatype DownloadSteps = DownloadSteps(get: HttpReply, create: IoResult, copy: IoResult)

  /** The steps of uploadFile: open, stat, build the request, PUT. */
  datatype UploadSteps = UploadSteps(open: IoResult, stat: IoResult, newRequest: IoResult, put: HttpReply)

  datatype FfmpegRun = FfmpegOk | FfmpegFailed(err: string, stderr: string)

  datatype ProbeRun = ProbeFailed(err: string) | ProbeOutput(stdout: string)

  /** Everything the handler learns from outside. ctxErr(c) is what ctx.Err()
      reports at check point c: 0 before the downloads, 1 + i before downloading
      segment i, and 1 + n after ffmpeg fails (n segments). */
  datatype Env = Env(
    body: Result<ConcatRequest>,
    now: int,
    mkdirTemp: Result<string>,
    ctxErr: nat -> Option<CtxErr>,
    download: (string, string) -> DownloadSteps,
    writeFile: (string, string) -> IoResult,
    ffmpeg: seq<string> -> FfmpegRun,
    probe: string -> ProbeRun,
    parseFloat: string -> Result<real>,
    stat: string -> Result<int>,
    upload: (string, string) -> UploadSteps)

  // ---------- downloadFile, uploadFile, getDuration ----------

  /** downloadFile: the error it returns, if any. Only status 200 is accepted. */
  function DownloadFile(steps: DownloadSteps): (err: Option<string>)
    ensures err.None? <==> (steps.get.HttpResponse? && steps.get.statusCode == 200
                            && steps.create.IoOk? && steps.copy.IoOk?)
  {
    match steps.get
    case NoReply(e) => Some("GET failed: " + e)
    case HttpResponse(code, body) =>
      if code != StatusOK then Some("GET returned " + IntToDecimal(code) + ": " + body)
      else if steps.create.IoFailed? then Some("create file failed: " + steps.create.err)
      else if steps.copy.IoFailed? then Some("copy failed: " + steps.copy.err)
      else None
  }

  /** uploadFile: the error it returns, if any. Every status below 300 is accepted. */
  function UploadFile(steps: UploadSteps): (err: Option<string>)
    ensures err.None? <==> (steps.open.IoOk? && steps.stat.IoOk? && steps.newRequest.IoOk?
                            && steps.put.HttpResponse? && steps.put.statusCode < 300)
  {
    if steps.open.IoFailed? then Some("open file failed: " + steps.open.err)
    else if steps.stat.IoFailed? then Some("stat file failed: " + steps.stat.err)
    else if steps.newRequest.IoFailed? then Some("create request failed: " + steps.newRequest.err)
    else
      match steps.put
      case NoReply(e) => Some("PUT failed: " + e)
      case HttpResponse(code, body) =>
        if code >= 300 then Some("PUT returned " + IntToDecimal(code) + ": " + body) else None
  }

  /** The two transfers disagree on 2xx codes other than 200: a download answered
      with one of them fails, an upload answered with it succeeds. */
  lemma TransferAcceptanceDiffers(code: int, body: string)
    requires 200 < code < 300
    ensures DownloadFile(DownloadSteps(HttpResponse(code, body), IoOk, IoOk)) == Some("GET returned " + IntToDecimal(code) + ": " + body)
    ensures UploadFile(UploadSteps(IoOk, IoOk, IoOk, HttpResponse(code, body))).None?
  {
  }

  /** getDuration: ffprobe's output, trimmed, must be a number; empty output and
      N/A are errors. The float parser is a parameter. */
  function GetDuration(probe: ProbeRun, parseFloat: string -> Result<real>): (d: Result<real>)
    ensures d.Ok? <==> (probe.ProbeOutput?
                        && Strip(probe.stdout, IsGoSpace) != "" && Strip(probe.stdout, IsGoSpace) != "N/A"
                        && parseFloat(Strip(probe.stdout, IsGoSpace)).Ok?)
    ensures d.Ok? ==> parseFloat(Strip(probe.stdout, IsGoSpace)) == d
  {
    match probe
    case ProbeFailed(e) => Err(e)
    case ProbeOutput(output) =>
      var durationStr := Strip(output, IsGoSpace);
      if durationStr == "" || durationStr == "N/A" then Err("no duration found")
      else
        match parseFloat(durationStr)
        case Err(e) => Err("parse duration failed: " + e)
        case Ok(duration) => Ok(duration)
  }

  /** Output that is only whitespace, or N/A with whitespace around it, has no duration. */
  lemma BlankProbeOutputHasNoDuration(output: string, parseFloat: string -> Result<real>)
    requires (forall i :: 0 <= i < |output| ==> IsGoSpace(output[i])) || Strip(output, IsGoSpace) == "N/A"
    ensures GetDuration(ProbeOutput(output), parseFloat) == Err("no duration found")
  {
    var r := Strip(output, IsGoSpace);
    if r != [] && r != "N/A" {
      assert false;
    }
  }

  // ---------- Paths, concat list and ffmpeg arguments ----------

  /** filepath.Join(workDir, name) for a clean workDir and a plain file name. */
  function InDir(workDir: string, name: string): string {
    workDir + "/" + name
  }

  /** The file segment i is downloaded to: segment_%04d.mp3 in the work directory. */
  function SegmentPath(workDir: string, i: nat): string {
    InDir(workDir, "segment_" + ZeroPadded(i, 4) + ".mp3")
  }

  /** Distinct segments go to distinct files. */
  lemma SegmentPathsDistinct(workDir: string, i: nat, j: nat)
    requires i != j
    ensures SegmentPath(workDir, i) != SegmentPath(workDir, j)
  {
    var a := ZeroPadded(i, 4);
    var b := ZeroPadded(j, 4);
    var k := |workDir| + 9;
    assert SegmentPath(workDir, i)[k..k + |a|] == a;
    assert SegmentPath(workDir, j)[k..k + |b|] == b;
    assert |SegmentPath(workDir, i)| == k + |a| + 4;
    assert |SegmentPath(workDir, j)| == k + |b| + 4;
  }

  /** The concat list line for segment i. */
  function ListLine(workDir: string, i: nat): string {
    "file '" + SegmentPath(workDir, i) + "'"
  }

  /** The content of list.txt after the first n downloads: one line per segment. */
  function ConcatList(workDir: string, n: nat): string {
    if n == 0 then "" else ConcatList(workDir, n - 1) + ListLine(workDir, n - 1) + "\n"
  }

  /** Read back line by line, the list holds exactly one `file` line per segment,
      in request order, and ends with a newline. */
  lemma ConcatListLines(workDir: string, n: nat)
    requires '\n' !in workDir
    ensures Split(ConcatList(workDir, n), '\n') == ListLines(workDir, n) + [""]
  {
    ConcatListTerminated(workDir, n);
    forall i | 0 <= i < n
      ensures '\n' !in ListLines(workDir, n)[i]
    {
      ListLineHasNoNewline(workDir, i);
    }
    SplitTerminated(ListLines(workDir, n), '\n');
  }

  /** The list is its lines, each ended by a newline. */
  lemma {:induction false} ConcatListTerminated(workDir: string, n: nat)
    ensures ConcatList(workDir, n) == Terminated(ListLines(workDir, n), '\n')
  {
    if n > 0 {
      ConcatListTerminated(workDir, n - 1);
      ListLinesSnoc(workDir, n - 1);
      var lines := ListLines(workDir, n);
      assert lines[..n - 1] == ListLines(workDir, n - 1);
    }
  }

  /** The lines of the list, one per segment in request order. */
  function ListLines(workDir: string, n: nat): (lines: seq<string>)
    ensures |lines| == n
  {
    seq(n, i requires 0 <= i => ListLine(workDir, i))
  }

  /** One more segment adds its line at the end of the list. */
  lemma ListLinesSnoc(workDir: string, n: nat)
    ensures ListLines(workDir, n + 1) == ListLines(workDir, n) + [ListLine(workDir, n)]
  {
  }

  lemma ListLineHasNoNewline(workDir: string, i: nat)
    requires '\n' !in workDir
    ensures '\n' !in ListLine(workDir, i)
  {
    assert AllDigits(ZeroPadded(i, 4));
  }

  /** The fixed part of the ffmpeg arguments: concat demuxer, loudness
      normalisation to -16 LUFS, LAME at 128k and 44.1 kHz. */
  function FfmpegPrefix(listFile: string): seq<string> {
    ["-f", "concat", "-safe", "0", "-i", listFile,
     "-af", "loudnorm=I=-16:TP=-1.5:LRA=11", "-c:a", "libmp3lame", "-b:a", "128k", "-ar", "44100"]
  }

  /** A `-metadata key=value` pair for a non-empty value (the key ends in `=`), nothing for an empty one. */
  function MetadataTag(key: string, value: string): seq<string> {
    if value == "" then [] else ["-metadata", key + value]
  }

  function MetadataArgs(m: Metadata): seq<string> {
    MetadataTag("title=", m.title) + MetadataTag("artist=", m.artist)
    + MetadataTag("album=", m.album) + MetadataTag("genre=", m.genre)
  }

  /** The number of non-empty metadata fields. */
  function FilledFields(m: Metadata): nat {
    (if m.title == "" then 0 else 1) + (if m.artist == "" then 0 else 1)
    + (if m.album == "" then 0 else 1) + (if m.genre == "" then 0 else 1)
  }

  function FfmpegArgs(listFile: string, m: Metadata, outputPath: string): seq<string> {
    FfmpegPrefix(listFile) + MetadataArgs(m) + ["-y", outputPath]
  }

  /** The argument list: the 14 fixed arguments, one pair per filled metadata field
      in the order title, artist, album, genre, then `-y` and the output path. */
  lemma FfmpegArgsShape(listFile: string, m: Metadata, outputPath: string)
    ensures var args := FfmpegArgs(listFile, m, outputPath);
            && |args| == 16 + 2 * FilledFields(m)
            && args[..14] == FfmpegPrefix(listFile)
            && args[14..|args| - 2] == MetadataArgs(m)
            && args[|args| - 2..] == ["-y", outputPath]
            && (forall k :: 0 <= k < FilledFields(m) ==> args[14 + 2 * k] == "-metadata")
  {
    var md := MetadataArgs(m);
    assert |md| == 2 * FilledFields(m);
    var args := FfmpegArgs(listFile, m, outputPath);
    assert args == FfmpegPrefix(listFile) + (md + ["-y", outputPath]);
    assert args[14..] == md + ["-y", outputPath];
    forall k | 0 <= k < FilledFields(m) ensures args[14 + 2 * k] == "-metadata" {
      assert args[14 + 2 * k] == md[2 * k];
    }
  }

  /** A filled field's pair is present; an emptied field adds nothing. */
  lemma MetadataTitleArgs(m: Metadata)
    ensures m.title != "" ==> MetadataArgs(m)[..2] == ["-metadata", "title=" + m.title]
    ensures MetadataArgs(m.(title := "")) == MetadataTag("artist=", m.artist) + MetadataTag("album=", m.album) + MetadataTag("genre=", m.genre)
  {
    var rest := MetadataTag("artist=", m.artist) + MetadataTag("album=", m.album) + MetadataTag("genre=", m.genre);
    assert MetadataArgs(m) == MetadataTag("title=", m.title) + rest;
    if m.title != "" {
      assert MetadataArgs(m)[..2] == MetadataTag("title=", m.title);
    }
    assert MetadataArgs(m.(title := "")) == [] + rest;
  }

  // ---------- The job as a specification ----------

  /** Where and why the download loop stopped. */
  datatype Stop = Stop(index: nat, message: string, code: int)

  /** The cancellation check and the download of segment i. */
  function DownloadStop(req: ConcatRequest, workDir: string, env: Env, i: nat): Option<Stop>
    requires i < |req.segments|
  {
    match env.ctxErr(1 + i)
    case Some(e) => Some(Stop(i, "Job cancelled during download: " + CtxMessage(e), StatusServiceUnavailable))
    case None =>
      match DownloadFile(env.download(req.segments[i], SegmentPath(workDir, i)))
      case Some(err) => Some(Stop(i, "Failed to download segment " + NatToDecimal(i) + ": " + err, StatusInternalServerError))
      case None => None
  }

  /** The first segment, from index `from` on, at which the loop stops. */
  function FirstStop(req: ConcatRequest, workDir: string, env: Env, from: nat): (stop: Option<Stop>)
    requires from <= |req.segments|
    ensures stop.Some? ==> from <= stop.value.index < |req.segments|
                           && DownloadStop(req, workDir, env, stop.value.index) == stop
                           && forall j :: from <= j < stop.value.index ==> DownloadStop(req, workDir, env, j).None?
    ensures stop.None? ==> forall j :: from <= j < |req.segments| ==> DownloadStop(req, workDir, env, j).None?
    decreases |req.segments| - from
  {
    if from == |req.segments| then None
    else if DownloadStop(req, workDir, env, from).Some? then DownloadStop(req, workDir, env, from)
    else FirstStop(req, workDir, env, from + 1)
  }

  /** How a job that passed validation ends: failed after `downloaded` segments
      with a message and a code, or done with a duration and a file size. */
  datatype JobEnd = Failed(downloaded: nat, message: string, code: int) | Done(duration: real, fileSize: int)

  /** From writing list.txt to the upload, once every segment is downloaded. */
  function AfterDownloads(req: ConcatRequest, workDir: string, env: Env): JobEnd {
    var n := |req.segments|;
    var write := env.writeFile(InDir(workDir, "list.txt"), ConcatList(workDir, n));
    if write.IoFailed? then Failed(n, "Failed to write list file: " + write.err, StatusInternalServerError)
    else Encoding(req, workDir, env)
  }

  /** The ffmpeg run over list.txt; a failure is a cancellation when the
      context is done by then. */
  function Encoding(req: ConcatRequest, workDir: string, env: Env): JobEnd {
    var n := |req.segments|;
    var outputPath := InDir(workDir, "output.mp3");
    match env.ffmpeg(FfmpegArgs(InDir(workDir, "list.txt"), req.metadata, outputPath))
    case FfmpegFailed(err, stderr) =>
      if env.ctxErr(1 + n).Some? then
        Failed(n, "FFmpeg cancelled: " + CtxMessage(env.ctxErr(1 + n).value), StatusServiceUnavailable)
      else
        Failed(n, "FFmpeg failed: " + err + "\nStderr: " + stderr, StatusInternalServerError)
    case FfmpegOk => Delivery(req, outputPath, env)
  }

  /** After ffmpeg succeeded: probe the duration (0 when it cannot be had),
      stat the output and upload it. */
  function Delivery(req: ConcatRequest, outputPath: string, env: Env): JobEnd {
    var n := |req.segments|;
    var duration := match GetDuration(env.probe(outputPath), env.parseFloat)
                    case Ok(d) => d
                    case Err(_) => 0.0;
    match env.stat(outputPath)
    case Err(e) => Failed(n, "Failed to stat output file: " + e, StatusInternalServerError)
    case Ok(fileSize) =>
      match UploadFile(env.upload(outputPath, req.outputUrl))
      case Some(e) => Failed(n, "Failed to upload result: " + e, StatusInternalServerError)
      case None => Done(duration, fileSize)
  }

  /** The job once its work directory exists. */
  function JobIn(req: ConcatRequest, workDir: string, env: Env): JobEnd {
    match env.ctxErr(0)
    case Some(e) => Failed(0, "Job cancelled: " + CtxMessage(e), StatusServiceUnavailable)
    case None =>
      match FirstStop(req, workDir, env, 0)
      case Some(stop) => Failed(stop.index, stop.message, stop.code)
      case None => AfterDownloads(req, workDir, env)
  }

  /** The job that handleConcat runs after accepting req. */
  function Job(req: ConcatRequest, env: Env): JobEnd {
    match env.mkdirTemp
    case Err(e) => Failed(0, "Failed to create temp dir: " + e, StatusInternalServerError)
    case Ok(workDir) => JobIn(req, workDir, env)
  }

  /** The reply to a request that fails validation, if it does. */
  function Rejection(verb: string, body: Result<ConcatRequest>): Option<Reply> {
    if verb != "POST" then Some(SendError("Method not allowed", StatusMethodNotAllowed))
    else if body.Err? then Some(SendError("Invalid request body: " + body.error, StatusBadRequest))
    else if |body.value.segments| == 0 then Some(SendError("No segments provided", StatusBadRequest))
    else if body.value.outputUrl == "" then Some(SendError("No output URL provided", StatusBadRequest))
    else None
  }

  /** The status written when a job is accepted. */
  function Started(req: ConcatRequest, now: int): Status {
    Status(Processing, req.episodeId, Some(now), |req.segments|, 0, "")
  }

  /** The progress writes after the first k downloads. */
  function Progress(started: Status, k: nat): (p: seq<Status>)
    ensures |p| == k
  {
    seq(k, j requires 0 <= j => started.(segmentsDownloaded := j + 1))
  }

  /** The status a job leaves behind. */
  function FinalStatus(started: Status, end: JobEnd): Status {
    match end
    case Failed(k, message, _) => started.(segmentsDownloaded := k, state := Error, lastError := message)
    case Done(_, _) => IdleStatus
  }

  /** The status writes of an accepted job after the first one, in order. */
  function JobWrites(started: Status, end: JobEnd, n: nat): seq<Status> {
    Progress(started, if end.Failed? then end.downloaded else n) + [FinalStatus(started, end)]
  }

  function JobReply(end: JobEnd): Reply {
    match end
    case Failed(_, message, code) => SendError(message, code)
    case Done(duration, fileSize) => Reply(StatusOK, ConcatBody(ConcatResponse(true, duration, fileSize, "")))
  }

  /** Every status handleConcat writes, in order. */
  function ConcatWrites(verb: string, env: Env): seq<Status> {
    if Rejection(verb, env.body).Some? then []
    else
      var req := env.body.value;
      [Started(req, env.now)] + JobWrites(Started(req, env.now), Job(req, env), |req.segments|)
  }

  /** handleConcat's reply. */
  function ConcatReply(verb: string, env: Env): Reply {
    match Rejection(verb, env.body)
    case Some(reply) => reply
    case None => JobReply(Job(env.body.value, env))
  }

  /** The work directories handleConcat removes when it returns. */
  function RemovedDirs(verb: string, env: Env): seq<string> {
    if Rejection(verb, env.body).None? then JobDirs(env) else []
  }

  /** What handleConcat does with a request that passes validation. */
  lemma AcceptedRequest(verb: string, env: Env, before: Status)
    requires Rejection(verb, env.body).None?
    ensures var req := env.body.value;
            var started := Started(req, env.now);
            && ConcatReply(verb, env) == JobReply(Job(req, env))
            && ConcatWrites(verb, env) == [started] + JobWrites(started, Job(req, env), |req.segments|)
            && RemovedDirs(verb, env) == JobDirs(env)
            && StatusAfter(verb, env, before) == FinalStatus(started, Job(req, env))
  {
  }

  /** The status record after handleConcat, given the one before it. */
  function StatusAfter(verb: string, env: Env, before: Status): Status {
    if Rejection(verb, env.body).Some? then before
    else
      var req := env.body.value;
      FinalStatus(Started(req, env.now), Job(req, env))
  }

  /** handleConcat leaves the record as its last write says, and untouched when it writes nothing. */
  lemma StatusIsLastWrite(verb: string, env: Env, before: Status)
    ensures var w := ConcatWrites(verb, env);
            StatusAfter(verb, env, before) == if w == [] then before else w[|w| - 1]
  {
  }

  /** The work directory an accepted job creates, if it does. */
  function JobDirs(env: Env): seq<string> {
    if env.mkdirTemp.Ok? then [env.mkdirTemp.value] else []
  }

  // ---------- Properties of the job ----------

  /** The number of downloads a job completed before it ended. */
  lemma DownloadedCount(req: ConcatRequest, env: Env)
    ensures Job(req, env).Failed? ==> Job(req, env).downloaded <= |req.segments|
  {
  }

  /** Validation comes first: a rejected request gets 405 or 400 and writes no
      status; an accepted one always writes. */
  lemma RejectionWritesNothing(verb: string, env: Env)
    ensures Rejection(verb, env.body).Some? <==> ConcatWrites(verb, env) == []
    ensures Rejection(verb, env.body).Some? ==>
              ConcatReply(verb, env).code in {StatusMethodNotAllowed, StatusBadRequest}
              && !ConcatReply(verb, env).body.response.success
    ensures verb != "POST" ==> ConcatReply(verb, env) == SendError("Method not allowed", StatusMethodNotAllowed)
  {
  }

  /** Accepting a job records it as processing with no download done yet. */
  lemma AcceptedJobStarts(verb: string, env: Env)
    requires Rejection(verb, env.body).None?
    ensures var w := ConcatWrites(verb, env);
            var req := env.body.value;
            && |w| >= 2
            && w[0] == Status(Processing, req.episodeId, Some(env.now), |req.segments|, 0, "")
  {
  }

  /** The writes of an accepted job, one by one: the start, one write per
      download counted, and the final status. */
  lemma AcceptedWrites(verb: string, env: Env)
    requires Rejection(verb, env.body).None?
    ensures var req := env.body.value;
            var started := Started(req, env.now);
            var end := Job(req, env);
            var k := if end.Failed? then end.downloaded else |req.segments|;
            var w := ConcatWrites(verb, env);
            && k <= |req.segments|
            && |w| == k + 2 && w[0] == started && w[k + 1] == FinalStatus(started, end)
            && forall j :: 1 <= j <= k ==> w[j] == started.(segmentsDownloaded := j)
  {
    var req := env.body.value;
    var started := Started(req, env.now);
    var end := Job(req, env);
    DownloadedCount(req, env);
    var k := if end.Failed? then end.downloaded else |req.segments|;
    var p := Progress(started, k);
    AcceptedRequest(verb, env, IdleStatus);
    AppendAssoc([started], p, [FinalStatus(started, end)]);
    var w := ConcatWrites(verb, env);
    assert w == [started] + p + [FinalStatus(started, end)];
    forall j | 1 <= j <= k
      ensures w[j] == started.(segmentsDownloaded := j)
    {
      assert w[j] == p[j - 1];
    }
  }

  /** Between the first and the last write, each write counts one more download
      and changes nothing else; the count never exceeds the total. */
  lemma ProgressGrowsByOne(verb: string, env: Env)
    requires Rejection(verb, env.body).None?
    ensures var w := ConcatWrites(verb, env);
            && (forall k :: 1 <= k < |w| - 1 ==>
                  w[k] == w[k - 1].(segmentsDownloaded := w[k - 1].segmentsDownloaded + 1))
            && (forall k :: 0 <= k < |w| - 1 ==> w[k].segmentsDownloaded == k <= w[k].segmentsTotal)
  {
    AcceptedWrites(verb, env);
  }

  /** A failure after acceptance marks the status as error with exactly the message
      of the reply, and leaves the job, the total and the download count alone. */
  lemma FailureRecordsMessage(verb: string, env: Env)
    requires Rejection(verb, env.body).None?
    requires ConcatReply(verb, env).code != StatusOK
    ensures var w := ConcatWrites(verb, env);
            var r := ConcatReply(verb, env);
            && r.code in {StatusInternalServerError, StatusServiceUnavailable}
            && !r.body.response.success
            && w[|w| - 1] == w[|w| - 2].(state := Error, lastError := r.body.response.error)
  {
    AcceptedWrites(verb, env);
    AcceptedRequest(verb, env, IdleStatus);
    FailureCodes(env.body.value, env);
  }

  /** Success resets the status to idle after every segment was counted, and the
      reply carries no error. */
  lemma SuccessResetsStatus(verb: string, env: Env)
    requires ConcatReply(verb, env).code == StatusOK
    ensures var w := ConcatWrites(verb, env);
            var r := ConcatReply(verb, env);
            && Rejection(verb, env.body).None?
            && r.body.response.success && r.body.response.error == ""
            && w[|w| - 1] == IdleStatus
            && w[|w| - 2].segmentsDownloaded == |env.body.value.segments|
  {
    AcceptedWrites(verb, env);
    AcceptedRequest(verb, env, IdleStatus);
  }

  /** A failed job's code tells cancellation from failure: 503 carries a
      cancellation message, and 500 a message that names the step that failed. */
  ghost predicate CodeFitsMessage(code: int, message: string) {
    && (code == StatusServiceUnavailable || code == StatusInternalServerError)
    && (code == StatusServiceUnavailable ==>
          exists e: CtxErr :: message in {"Job cancelled: " + CtxMessage(e),
                                          "Job cancelled during download: " + CtxMessage(e),
                                          "FFmpeg cancelled: " + CtxMessage(e)})
    && (code == StatusInternalServerError ==>
          |message| >= 14 && (message[..7] == "Failed " || message[..14] == "FFmpeg failed:"))
  }

  lemma StopCodeFitsMessage(req: ConcatRequest, workDir: string, env: Env, i: nat)
    requires i < |req.segments| && DownloadStop(req, workDir, env, i).Some?
    ensures var stop := DownloadStop(req, workDir, env, i).value;
            CodeFitsMessage(stop.code, stop.message)
  {
    var stop := DownloadStop(req, workDir, env, i).value;
    if env.ctxErr(1 + i).Some? {
      assert stop.message == "Job cancelled during download: " + CtxMessage(env.ctxErr(1 + i).value);
    } else {
      assert stop.message[..7] == "Failed ";
    }
  }

  lemma AfterDownloadsCodeFitsMessage(req: ConcatRequest, workDir: string, env: Env)
    requires AfterDownloads(req, workDir, env).Failed?
    ensures var end := AfterDownloads(req, workDir, env);
            CodeFitsMessage(end.code, end.message)
  {
    var end := AfterDownloads(req, workDir, env);
    var n := |req.segments|;
    var outputPath := InDir(workDir, "output.mp3");
    var write := env.writeFile(InDir(workDir, "list.txt"), ConcatList(workDir, n));
    if write.IoFailed? {
      StartsWith("Failed to write list file: ", write.err, 7);
    } else if env.ffmpeg(FfmpegArgs(InDir(workDir, "list.txt"), req.metadata, outputPath)).FfmpegFailed? {
      var run := env.ffmpeg(FfmpegArgs(InDir(workDir, "list.txt"), req.metadata, outputPath));
      if env.ctxErr(1 + n).Some? {
        var e := env.ctxErr(1 + n).value;
        assert end.message == "FFmpeg cancelled: " + CtxMessage(e);
        assert end.message in {"Job cancelled: " + CtxMessage(e),
                               "Job cancelled during download: " + CtxMessage(e),
                               "FFmpeg cancelled: " + CtxMessage(e)};
      } else {
        StartsWith("FFmpeg failed: ", run.err + "\nStderr: " + run.stderr, 14);
      }
    } else if env.stat(outputPath).Err? {
      assert end == Delivery(req, outputPath, env);
      StartsWith("Failed to stat output file: ", env.stat(outputPath).error, 7);
    } else {
      assert end == Delivery(req, outputPath, env);
      StartsWith("Failed to upload result: ", UploadFile(env.upload(outputPath, req.outputUrl)).value, 7);
    }
  }

  lemma StartsWith(prefix: string, rest: string, k: nat)
    requires k <= |prefix|
    ensures |prefix + rest| >= |prefix| && (prefix + rest)[..k] == prefix[..k]
  {
  }

  /** Cancellation is told apart from failure in every failed job. */
  lemma FailureCodes(req: ConcatRequest, env: Env)
    requires Job(req, env).Failed?
    ensures CodeFitsMessage(Job(req, env).code, Job(req, env).message)
  {
    var end := Job(req, env);
    if env.mkdirTemp.Ok? {
      var workDir := env.mkdirTemp.value;
      if env.ctxErr(0).Some? {
        assert end.message == "Job cancelled: " + CtxMessage(env.ctxErr(0).value);
      } else if FirstStop(req, workDir, env, 0).Some? {
        StopCodeFitsMessage(req, workDir, env, FirstStop(req, workDir, env, 0).value.index);
      } else {
        AfterDownloadsCodeFitsMessage(req, workDir, env);
      }
    }
  }

  /** A cancellation seen before the first download fails the job with 503. */
  lemma CancelledBeforeStart(req: ConcatRequest, env: Env)
    requires env.mkdirTemp.Ok? && env.ctxErr(0).Some?
    ensures Job(req, env) == Failed(0, "Job cancelled: " + CtxMessage(env.ctxErr(0).value), StatusServiceUnavailable)
  {
  }

  /** A failed ffmpeg run answers 503 exactly when the context is done by then. */
  lemma FfmpegFailureCode(req: ConcatRequest, workDir: string, env: Env)
    requires env.writeFile(InDir(workDir, "list.txt"), ConcatList(workDir, |req.segments|)).IoOk?
    requires env.ffmpeg(FfmpegArgs(InDir(workDir, "list.txt"), req.metadata, InDir(workDir, "output.mp3"))).FfmpegFailed?
    ensures AfterDownloads(req, workDir, env).Failed?
    ensures AfterDownloads(req, workDir, env).code == StatusServiceUnavailable <==> env.ctxErr(1 + |req.segments|).Some?
  {
  }

  /** The duration probe cannot fail the job: whatever ffprobe does, the job ends
      the same way, and a failed probe reports a duration of 0. */
  lemma ProbeFailureNotFatal(req: ConcatRequest, workDir: string, env: Env, probe: string -> ProbeRun)
    ensures var end := AfterDownloads(req, workDir, env);
            var end' := AfterDownloads(req, workDir, env.(probe := probe));
            && end.Failed? == end'.Failed?
            && (end.Failed? ==> end == end')
            && (end.Done? ==> end.fileSize == end'.fileSize)
    ensures var end := AfterDownloads(req, workDir, env);
            end.Done? && GetDuration(env.probe(InDir(workDir, "output.mp3")), env.parseFloat).Err?
            ==> end.duration == 0.0
  {
  }

  // ---------- The server ----------

  /** The container: the status record the handlers share. `history` lists every
      value written to the record, in order; `removedDirs` every work directory
      removed on the way out of a job. */
  class Container {
    var status: Status
    ghost var history: seq<Status>
    ghost var removedDirs: seq<string>

    constructor ()
      ensures status == IdleStatus && history == [] && removedDirs == []
    {
      status := IdleStatus;
      history := [];
      removedDirs := [];
    }

    /** handleStatus: a snapshot of the status for GET, 405 otherwise. */
    method HandleStatus(verb: string) returns (reply: Reply)
      ensures verb != "GET" ==> reply == SendError("Method not allowed", StatusMethodNotAllowed)
      ensures verb == "GET" ==> reply.code == StatusOK && reply.body == StatusBody(status)
    {
      if verb != "GET" {
        return SendError("Method not allowed", StatusMethodNotAllowed);
      }
      var snapshot := status;
      reply := Reply(StatusOK, StatusBody(snapshot));
    }

    /** A write of the status record under the lock. */
    method Publish(s: Status)
      modifies this
      ensures status == s && history == old(history) + [s] && removedDirs == old(removedDirs)
    {
      status := s;
      history := history + [s];
    }

    /** handleError: mark the status as error with the message, and send it. */
    method HandleError(message: string, code: int) returns (reply: Reply)
      modifies this
      ensures status == old(status).(state := Error, lastError := message)
      ensures history == old(history) + [status] && removedDirs == old(removedDirs)
      ensures reply == SendError(message, code)
    {
      Publish(status.(state := Error, lastError := message));
      reply := SendError(message, code);
    }

    /** The download loop: check for cancellation, download segment i, add its
      line to the list and count it. */
    method DownloadSegments(req: ConcatRequest, workDir: string, env: Env, ghost started: Status)
      returns (stop: Option<Stop>, listContent: string)
      modifies this
      requires status == started && started.segmentsDownloaded == 0
      ensures stop == FirstStop(req, workDir, env, 0)
      ensures var k := if stop.Some? then stop.value.index else |req.segments|;
              && status == started.(segmentsDownloaded := k)
              && history == old(history) + Progress(started, k)
              && removedDirs == old(removedDirs)
      ensures stop.None? ==> listContent == ConcatList(workDir, |req.segments|)
    {
      listContent := "";
      ghost var h0 := history;
      for i := 0 to |req.segments|
        invariant FirstStop(req, workDir, env, i) == FirstStop(req, workDir, env, 0)
        invariant status == started.(segmentsDownloaded := i)
        invariant history == h0 + Progress(started, i)
        invariant removedDirs == old(removedDirs)
        invariant listContent == ConcatList(workDir, i)
      {
        var segmentStop := CheckAndDownload(req, workDir, env, i);
        if segmentStop.Some? {
          return segmentStop, listContent;
        }
        listContent := listContent + ListLine(workDir, i) + "\n";
        RecordProgress(started, i, h0);
      }
      stop := None;
    }

    /** The progress write after segment i is downloaded. */
    method RecordProgress(ghost started: Status, i: nat, ghost h0: seq<Status>)
      modifies this
      requires status == started.(segmentsDownloaded := i) && history == h0 + Progress(started, i)
      ensures status == started.(segmentsDownloaded := i + 1) && history == h0 + Progress(started, i + 1)
      ensures removedDirs == old(removedDirs)
    {
      Publish(status.(segmentsDownloaded := i + 1));
      ProgressSnoc(started, i);
    }

    /** One round of the download loop before the progress write: the
        cancellation check, then the download of segment i to its file. */
    static method CheckAndDownload(req: ConcatRequest, workDir: string, env: Env, i: nat) returns (stop: Option<Stop>)
      requires i < |req.segments|
      ensures stop == DownloadStop(req, workDir, env, i)
    {
      var url := req.segments[i];
      if env.ctxErr(1 + i).Some? {
        return Some(Stop(i, "Job cancelled during download: " + CtxMessage(env.ctxErr(1 + i).value), StatusServiceUnavailable));
      }
      var segmentPath := SegmentPath(workDir, i);
      var err := DownloadFile(env.download(url, segmentPath));
      if err.Some? {
        return Some(Stop(i, "Failed to download segment " + NatToDecimal(i) + ": " + err.value, StatusInternalServerError));
      }
      return None;
    }

    /** From writing list.txt to the final status and reply. */
    method FinishJob(req: ConcatRequest, workDir: string, env: Env, listContent: string, ghost started: Status)
      returns (reply: Reply)
      modifies this
      requires listContent == ConcatList(workDir, |req.segments|)
      requires status == started.(segmentsDownloaded := |req.segments|)
      ensures var end := AfterDownloads(req, workDir, env);
              && reply == JobReply(end)
              && status == FinalStatus(started, end)
              && history == old(history) + [status]
              && removedDirs == old(removedDirs)
    {
      var listFile := InDir(workDir, "list.txt");
      var write := env.writeFile(listFile, listContent);
      if write.IoFailed? {
        reply := HandleError("Failed to write list file: " + write.err, StatusInternalServerError);
        return;
      }
      reply := Encode(req, workDir, env, started);
    }

    /** The ffmpeg run and what follows it. */
    method Encode(req: ConcatRequest, workDir: string, env: Env, ghost started: Status)
      returns (reply: Reply)
      modifies this
      requires status == started.(segmentsDownloaded := |req.segments|)
      ensures var end := Encoding(req, workDir, env);
              && reply == JobReply(end)
              && status == FinalStatus(started, end)
              && history == old(history) + [status]
              && removedDirs == old(removedDirs)
    {
      var listFile := InDir(workDir, "list.txt");
      var outputPath := InDir(workDir, "output.mp3");
      var args := BuildFfmpegArgs(listFile, req.metadata, outputPath);
      var run := env.ffmpeg(args);
      if run.FfmpegFailed? {
        if env.ctxErr(1 + |req.segments|).Some? {
          reply := HandleError("FFmpeg cancelled: " + CtxMessage(env.ctxErr(1 + |req.segments|).value), StatusServiceUnavailable);
        } else {
          reply := HandleError("FFmpeg failed: " + run.err + "\nStderr: " + run.stderr, StatusInternalServerError);
        }
        return;
      }
      reply := Deliver(req, outputPath, env, started);
    }

    /** The steps after ffmpeg: duration, file size, upload, and the idle status on success. */
    method Deliver(req: ConcatRequest, outputPath: string, env: Env, ghost started: Status)
      returns (reply: Reply)
      modifies this
      requires status == started.(segmentsDownloaded := |req.segments|)
      ensures var end := Delivery(req, outputPath, env);
              && reply == JobReply(end)
              && status == FinalStatus(started, end)
              && history == old(history) + [status]
              && removedDirs == old(removedDirs)
    {
      var probed := GetDuration(env.probe(outputPath), env.parseFloat);
      var duration := if probed.Ok? then probed.value else 0.0;
      var fileInfo := env.stat(outputPath);
      if fileInfo.Err? {
        reply := HandleError("Failed to stat output file: " + fileInfo.error, StatusInternalServerError);
        return;
      }
      var fileSize := fileInfo.value;
      var uploadErr := UploadFile(env.upload(outputPath, req.outputUrl));
      if uploadErr.Some? {
        reply := HandleError("Failed to upload result: " + uploadErr.value, StatusInternalServerError);
        return;
      }
      Publish(IdleStatus);
      reply := Reply(StatusOK, ConcatBody(ConcatResponse(true, duration, fileSize, "")));
    }

    /** The job after its work directory exists. */
    method ProcessJob(req: ConcatRequest, workDir: string, env: Env, ghost started: Status)
      returns (reply: Reply)
      modifies this
      requires status == started && started.segmentsDownloaded == 0
      ensures var end := JobIn(req, workDir, env);
              && reply == JobReply(end)
              && history == old(history) + JobWrites(started, end, |req.segments|)
              && status == FinalStatus(started, end)
              && removedDirs == old(removedDirs)
    {
      if env.ctxErr(0).Some? {
        reply := HandleError("Job cancelled: " + CtxMessage(env.ctxErr(0).value), StatusServiceUnavailable);
        return;
      }
      ghost var before := history;
      var stop, listContent := DownloadSegments(req, workDir, env, started);
      ghost var k := if stop.Some? then stop.value.index else |req.segments|;
      if stop.Some? {
        reply := HandleError(stop.value.message, stop.value.code);
      } else {
        reply := FinishJob(req, workDir, env, listContent, started);
      }
      AppendAssoc(before, Progress(started, k), [status]);
    }

    /** handleConcat: validate, record the job, run it in a fresh work directory,
        and remove that directory on the way out. */
    method HandleConcat(verb: string, env: Env) returns (reply: Reply)
      modifies this
      ensures reply == ConcatReply(verb, env)
      ensures history == old(history) + ConcatWrites(verb, env)
      ensures status == StatusAfter(verb, env, old(status))
      ensures removedDirs == old(removedDirs) + RemovedDirs(verb, env)
    {
      var rejection := Validate(verb, env.body);
      if rejection.Some? {
        return rejection.value;
      }
      reply := Accept(verb, env);
    }

    /** A request that passed validation: record the job as started, then run it. */
    method Accept(verb: string, env: Env) returns (reply: Reply)
      modifies this
      requires Rejection(verb, env.body).None?
      ensures reply == ConcatReply(verb, env)
      ensures history == old(history) + ConcatWrites(verb, env)
      ensures status == StatusAfter(verb, env, old(status))
      ensures removedDirs == old(removedDirs) + RemovedDirs(verb, env)
    {
      var req := env.body.value;
      var started := Started(req, env.now);
      ghost var before := history;
      Publish(started);
      reply := RunJob(req, env, started);
      AcceptedRequest(verb, env, old(status));
      AppendAssoc(before, [started], JobWrites(started, Job(req, env), |req.segments|));
    }

    /** The checks handleConcat makes before it accepts a job: the method, the
        body, a non-empty segment list and an output URL. */
    static method Validate(verb: string, body: Result<ConcatRequest>) returns (rejection: Option<Reply>)
      ensures rejection == Rejection(verb, body)
    {
      if verb != "POST" {
        return Some(SendError("Method not allowed", StatusMethodNotAllowed));
      }
      if body.Err? {
        return Some(SendError("Invalid request body: " + body.error, StatusBadRequest));
      }
      var req := body.value;
      if |req.segments| == 0 {
        return Some(SendError("No segments provided", StatusBadRequest));
      }
      if req.outputUrl == "" {
        return Some(SendError("No output URL provided", StatusBadRequest));
      }
      return None;
    }

    /** The accepted job: create the work directory, run the job in it, and
        remove the directory on the way out. */
    method RunJob(req: ConcatRequest, env: Env, ghost started: Status) returns (reply: Reply)
      modifies this
      requires status == started && started.segmentsDownloaded == 0
      ensures var end := Job(req, env);
              && reply == JobReply(end)
              && history == old(history) + JobWrites(started, end, |req.segments|)
              && status == FinalStatus(started, end)
              && removedDirs == old(removedDirs) + JobDirs(env)
    {
      if env.mkdirTemp.Err? {
        reply := HandleError("Failed to create temp dir: " + env.mkdirTemp.error, StatusInternalServerError);
        return;
      }
      var workDir := env.mkdirTemp.value;
      reply := ProcessJob(req, workDir, env, started);
      removedDirs := removedDirs + [workDir];
    }
  }

  lemma ProgressSnoc(started: Status, i: nat)
    ensures Progress(started, i + 1) == Progress(started, i) + [started.(segmentsDownloaded := i + 1)]
  {
  }

  /** Appends a `-metadata key=value` pair when the value is set. */
  method AppendMetadata(args: seq<string>, key: string, value: string) returns (args': seq<string>)
    ensures args' == args + MetadataTag(key, value)
  {
    args' := args;
    if value != "" {
      args' := args + ["-metadata", key + value];
    }
  }

  /** The ffmpeg argument list, grown by appends as in handleConcat. */
  method BuildFfmpegArgs(listFile: string, m: Metadata, outputPath: string) returns (args: seq<string>)
    ensures args == FfmpegArgs(listFile, m, outputPath)
  {
    args := ["-f", "concat", "-safe", "0", "-i", listFile,
             "-af", "loudnorm=I=-16:TP=-1.5:LRA=11", "-c:a", "libmp3lame", "-b:a", "128k", "-ar", "44100"];
    args := AppendMetadata(args, "title=", m.title);
    args := AppendMetadata(args, "artist=", m.artist);
    args := AppendMetadata(args, "album=", m.album);
    args := AppendMetadata(args, "genre=", m.genre);
    args := args + ["-y", outputPath];
    assert args == FfmpegPrefix(listFile) + MetadataArgs(m) + ["-y", outputPath];
  }
}
