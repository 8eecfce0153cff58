/** backend/src/controllers/jobController.ts: the request handlers. Each handler ends by
    sending a reply, passing an error to the error middleware, or sending a file. */
module JobController {
  import opened Wrappers
  import opened Text
  import opened Paths
  import opened Types
  import opened FileSystem
  import opened PreprocessService
  import opened JobService
  import opened ProcessService
  import opened TypeGuards
  import opened Upload

  /** How a handler ends: `res.status(code).json(body)`, `next(error)`, or `res.download`. */
  datatype Outcome = Respond(reply: Reply) | Forward(error: Thrown) | Download(path: Path, name: string)

  // ---------------------------------------------------------------- submitJobController

  /** The validated request fields of a submission. */
  datatype SubmitInput = SubmitInput(mode: string, graphletSize: int)

  /** The field checks of `submitJobController`, in order: mode present, mode one of the five
      letters, graphlet size present, parsing to an integer, within 3..8. */
  function ValidateSubmitBody(mode: JsProp, graphletSize: JsProp): (r: Result<SubmitInput>)
    ensures !Truthy(mode) ==> r == Err(BadRequest("Mode is required."))
    ensures Truthy(mode) && !IsValidJobMode(mode) ==> r == Err(BadRequest("Mode must be a valid string."))
    ensures IsValidJobMode(mode) && !Truthy(graphletSize) ==> r == Err(BadRequest("graphlet size is required."))
    ensures IsValidJobMode(mode) && Truthy(graphletSize) && ParseInt(Show(graphletSize)).None? ==>
      r == Err(BadRequest("graphlet size must be a valid number."))
    ensures IsValidJobMode(mode) && Truthy(graphletSize) && ParseInt(Show(graphletSize)).Some? &&
            !(3 <= ParseInt(Show(graphletSize)).value <= 8) ==>
      r == Err(BadRequest("graphlet size must be between 3 and 8."))
    ensures r.Ok? <==>
      && IsValidJobMode(mode) && Truthy(graphletSize)
      && ParseInt(Show(graphletSize)).Some? && 3 <= ParseInt(Show(graphletSize)).value <= 8
    ensures r.Err? ==> r.error.HttpError? && r.error.statusCode == 400
    ensures r.Ok? ==> mode == Defined(JStr(r.value.mode)) && Some(r.value.graphletSize) == ParseInt(Show(graphletSize))
  {
    ModeCheckIsGuard(mode);
    if !Truthy(mode) then Err(BadRequest("Mode is required."))
    else if !IsString(mode) || (mode.value.s != "f" && mode.value.s != "o" && mode.value.s != "g" &&
                                mode.value.s != "i" && mode.value.s != "j") then
      Err(BadRequest("Mode must be a valid string."))
    else if !Truthy(graphletSize) then Err(BadRequest("graphlet size is required."))
    else
      var parsed := ParseInt(Show(graphletSize));
      if parsed.None? then Err(BadRequest("graphlet size must be a valid number."))
      else if parsed.value > 8 || parsed.value < 3 then Err(BadRequest("graphlet size must be between 3 and 8."))
      else Ok(SubmitInput(mode.value.s, parsed.value))
  }

  /** The inline mode check of the submission controller is the mode guard. */
  lemma ModeCheckIsGuard(mode: JsProp)
    ensures IsValidJobMode(mode) <==>
      IsString(mode) &&
      (mode.value.s == "f" || mode.value.s == "o" || mode.value.s == "g" ||
       mode.value.s == "i" || mode.value.s == "j")
  {
    ValidModesAreListed(mode);
  }

  /** Every graphlet size 3..8 sent as its decimal text, with any mode, is accepted as
      exactly that size. */
  lemma ShownSizesAccepted(m: string, k: int)
    requires m in GetValidJobModes() && 3 <= k <= 8
    ensures ValidateSubmitBody(Defined(JStr(m)), Defined(JStr(IntToString(k)))) == Ok(SubmitInput(m, k))
  {
    var s := IntToString(k);
    ParseIntShown(k);
    var mode, size := Defined(JStr(m)), Defined(JStr(s));
    assert IsValidJobMode(mode);
    assert Show(size) == s && s != "";
    ParsedSizeAccepted(m, size, k);
  }

  /** A graphlet size sent as the number c·10^z, z at least 21, is printed in exponent
      notation `ce+z`, where `parseInt` stops at the `e`: it is accepted as size c. */
  lemma ExponentSizeAccepted(m: string, c: nat, z: nat)
    requires m in GetValidJobModes() && 3 <= c <= 8 && z >= 21
    ensures ValidateSubmitBody(Defined(JStr(m)), Defined(JNum(Finite((c * Pow10(z)) as real)))) == Ok(SubmitInput(m, c))
  {
    LargeNumberText(c, z);
    ScaledTruthy(c, z);
    assert IsValidJobMode(Defined(JStr(m)));
    LeadingDigitAccepted(m, Defined(JNum(Finite((c * Pow10(z)) as real))), c, "e+" + NatToString(z));
  }

  /** A size whose text is one digit 3..8 followed by a non-digit is accepted as that digit. */
  lemma LeadingDigitAccepted(m: string, size: JsProp, c: nat, rest: string)
    requires IsValidJobMode(Defined(JStr(m))) && Truthy(size)
    requires 3 <= c <= 8 && Show(size) == [Digit(c)] + rest && (rest == "" || !IsDigit(rest[0]))
    ensures ValidateSubmitBody(Defined(JStr(m)), size) == Ok(SubmitInput(m, c))
  {
    ParseIntOneDigit(c, rest);
    ParsedSizeAccepted(m, size, c);
  }

  /** A valid mode and a size that parses to 3..8 are accepted as that size. */
  lemma ParsedSizeAccepted(m: string, size: JsProp, k: int)
    requires IsValidJobMode(Defined(JStr(m))) && Truthy(size)
    requires ParseInt(Show(size)) == Some(k) && 3 <= k <= 8
    ensures ValidateSubmitBody(Defined(JStr(m)), size) == Ok(SubmitInput(m, k))
  {
    var r := ValidateSubmitBody(Defined(JStr(m)), size);
    assert r.Ok? && r.value.mode == m && r.value.graphletSize == k;
  }

  /** `submitJobController`: the field checks, then the file check, then `createJob`, which
      receives the mode where it expects the density. */
  method SubmitJobController(fs: Fs, mode: JsProp, graphletSize: JsProp, file: Option<MulterFile>, clock: Clock, md5: string -> string)
    returns (out: Outcome)
    requires fs.Valid()
    modifies fs
    ensures fs.Valid()
    ensures ValidateSubmitBody(mode, graphletSize).Err? ==>
      out == Forward(ValidateSubmitBody(mode, graphletSize).error) && unchanged(fs)
    ensures ValidateSubmitBody(mode, graphletSize).Ok? && file.None? ==>
      out == Forward(Http(400, "No file uploaded")) && unchanged(fs)
    ensures ValidateSubmitBody(mode, graphletSize).Ok? && file.Some? ==>
      var input := ValidateSubmitBody(mode, graphletSize).value;
      var created := NewJobData(file.value, TextDensity(input.mode), input.graphletSize, clock, md5);
      && (created.Err? ==> out == Forward(created.error) && unchanged(fs))
      && (created.Ok? ==>
            var failure := PreprocessFailure(old(fs.dirs), old(fs.files), old(fs.denied), file.value, created.value);
            && AfterPreprocess(old(fs.dirs), old(fs.files), old(fs.denied), file.value, created.value, fs.dirs, fs.files, fs.denied)
            && out == if failure.Some? then
                        Forward(HttpError(500, "Error during preprocessing: " + failure.value.message, Some(failure.value.Stack()), None))
                      else Respond(Reply(201, SuccessResponse("Job submitted successfully", JobPayload(created.value)))))
  {
    var validated := ValidateSubmitBody(mode, graphletSize);
    if validated.Err? {
      return Forward(validated.error);
    }
    if file.None? {
      return Forward(Http(400, "No file uploaded"));
    }
    var result := CreateJob(fs, file.value, TextDensity(validated.value.mode), validated.value.graphletSize, clock, md5);
    if result.Err? {
      return Forward(result.error);
    }
    return Respond(Reply(201, SuccessResponse("Job submitted successfully", JobPayload(result.value))));
  }

  /** Every upload the filter lets through has a name `createJob` accepts. */
  lemma AcceptedUploadCreatesRecord(file: MulterFile, density: Density, graphletSize: int, clock: Clock, md5: string -> string)
    requires FileFilter(file.originalName).None?
    ensures NewJobData(file, density, graphletSize, clock, md5).Ok?
  {
    AcceptedNameEnding(file.originalName);
    ExtNameHasInnerDot(file.originalName);
  }

  // ---------------------------------------------------------------- processController

  /** `execLogFileOutput || result.execLogFileOutput`. */
  function LogOr(log: Option<string>, fallback: Option<string>): Option<string> {
    if log.Some? && log.value != "" then log else fallback
  }

  /** The reply `processController` sends for a result of `jobProcess`; `executionLog` is
      what `getJobExecutionLog` returns, read only while the job is still being aligned. */
  function ProcessReply(result: ProcessJobData, executionLog: Option<string>): (reply: Reply)
    ensures reply.code == 200
    ensures reply.body.message == result.status
    ensures result.redirect.Some? && result.redirect.value != "" ==>
      reply.body == RedirectResponse(result.status, result.redirect.value)
    ensures !(result.redirect.Some? && result.redirect.value != "") ==>
      && reply.body.status == Success
      && reply.body.data == Some(ProcessPayload(result.(execLogFileOutput :=
           if result.status == StillAligning then LogOr(executionLog, result.execLogFileOutput)
           else result.execLogFileOutput)))
  {
    var log := if result.status == StillAligning then executionLog else None;
    if result.redirect.Some? && result.redirect.value != "" then
      Reply(200, RedirectResponse(result.status, result.redirect.value))
    else
      Reply(200, SuccessResponse(result.status, ProcessPayload(result.(execLogFileOutput := LogOr(log, result.execLogFileOutput)))))
  }

  /** The execution log affects the reply only while the job is still being aligned. */
  lemma ExecutionLogOnlyWhileAligning(result: ProcessJobData, log1: Option<string>, log2: Option<string>)
    requires result.status != StillAligning
    ensures ProcessReply(result, log1) == ProcessReply(result, log2)
  {
  }

  /** `processController`. The handler calls `jobProcess(jobId)` without the job record,
      so a runnable job is marked `processing` and the call then fails reading the record's
      network name; no analysis is ever started from here. */
  method ProcessController(fs: Fs, cwd: Path, id: JsProp, executionLog: Option<string>, blantDirectory: Option<string>)
    returns (out: Outcome)
    requires fs.Valid()
    modifies fs`files
    ensures fs.Valid()
    ensures !Truthy(id) ==> out == Forward(Http(400, "id field is required in request.body")) && fs.files == old(fs.files)
    ensures Truthy(id) ==>
      var jobDir := JobLocation(Show(id));
      var guard := GuardOf(old(fs.IsDirectory(jobDir)), old(fs.Read(InfoPath(jobDir))));
      match guard
      case Missing =>
        && out == Respond(ProcessReply(ProcessJobData(false, "Job does not exist at " + jobDir, Show(id), None, None), None))
        && fs.files == old(fs.files)
      case Unreadable => out == Forward(Http(500, "Could not read info.json")) && fs.files == old(fs.files)
      case AlreadyDone(processed) =>
        && out == Respond(ProcessReply(ProcessJobData(processed,
             if processed then "Networks already analyzed." else "Network analysis failed.",
             Show(id), None, Some(LookupRedirect(Show(id)))), None))
        && fs.files == old(fs.files)
      case StillRunning =>
        && out == Respond(ProcessReply(ProcessJobData(true, StillAligning, Show(id), None, None), executionLog))
        && fs.files == old(fs.files)
      case Runnable(info) =>
        if WriteError(fs.dirs, fs.denied, InfoPath(jobDir)).Some? then
          out == Forward(Http(500, "Could not read info.json")) && fs.files == old(fs.files)
        else
          && out == Forward(JsError("TypeError", CannotRead("undefined", "networkName")))
          && fs.files == old(fs.files)[InfoPath(jobDir) := JsonFile(ProcessingRecord(info))]
  {
    if !Truthy(id) {
      return Forward(Http(400, "id field is required in request.body"));
    }
    var jobId := Show(id);
    assert ("Job does not exist at " + JobLocation(jobId))[0] != StillAligning[0];
    var start := JobProcess(fs, cwd, jobId, None, blantDirectory);
    match start {
      case Immediate(result) =>
        var log := if result.status == StillAligning then executionLog else None;
        return Respond(ProcessReply(result, log));
      case Threw(error) =>
        return Forward(error);
      case Spawned(_) =>
        assert false;
    }
  }

  // ---------------------------------------------------------------- getJobResults

  /** `<span>${line.trim()}</span>`. */
  function Span(line: string): string {
    "<span>" + Trim(line) + "</span>"
  }

  /** One span per line, in order. */
  function Spans(lines: seq<string>): (spans: seq<string>)
    ensures |spans| == |lines|
    ensures forall i :: 0 <= i < |lines| ==> spans[i] == Span(lines[i])
  {
    seq(|lines|, i requires 0 <= i < |lines| => Span(lines[i]))
  }

  /** `log.split('\n').map(line => `<span>${line.trim()}</span>`).join(sep)`. */
  function FormatLog(log: string, sep: string): string {
    Text.Join(Spans(Split(log, '\n')), sep)
  }

  /** The failed-job log has one span per line of run.log, and splitting it at its line
      breaks gives back exactly those spans. */
  lemma FailedLogLines(log: string)
    ensures Split(FormatLog(log, "\n"), '\n') == Spans(Split(log, '\n'))
    ensures |Spans(Split(log, '\n'))| == Count(log, '\n') + 1
  {
    var lines := Split(log, '\n');
    var spans := Spans(lines);
    forall k | 0 <= k < |spans| ensures '\n' !in spans[k] {
      SpanHasNoLineBreak(lines[k]);
    }
    SplitJoin(spans, '\n');
    SplitCount(log, '\n');
  }

  /** A processed job's log is the spans of the lines of run.log run together. */
  lemma ProcessedLogIsSpans(log: string)
    ensures FormatLog(log, "") == Concat(Spans(Split(log, '\n')))
  {
    JoinEmptyIsConcat(Spans(Split(log, '\n')));
  }

  lemma SpanHasNoLineBreak(line: string)
    requires '\n' !in line
    ensures '\n' !in Span(line)
  {
    var t := Trim(line);
    var k := FirstNonSpace(line, 0);
    SliceKeepsAbsence(line, k, k + |t|, '\n');
    assert '\n' !in "<span>" && '\n' !in "</span>";
    AbsenceConcat("<span>", t, '\n');
    AbsenceConcat("<span>" + t, "</span>", '\n');
  }

  /** What reading run.log gives: no file, a file that cannot be read as text, or its text. */
  datatype LogState = NoLog | UnreadableLog | LogText(text: string)

  function RunLogState(fs: Fs, jobDir: Path): (s: LogState)
    reads fs
    ensures s == NoLog <==> !fs.Exists(RunLogPath(jobDir))
    ensures s.LogText? <==> fs.Exists(RunLogPath(jobDir)) && fs.ReadText(RunLogPath(jobDir)).Some?
    ensures s.LogText? ==> fs.ReadText(RunLogPath(jobDir)) == Some(s.text)
  {
    var p := RunLogPath(jobDir);
    if !fs.Exists(p) then NoLog
    else match fs.ReadText(p)
      case Some(t) => LogText(t)
      case None => UnreadableLog
  }

  /** The `errorLog` of a failed job's error: a fixed notice when run.log is missing or
      unreadable, otherwise one span per line of the log, one per line. */
  function FailedLog(log: LogState): (r: string)
    ensures log.LogText? ==>
      && Split(r, '\n') == Spans(Split(log.text, '\n'))
      && |Split(r, '\n')| == Count(log.text, '\n') + 1
  {
    match log
    case NoLog => "Run log file not found"
    case UnreadableLog => "Error reading run log file"
    case LogText(t) => FailedLogLines(t); FormatLog(t, "\n")
  }

  /** The `execLogFileOutput` of a processed job: a fixed notice when run.log is missing or
      unreadable, otherwise the spans of its lines run together on a single line. */
  function ExecutionLog(log: LogState): (r: string)
    ensures log.LogText? ==> r == Concat(Spans(Split(log.text, '\n'))) && '\n' !in r
  {
    match log
    case NoLog => "Job execution log file does not exist."
    case UnreadableLog => "Problem opening execution log file."
    case LogText(t) => SpansAreSingleLines(t); ProcessedLogIsSpans(t); FormatLog(t, "")
  }

  /** No span of a log's lines contains a line break. */
  lemma SpansAreSingleLines(log: string)
    ensures '\n' !in Concat(Spans(Split(log, '\n')))
  {
    var lines := Split(log, '\n');
    var spans := Spans(lines);
    forall k | 0 <= k < |spans| ensures '\n' !in spans[k] {
      SpanHasNoLineBreak(lines[k]);
    }
    ConcatKeepsAbsence(spans, '\n');
  }

  const FailedMessage := "The alignment of the networks failed. See execution log below:"
  const StillProcessing := "Job is still being processed. Redirecting..."

  /** The `note` of a results reply. */
  function ResultsNote(jobId: string, baseUrl: string): string {
    "These results can be accessed on the results page using the Job ID " + jobId + ", \n"
    + "                        or directly accessed using " + baseUrl + "/results?id=" + jobId + "."
  }

  /** The part of `getJobResults` after info.json was found: parse, then dispatch on the
      status. */
  function RecordOutcome(read: ReadResult, jobId: string, baseUrl: string, log: LogState): (out: Outcome)
    ensures read.ReadFailed? ==> out == Forward(read.error.AsThrown())
    ensures read.Contents? && !read.content.JsonFile? ==> out == Forward(ParseJson(read.content).error)
    ensures read.Contents? && read.content == JsonFile(JNull) ==>
      out == Forward(JsError("TypeError", CannotRead("null", "status")))
    ensures read.Contents? && read.content.JsonFile? && !read.content.value.JNull? ==>
      out == StatusOutcome(read.content.value, jobId, baseUrl, log)
    ensures out.Respond? ==> out.reply.code == 200
  {
    match read
    case ReadFailed(e) => Forward(e.AsThrown())
    case Contents(c) =>
      match ParseJson(c)
      case Unparsable(e) => Forward(e)
      case Parsed(v) =>
        if v.JNull? then Forward(JsError("TypeError", CannotRead("null", "status")))
        else StatusOutcome(v, jobId, baseUrl, log)
  }

  /** The dispatch on the `status` of a parsed, non-null record. */
  function StatusOutcome(v: JsValue, jobId: string, baseUrl: string, log: LogState): (out: Outcome)
    ensures
      var st := Member(v, "status");
      && (st == Defined(JStr("failed")) ==> out == Forward(HttpError(400, FailedMessage, Some(FailedLog(log)), None)))
      && (st == Defined(JStr("preprocessed")) || st == Defined(JStr("processing")) ==>
            out == Respond(Reply(200, RedirectResponse(StillProcessing, "/submit-job/" + jobId))))
      && (st == Defined(JStr("processed")) && !Truthy(Member(v, "zipName")) ==>
            out == Forward(Http(500, "Invalid job data: missing zip file name.")))
      && (st == Defined(JStr("processed")) && Truthy(Member(v, "zipName")) ==>
            && out.Respond? && out.reply.code == 200 && out.reply.body.status == Success
            && out.reply.body.data == Some(ResultsPayload(ProcessedJobResponse(
                 jobId, ResultsNote(jobId, baseUrl), baseUrl + "/api/download/" + jobId, ExecutionLog(log)))))
      && (StatusOf(st) !in {Failed, Preprocessed, Processing, Processed} ==>
            out == Forward(Http(500, "Unhandled job status: " + Show(st))))
    ensures out.Respond? ==> out.reply.code == 200
  {
    StatusOfCases(Member(v, "status"));
    var st := StatusOf(Member(v, "status"));
    if st == Failed then
      Forward(HttpError(400, FailedMessage, Some(FailedLog(log)), None))
    else if st == Preprocessed || st == Processing then
      Respond(Reply(200, RedirectResponse(StillProcessing, "/submit-job/" + jobId)))
    else if st == Processed then
      if !Truthy(Member(v, "zipName")) then Forward(Http(500, "Invalid job data: missing zip file name."))
      else
        var results := ProcessedJobResponse(jobId, ResultsNote(jobId, baseUrl), baseUrl + "/api/download/" + jobId, ExecutionLog(log));
        Respond(Reply(200, SuccessResponse("Job Results", ResultsPayload(results))))
    else Forward(Http(500, "Unhandled job status: " + Show(Member(v, "status"))))
  }

  /** `getJobResults`: checks the id, the job directory and info.json in that order, then
      dispatches on the record. Nothing is written. */
  method GetJobResults(fs: Fs, processRoot: Path, jobId: string, baseUrl: string) returns (out: Outcome)
    ensures jobId == "" ==> out == Forward(Http(400, "Job ID is required."))
    ensures jobId != "" && !fs.IsDirectory(Paths.Join(processRoot, jobId)) ==>
      out == Forward(Http(404, "Job not found."))
    ensures jobId != "" && fs.IsDirectory(Paths.Join(processRoot, jobId)) && !fs.Exists(InfoPath(Paths.Join(processRoot, jobId))) ==>
      out == Forward(Http(500, "Job data not found. The job might not have been processed yet."))
    ensures jobId != "" && fs.IsDirectory(Paths.Join(processRoot, jobId)) && fs.Exists(InfoPath(Paths.Join(processRoot, jobId))) ==>
      var jobDir := Paths.Join(processRoot, jobId);
      out == RecordOutcome(fs.Read(InfoPath(jobDir)), jobId, baseUrl, RunLogState(fs, jobDir))
  {
    if jobId == "" {
      return Forward(Http(400, "Job ID is required."));
    }
    var jobDir := Paths.Join(processRoot, jobId);
    if !fs.IsDirectory(jobDir) {
      return Forward(Http(404, "Job not found."));
    }
    var infoJsonPath := InfoPath(jobDir);
    if !fs.Exists(infoJsonPath) {
      return Forward(Http(500, "Job data not found. The job might not have been processed yet."));
    }
    out := RecordOutcome(fs.Read(infoJsonPath), jobId, baseUrl, RunLogState(fs, jobDir));
  }

  /** The record a finished run writes has no zip name, so asking for the results of a
      processed job always fails with 500. */
  lemma ProcessedRunHasNoResults(command: string, jobId: string, baseUrl: string, log: LogState)
    ensures RecordOutcome(Contents(JsonFile(InfoJson(SuccessInfo(command)))), jobId, baseUrl, log)
         == Forward(Http(500, "Invalid job data: missing zip file name."))
  {
    var v := InfoJson(SuccessInfo(command));
    assert Member(v, "status") == Defined(JStr("processed"));
    assert Member(v, "zipName") == Undefined;
  }

  /** A failed run's record reports its failure with the formatted run log. */
  lemma FailedRunReportsLog(log: string, command: string, jobId: string, baseUrl: string, runLog: LogState)
    ensures RecordOutcome(Contents(JsonFile(InfoJson(FailedInfo(log, command)))), jobId, baseUrl, runLog)
         == Forward(HttpError(400, FailedMessage, Some(FailedLog(runLog)), None))
  {
    assert Member(InfoJson(FailedInfo(log, command)), "status") == Defined(JStr("failed"));
  }

  // ---------------------------------------------------------------- downloadZipJob

  const CouldNotRead := "Could not read job data."

  /** `downloadZipJob`: the id, directory and info.json checks answer 400, 404 and 500;
      every failure after that, a missing zip included, becomes 500 "Could not read job
      data.". `res.download`'s own failures are only logged. */
  method DownloadZipJob(fs: Fs, processRoot: Path, jobId: string) returns (out: Outcome)
    ensures jobId == "" ==> out == Forward(Http(400, "Job ID is required."))
    ensures jobId != "" && !fs.IsDirectory(Paths.Join(processRoot, jobId)) ==>
      out == Forward(Http(404, "Job not found."))
    ensures jobId != "" && fs.IsDirectory(Paths.Join(processRoot, jobId)) && !fs.Exists(InfoPath(Paths.Join(processRoot, jobId))) ==>
      out == Forward(Http(500, "Job data not found. The job might not have been processed yet."))
    ensures out.Download? <==>
      var jobDir := Paths.Join(processRoot, jobId);
      var read := fs.Read(InfoPath(jobDir));
      && jobId != "" && fs.IsDirectory(jobDir) && fs.Exists(InfoPath(jobDir))
      && read.Contents? && read.content.JsonFile?
      && IsString(Member(read.content.value, "zipName")) && Member(read.content.value, "zipName").value.s != ""
      && fs.Exists(Paths.Join(jobDir, Member(read.content.value, "zipName").value.s))
    ensures out.Download? ==>
      out.path == Paths.Join(Paths.Join(processRoot, jobId), out.name) &&
      Member(fs.Read(InfoPath(Paths.Join(processRoot, jobId))).content.value, "zipName") == Defined(JStr(out.name))
    ensures jobId != "" && fs.IsDirectory(Paths.Join(processRoot, jobId)) && fs.Exists(InfoPath(Paths.Join(processRoot, jobId))) ==>
      out.Download? || out == Forward(Http(500, CouldNotRead))
  {
    if jobId == "" {
      return Forward(Http(400, "Job ID is required."));
    }
    var jobDir := Paths.Join(processRoot, jobId);
    if !fs.IsDirectory(jobDir) {
      return Forward(Http(404, "Job not found."));
    }
    var infoFilePath := InfoPath(jobDir);
    if !fs.Exists(infoFilePath) {
      return Forward(Http(500, "Job data not found. The job might not have been processed yet."));
    }
    // every throw inside the inner `try` is replaced by the same 500
    var read := fs.Read(infoFilePath);
    if read.ReadFailed? || !read.content.JsonFile? {
      return Forward(Http(500, CouldNotRead));
    }
    var jobData := read.content.value;
    var zipName := Member(jobData, "zipName");
    if !Truthy(zipName) || !IsString(zipName) {
      // a falsy name is rejected; a truthy non-string makes `path.join` throw
      return Forward(Http(500, CouldNotRead));
    }
    var zipLocation := Paths.Join(jobDir, zipName.value.s);
    if !fs.Exists(zipLocation) {
      return Forward(Http(500, CouldNotRead));
    }
    return Download(zipLocation, zipName.value.s);
  }

  // ---------------------------------------------------------------- submitDefaultController

  /** `submitDefaultController`: mode `f` and graphlet size 3; a 302 redirect only when
      REDIRECT_AFTER_SUBMIT is exactly `true`, otherwise 201. */
  method SubmitDefaultController(fs: Fs, file: Option<MulterFile>, redirectAfterSubmit: Option<string>, clock: Clock, md5: string -> string)
    returns (out: Outcome)
    requires fs.Valid()
    modifies fs
    ensures fs.Valid()
    ensures file.None? ==> out == Forward(Http(400, "A .el file is required.")) && unchanged(fs)
    ensures file.Some? ==>
      var created := NewJobData(file.value, TextDensity("f"), 3, clock, md5);
      && (created.Err? ==> out == Forward(created.error) && unchanged(fs))
      && (created.Ok? ==>
            var failure := PreprocessFailure(old(fs.dirs), old(fs.files), old(fs.denied), file.value, created.value);
            && AfterPreprocess(old(fs.dirs), old(fs.files), old(fs.denied), file.value, created.value, fs.dirs, fs.files, fs.denied)
            && out == if failure.Some? then
                        Forward(HttpError(500, "Error during preprocessing: " + failure.value.message, Some(failure.value.Stack()), None))
                      else if redirectAfterSubmit == Some("true") then
                        Respond(Reply(302, RedirectResponse("Job submitted successfully. Redirecting...", "/submit-job/" + created.value.id)))
                      else
                        Respond(Reply(201, SuccessResponse("Job submitted successfully with default settings", JobPayload(created.value)))))
  {
    if file.None? {
      return Forward(Http(400, "A .el file is required."));
    }
    var result := CreateJob(fs, file.value, TextDensity("f"), 3, clock, md5);
    if result.Err? {
      return Forward(result.error);
    }
    if redirectAfterSubmit == Some("true") {
      return Respond(Reply(302, RedirectResponse("Job submitted successfully. Redirecting...", "/submit-job/" + result.value.id)));
    }
    return Respond(Reply(201, SuccessResponse("Job submitted successfully with default settings", JobPayload(result.value))));
  }
}
