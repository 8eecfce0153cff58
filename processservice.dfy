/** backend/src/services/processService.ts: `jobProcess` checks a job's info record, marks
    it `processing`, starts the analysis and, when the child process closes, writes run.log
    and the terminal info record chosen by the exit code. The child process is modelled by
    its events: output chunks, a spawn error, and the close with its exit code. */
module ProcessService {
  import opened Wrappers
  import opened Text
  import opened Paths
  import opened Types
  import opened FileSystem
  import opened PreprocessService
  import opened JobService

  function RunLogPath(jobDir: Path): Path {
    Paths.Join(jobDir, "run.log")
  }

  function LookupRedirect(jobId: string): string {
    "/lookup-job/" + jobId
  }

  const StillAligning := "Networks are still being aligned."

  /** The status of a parsed, non-null info record (`info.status`). */
  function RecordStatus(info: JsValue): JobStatus
    requires !info.JNull?
  {
    StatusOf(Member(info, "status"))
  }

  /** The fields `{...info}` copies. Only objects are modelled as contributing fields. */
  function Spread(info: JsValue): map<string, JsValue> {
    if info.JObj? then info.fields else map[]
  }

  /** `{ ...info, status: 'processing' }`: the status replaced, every other field kept. */
  function ProcessingRecord(info: JsValue): (r: JsValue)
    ensures r.JObj? && r.fields.Keys == Spread(info).Keys + {"status"}
    ensures r.fields["status"] == JStr("processing")
    ensures forall k :: k in Spread(info) && k != "status" ==> r.fields[k] == Spread(info)[k]
  {
    JObj(Spread(info)["status" := JStr("processing")])
  }

  /** What `jobProcess` decides before it writes anything. */
  datatype Guard =
    | Missing                        // no job directory
    | Unreadable                     // info.json missing, not JSON, or `null`
    | AlreadyDone(processed: bool)   // status `processed` or `failed`
    | StillRunning                   // status `processing`
    | Runnable(info: JsValue)        // any other record

  /** The decision of processService.ts:20-43 from the directory check and the read of
      info.json. */
  function GuardOf(isDirectory: bool, read: ReadResult): (g: Guard)
    ensures !isDirectory <==> g == Missing
    ensures g == Unreadable <==>
      isDirectory && !(read.Contents? && read.content.JsonFile? && !read.content.value.JNull?)
    ensures g.AlreadyDone? || g.StillRunning? || g.Runnable? ==>
      isDirectory && read.Contents? && read.content.JsonFile? && !read.content.value.JNull?
    ensures g.AlreadyDone? <==>
      (g !in {Missing, Unreadable} && RecordStatus(read.content.value) in {Processed, Failed})
    ensures g.AlreadyDone? ==> (g.processed <==> RecordStatus(read.content.value) == Processed)
    ensures g == StillRunning <==>
      (g !in {Missing, Unreadable} && RecordStatus(read.content.value) == Processing)
    ensures g.Runnable? ==> g.info == read.content.value
  {
    if !isDirectory then Missing
    else if !(read.Contents? && read.content.JsonFile?) then Unreadable
    else
      var info := read.content.value;
      if info.JNull? then Unreadable
      else
        var st := RecordStatus(info);
        if st == Processed || st == Failed then AlreadyDone(st == Processed)
        else if st == Processing then StillRunning
        else Runnable(info)
  }

  /** A record written at the end of a run stops every later call: a `processed` record
      redirects with success, a `failed` one without. */
  lemma TerminalRecordNotRerun(info: InfoFile)
    requires info.SuccessInfo? || info.FailedInfo?
    ensures GuardOf(true, Contents(JsonFile(InfoJson(info)))) == AlreadyDone(info.SuccessInfo?)
  {
  }

  /** Once a call has written the `processing` record, a second call starts nothing. */
  lemma ProcessingRecordNotRestarted(info: JsValue)
    ensures GuardOf(true, Contents(JsonFile(ProcessingRecord(info)))) == StillRunning
  {
    assert Member(ProcessingRecord(info), "status") == Defined(JStr("processing"));
  }

  /** A freshly preprocessed job is runnable, and what the run writes back keeps its data. */
  lemma PreprocessedIsRunnable(j: JobData)
    ensures GuardOf(true, Contents(JsonFile(PreprocessedInfo(j)))) == Runnable(PreprocessedInfo(j))
    ensures ProcessingRecord(PreprocessedInfo(j)) == JObj(map["status" := JStr("processing"), "data" := JobDataJson(j)])
  {
    assert Member(PreprocessedInfo(j), "status") == Defined(JStr("preprocessed"));
    var m := map["status" := JStr("preprocessed"), "data" := JobDataJson(j)];
    assert m["status" := JStr("processing")] == map["status" := JStr("processing"), "data" := JobDataJson(j)];
  }

  /** `path.resolve(jobDir, 'networks', networkName + extension)` from the working directory
      `cwd`. */
  function CommandNetworkPath(cwd: Path, jobId: string, j: JobData): (p: Path)
    ensures p == cwd + "/process/" + jobId + "/networks/" + j.networkName + j.extension
  {
    NetworkPathResolved(cwd, jobId, j.networkName, j.extension);
    Resolve(cwd, Paths.Join(Paths.Join(JobLocation(jobId), "networks"), j.networkName + j.extension))
  }

  /** The network file below the job's directory, resolved against `cwd`. */
  lemma NetworkPathResolved(cwd: Path, jobId: string, name: string, ext: string)
    ensures Resolve(cwd, Paths.Join(Paths.Join(JobLocation(jobId), "networks"), name + ext))
         == cwd + "/process/" + jobId + "/networks/" + name + ext
  {
    var below := "process/" + jobId + "/networks/" + (name + ext);
    NetworkDirShape(JobLocation(jobId), name + ext);
    JobLocationBelow(jobId, "/networks/" + (name + ext));
    ResolveDotSlash(cwd, below);
    Rebracketed(cwd + "/", "process/" + jobId + "/networks/", name, ext);
  }

  /** A path below the job's directory is `./` and a relative path. */
  lemma JobLocationBelow(jobId: string, tail: string)
    ensures JobLocation(jobId) + tail == "./" + ("process/" + jobId + tail)
  {
    assert "./process/" + jobId + tail == "./" + ("process/" + jobId + tail);
  }

  /** String concatenation regrouped. */
  lemma Rebracketed(a: string, b: string, name: string, ext: string)
    ensures a + (b + (name + ext)) == a + b + name + ext
  {
  }

  /** The command line of processService.ts:59: its words separated by single spaces (an
      unset BLANT_DIRECTORY renders as `undefined`). */
  function CommandLine(blantDirectory: Option<string>, j: JobData, networkPath: Path): string {
    Text.Join(["cd", blantDirectory.GetOr("undefined"), "&&", "source", "./setup.sh", "&&",
          "./scripts/blant-clusters.sh", "./blant", IntToString(j.graphletSize), ShowDensity(j.density),
          networkPath], " ")
  }

  /** When no interpolated value holds a space, the shell splits the command line into exactly
      these words: the clustering script gets `./blant`, the graphlet size, the density and
      the network path, in that order. */
  lemma CommandArguments(blantDirectory: Option<string>, j: JobData, networkPath: Path)
    requires ' ' !in blantDirectory.GetOr("undefined") && ' ' !in ShowDensity(j.density) && ' ' !in networkPath
    ensures Split(CommandLine(blantDirectory, j, networkPath), ' ') ==
      ["cd", blantDirectory.GetOr("undefined"), "&&", "source", "./setup.sh", "&&",
       "./scripts/blant-clusters.sh", "./blant", IntToString(j.graphletSize), ShowDensity(j.density),
       networkPath]
  {
    var words := ["cd", blantDirectory.GetOr("undefined"), "&&", "source", "./setup.sh", "&&",
                  "./scripts/blant-clusters.sh", "./blant", IntToString(j.graphletSize), ShowDensity(j.density),
                  networkPath];
    IntToStringHasNoSpace(j.graphletSize);
    assert forall k :: 0 <= k < |words| ==> ' ' !in words[k];
    SplitJoin(words, ' ');
  }

  /** The decimal rendering of an integer holds no space. */
  lemma IntToStringHasNoSpace(n: int)
    ensures ' ' !in IntToString(n)
  {
    var r := IntToString(n);
    var d := NatToString(if n < 0 then -n else n);
    assert forall i :: 0 <= i < |d| ==> d[i] != ' ';
    if n < 0 {
      assert forall i :: 1 <= i < |r| ==> r[i] == d[i - 1];
    }
  }

  /** The network file is stored one directory deeper than the path the command is given:
      below the job directory the stored file is `networks/N/N.E`, the command names
      `networks/N.E`, so the stored file resolved from the same directory is never the
      command's path. */
  lemma CommandPathIsNotStoredPath(cwd: Path, j: JobData)
    requires j.jobLocation == JobLocation(j.id)
    ensures NetworkLocation(j) == JobLocation(j.id) + "/networks/" + j.networkName + "/" + j.networkName + j.extension
    ensures CommandNetworkPath(cwd, j.id, j) != Resolve(cwd, NetworkLocation(j))
  {
    Layout(j);
    var stored := NetworkLocation(j);
    assert stored[..2] == "./";
    StoredPathIsLonger(cwd, j.id, j.networkName, j.extension);
  }

  /** Counting characters: the stored path has one more `/` and one more copy of the name. */
  lemma StoredPathIsLonger(cwd: Path, id: string, n: string, e: string)
    ensures var stored := "./process/" + id + "/networks/" + n + "/" + n + e;
      |cwd + "/" + stored[2..]| == |cwd + "/process/" + id + "/networks/" + n + e| + |n| + 1
  {
  }

  /** The settled state of the promise `jobProcess` returns once it has spawned. `Crashed`
      is an exception thrown inside the close handler, which nothing catches. */
  datatype Settlement =
    | Unsettled
    | Resolved(result: ProcessJobData)
    | Rejected(error: Thrown)
    | Crashed(error: Thrown)

  /** The terminal record chosen by the exit code: 0 is success, anything else (including a
      close by signal, `None`) failure with the captured stderr. */
  function TerminalInfo(code: Option<int>, stderrData: string, commandLine: string): (info: InfoFile)
    ensures info.SuccessInfo? <==> code == Some(0)
    ensures !info.JobInfo? && info.command == commandLine
    ensures info.FailedInfo? ==> info.log == stderrData
  {
    if code != Some(0) then FailedInfo(stderrData, commandLine) else SuccessInfo(commandLine)
  }

  /** The value the promise resolves with on close. */
  function CloseResult(jobId: string, code: Option<int>, stdoutData: string, stderrData: string): (r: ProcessJobData)
    ensures r.success <==> code == Some(0)
    ensures r.execLogFileOutput == Some(if code == Some(0) then stdoutData else stderrData)
    ensures r.redirect == Some(LookupRedirect(jobId)) && r.jobId == jobId
  {
    if code != Some(0) then
      ProcessJobData(false, "Networks could not be analyzed.", jobId, Some(stderrData), Some(LookupRedirect(jobId)))
    else
      ProcessJobData(true, "Networks successfully processed.", jobId, Some(stdoutData), Some(LookupRedirect(jobId)))
  }

  /** One spawned run: the buffers the output callbacks append to and the promise. */
  class ChildRun {
    const fs: Fs
    const jobId: string
    const jobDir: Path
    const commandLine: string
    var stdoutData: string
    var stderrData: string
    var closed: bool
    var settlement: Settlement
    ghost var stdoutChunks: seq<string>
    ghost var stderrChunks: seq<string>

    /** Each buffer is its chunks concatenated in arrival order. */
    ghost predicate Valid()
      reads this
    {
      stdoutData == Concat(stdoutChunks) && stderrData == Concat(stderrChunks)
    }

    constructor (fs: Fs, jobId: string, jobDir: Path, commandLine: string)
      ensures Valid()
      ensures this.fs == fs && this.jobId == jobId && this.jobDir == jobDir && this.commandLine == commandLine
      ensures stdoutChunks == [] && stderrChunks == [] && !closed && settlement == Unsettled
    {
      this.fs := fs;
      this.jobId := jobId;
      this.jobDir := jobDir;
      this.commandLine := commandLine;
      stdoutData, stderrData := "", "";
      stdoutChunks, stderrChunks := [], [];
      closed, settlement := false, Unsettled;
    }

    /** `child.stdout.on('data')`. */
    method OnStdout(chunk: string)
      requires Valid() && !closed
      modifies this`stdoutData, this`stdoutChunks
      ensures Valid()
      ensures stdoutChunks == old(stdoutChunks) + [chunk]
      ensures stdoutData == old(stdoutData) + chunk
    {
      ConcatAppend(stdoutChunks, chunk);
      stdoutData := stdoutData + chunk;
      stdoutChunks := stdoutChunks + [chunk];
    }

    /** `child.stderr.on('data')`. */
    method OnStderr(chunk: string)
      requires Valid() && !closed
      modifies this`stderrData, this`stderrChunks
      ensures Valid()
      ensures stderrChunks == old(stderrChunks) + [chunk]
      ensures stderrData == old(stderrData) + chunk
    {
      ConcatAppend(stderrChunks, chunk);
      stderrData := stderrData + chunk;
      stderrChunks := stderrChunks + [chunk];
    }

    /** `child.on('error')`: the promise is rejected (if still pending); nothing is written. */
    method OnError(error: Thrown)
      modifies this`settlement
      ensures settlement == if old(settlement) == Unsettled then Rejected(error) else old(settlement)
      ensures unchanged(fs)
    {
      if settlement == Unsettled {
        settlement := Rejected(error);
      }
    }

    /** `child.on('close')`: run.log receives exactly the captured stdout, whatever the exit
        code; then info.json receives the terminal record and the promise resolves (if still
        pending). A failing write throws out of the handler. */
    method OnClose(code: Option<int>)
      requires Valid() && !closed && fs.Valid()
      modifies this`closed, this`settlement, fs`files
      ensures closed && fs.Valid()
      ensures
        var logErr := WriteError(fs.dirs, fs.denied, RunLogPath(jobDir));
        var withLog := old(fs.files)[RunLogPath(jobDir) := TextFile(stdoutData)];
        var infoErr := WriteError(fs.dirs, fs.denied, InfoPath(jobDir));
        var terminal := JsonFile(InfoJson(TerminalInfo(code, stderrData, commandLine)));
        if logErr.Some? then
          settlement == Crashed(logErr.value.AsThrown()) && fs.files == old(fs.files)
        else if infoErr.Some? then
          settlement == Crashed(infoErr.value.AsThrown()) && fs.files == withLog
        else
          && fs.files == withLog[InfoPath(jobDir) := terminal]
          && settlement == (if old(settlement) == Unsettled
                            then Resolved(CloseResult(jobId, code, stdoutData, stderrData))
                            else old(settlement))
    {
      closed := true;
      var err := fs.WriteFile(RunLogPath(jobDir), TextFile(stdoutData));
      if err.Some? {
        settlement := Crashed(err.value.AsThrown());
        return;
      }
      var info := TerminalInfo(code, stderrData, commandLine);
      err := fs.WriteFile(InfoPath(jobDir), JsonFile(InfoJson(info)));
      if err.Some? {
        settlement := Crashed(err.value.AsThrown());
        return;
      }
      if settlement == Unsettled {
        settlement := Resolved(CloseResult(jobId, code, stdoutData, stderrData));
      }
    }
  }

  /** How a call of `jobProcess` ends synchronously: a returned value, a thrown error, or a
      spawned child whose events settle the promise later. */
  datatype Start = Immediate(result: ProcessJobData) | Threw(error: Thrown) | Spawned(run: ChildRun)

  /** `jobProcess(jobId, jobData)`. Nothing is written unless the record is runnable; then
      the `processing` record is written before anything is spawned. */
  method JobProcess(fs: Fs, cwd: Path, jobId: string, jobData: Option<JobData>, blantDirectory: Option<string>)
    returns (start: Start)
    requires fs.Valid()
    modifies fs`files
    ensures fs.Valid()
    ensures
      var jobDir := JobLocation(jobId);
      var guard := GuardOf(old(fs.IsDirectory(jobDir)), old(fs.Read(InfoPath(jobDir))));
      match guard
      case Missing =>
        start == Immediate(ProcessJobData(false, "Job does not exist at " + jobDir, jobId, None, None))
        && fs.files == old(fs.files)
      case Unreadable =>
        start == Threw(Http(500, "Could not read info.json")) && fs.files == old(fs.files)
      case AlreadyDone(processed) =>
        start == Immediate(ProcessJobData(processed,
                                          if processed then "Networks already analyzed." else "Network analysis failed.",
                                          jobId, None, Some(LookupRedirect(jobId))))
        && fs.files == old(fs.files)
      case StillRunning =>
        start == Immediate(ProcessJobData(true, StillAligning, jobId, None, None)) && fs.files == old(fs.files)
      case Runnable(info) =>
        if WriteError(fs.dirs, fs.denied, InfoPath(jobDir)).Some? then
          start == Threw(Http(500, "Could not read info.json")) && fs.files == old(fs.files)
        else
          && fs.files == old(fs.files)[InfoPath(jobDir) := JsonFile(ProcessingRecord(info))]
          && (jobData.None? ==> start == Threw(JsError("TypeError", CannotRead("undefined", "networkName"))))
          && (jobData.Some? ==>
                && start.Spawned? && fresh(start.run) && start.run.Valid()
                && start.run.fs == fs && start.run.jobId == jobId && start.run.jobDir == jobDir
                && start.run.commandLine == CommandLine(blantDirectory, jobData.value, CommandNetworkPath(cwd, jobId, jobData.value))
                && start.run.stdoutChunks == [] && start.run.stderrChunks == []
                && !start.run.closed && start.run.settlement == Unsettled)
  {
    var jobDir := JobLocation(jobId);
    var guard := GuardOf(fs.IsDirectory(jobDir), fs.Read(InfoPath(jobDir)));
    match guard {
      case Missing =>
        return Immediate(ProcessJobData(false, "Job does not exist at " + jobDir, jobId, None, None));
      case Unreadable =>
        return Threw(Http(500, "Could not read info.json"));
      case AlreadyDone(processed) =>
        var status := if processed then "Networks already analyzed." else "Network analysis failed.";
        return Immediate(ProcessJobData(processed, status, jobId, None, Some(LookupRedirect(jobId))));
      case StillRunning =>
        return Immediate(ProcessJobData(true, StillAligning, jobId, None, None));
      case Runnable(info) =>
        var err := fs.WriteFile(InfoPath(jobDir), JsonFile(ProcessingRecord(info)));
        if err.Some? {
          return Threw(Http(500, "Could not read info.json"));
        }
        if jobData.None? {
          return Threw(JsError("TypeError", CannotRead("undefined", "networkName")));
        }
        var j := jobData.value;
        var commandLine := CommandLine(blantDirectory, j, CommandNetworkPath(cwd, jobId, j));
        var run := new ChildRun(fs, jobId, jobDir, commandLine);
        return Spawned(run);
    }
  }
}
