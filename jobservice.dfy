/** backend/src/services/jobService.ts: builds the record of a new job from the uploaded
    file's name and preprocesses it. The clock and the md5 digest are inputs. */
module JobService {
  import opened Wrappers
  import opened Text
  import opened Paths
  import opened Types
  import opened FileSystem
  import opened PreprocessService

  /** The three clock readings `createJob` takes: `Date.now()` for the id and two
      `new Date().toISOString()` readings for the timestamps. */
  datatype Clock = Clock(nowMs: int, createdAt: string, updatedAt: string)

  /** `name.substring(0, name.lastIndexOf('.'))`. */
  function NetworkName(name: string): (n: string)
    ensures LastIndexOf(name, '.') <= 0 ==> n == ""
    ensures LastIndexOf(name, '.') > 0 ==> n == name[..LastIndexOf(name, '.')]
  {
    Substring(name, 0, LastIndexOf(name, '.'))
  }

  /** The network name is empty exactly when the name has no `.` or only a leading one;
      otherwise it is the part before the last `.`, and what follows it is a `.` and a
      dot-free rest. */
  lemma NetworkNameSplit(name: string)
    ensures NetworkName(name) == "" <==> ('.' !in name || LastIndexOf(name, '.') == 0)
    ensures NetworkName(name) != "" ==>
      exists rest :: name == NetworkName(name) + "." + rest && '.' !in rest
  {
    var i := LastIndexOf(name, '.');
    if i > 0 {
      DotSplit(name, i);
      var rest := name[i + 1..];
      assert name == NetworkName(name) + "." + rest && '.' !in rest;
    }
  }

  /** Cutting a name at its last `.`. */
  lemma DotSplit(name: string, i: int)
    requires 0 <= i < |name| && name[i] == '.'
    requires forall j :: i < j < |name| ==> name[j] != '.'
    ensures name == name[..i] + "." + name[i + 1..]
    ensures '.' !in name[i + 1..]
  {
    var rest := name[i + 1..];
    assert name == name[..i] + [name[i]] + rest;
    forall k | 0 <= k < |rest| ensures rest[k] != '.' {
      assert rest[k] == name[i + 1 + k];
    }
  }

  /** `createHash('md5').update(`${timestamp}-${networkName}`).digest('hex')`, with the
      digest an input. */
  function JobId(nowMs: int, networkName: string, md5: string -> string): string {
    md5(IntToString(nowMs) + "-" + networkName)
  }

  /** `./process/<id>`. */
  function JobLocation(id: string): Path {
    "./process/" + id
  }

  /** The checks and the record of `createJob` before it calls `preprocess`. The second
      parameter is named `density` in the source, whatever the caller puts there. */
  function NewJobData(file: MulterFile, density: Density, graphletSize: int, clock: Clock, md5: string -> string): (r: Result<JobData>)
    ensures file.originalName == "" ==>
      r == Err(Http(400, "Invalid file names: network must have valid names"))
    ensures file.originalName != "" && NetworkName(file.originalName) == "" ==>
      r == Err(Http(400, "Failed to extract network names from file: " + file.originalName))
    ensures NetworkName(file.originalName) != "" && ExtName(file.originalName) == "" ==>
      r == Err(Http(400, "Invalid file extension for network: " + file.originalName))
    ensures r.Ok? <==> NetworkName(file.originalName) != "" && ExtName(file.originalName) != ""
    ensures r.Ok? ==>
      var j := r.value;
      && j.networkName == NetworkName(file.originalName)
      && j.extension == ToLower(ExtName(file.originalName))
      && j.id == JobId(clock.nowMs, j.networkName, md5)
      && j.status == Preprocessing
      && j.jobLocation == JobLocation(j.id)
      && j.attempts == 0
      && j.density == density && j.graphletSize == graphletSize
      && j.createdAt == clock.createdAt && j.updatedAt == clock.updatedAt
  {
    var fullName := file.originalName;
    if fullName == "" then
      Err(Http(400, "Invalid file names: network must have valid names"))
    else
      var networkName := NetworkName(fullName);
      if networkName == "" then
        Err(Http(400, "Failed to extract network names from file: " + fullName))
      else
        var jobId := JobId(clock.nowMs, networkName, md5);
        var extension := ToLower(ExtName(fullName));
        if extension == "" then
          Err(Http(400, "Invalid file extension for network: " + fullName))
        else
          Ok(JobData(jobId, Preprocessing, density, graphletSize, networkName, extension,
                     JobLocation(jobId), 0, clock.createdAt, clock.updatedAt))
  }

  /** The id depends on the clock and the network name only: two uploads whose names share
      the part before the last `.` get the same id at the same millisecond. */
  lemma SameNameSameId(f1: MulterFile, f2: MulterFile, d1: Density, d2: Density, g1: int, g2: int, clock: Clock, md5: string -> string)
    requires NetworkName(f1.originalName) == NetworkName(f2.originalName)
    requires NewJobData(f1, d1, g1, clock, md5).Ok? && NewJobData(f2, d2, g2, clock, md5).Ok?
    ensures NewJobData(f1, d1, g1, clock, md5).value.id == NewJobData(f2, d2, g2, clock, md5).value.id
  {
  }

  /** An accepted name splits into the network name and the extension: the name is the
      network name, a `.` and a rest; the extension is a `.` and a dot-free tail of the
      lower-cased name (trailing `/` separators aside). */
  lemma {:induction false} AcceptedNameParts(file: MulterFile, density: Density, graphletSize: int, clock: Clock, md5: string -> string)
    requires NewJobData(file, density, graphletSize, clock, md5).Ok?
    ensures var j := NewJobData(file, density, graphletSize, clock, md5).value;
      && j.extension[0] == '.'
      && '.' !in j.extension[1..]
      && EndsWith(ToLower(TrimTrailingSlashes(file.originalName)), j.extension)
      && (exists rest :: file.originalName == j.networkName + "." + rest)
  {
    var name := file.originalName;
    NetworkNameSplit(name);
    ExtNameShape(name);
    var e := ExtName(name);
    var b := BaseName(name);
    assert EndsWith(b, e);
    BaseNameEndsTrimmed(name);
    EndsWithTrans(TrimTrailingSlashes(name), b, e);
    LowerSuffix(TrimTrailingSlashes(name), e);
    LowerNoDot(e);
  }

  /** `createJob(file, density, graphletSize)`: the record is returned only when
      preprocessing succeeded; any preprocessing failure comes back as HTTP 500 carrying the
      failure's message and stack. */
  method CreateJob(fs: Fs, file: MulterFile, density: Density, graphletSize: int, clock: Clock, md5: string -> string)
    returns (r: Result<JobData>)
    requires fs.Valid()
    modifies fs
    ensures fs.Valid()
    ensures NewJobData(file, density, graphletSize, clock, md5).Err? ==>
      r == NewJobData(file, density, graphletSize, clock, md5) && unchanged(fs)
    ensures NewJobData(file, density, graphletSize, clock, md5).Ok? ==>
      var j := NewJobData(file, density, graphletSize, clock, md5).value;
      var failure := PreprocessFailure(old(fs.dirs), old(fs.files), old(fs.denied), file, j);
      && AfterPreprocess(old(fs.dirs), old(fs.files), old(fs.denied), file, j, fs.dirs, fs.files, fs.denied)
      && r == if failure.Some? then
                Err(HttpError(500, "Error during preprocessing: " + failure.value.message, Some(failure.value.Stack()), None))
              else Ok(j)
  {
    var created := NewJobData(file, density, graphletSize, clock, md5);
    if created.Err? {
      return created;
    }
    var jobData := created.value;
    var failure := Preprocess(fs, file, jobData, None, None);
    if failure.Some? {
      var e := failure.value;
      return Err(HttpError(500, "Error during preprocessing: " + e.message, Some(e.Stack()), None));
    }
    return Ok(jobData);
  }
}
