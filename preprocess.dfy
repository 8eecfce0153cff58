/** backend/src/services/preprocess.ts: lays out a job's directory, moves the uploaded
    network into it and writes the first info.json. */
module PreprocessService {
  import opened Wrappers
  import opened Paths
  import opened Types
  import opened FileSystem

  /** `<jobLocation>/networks`. */
  function NetworksDir(j: JobData): Path {
    Join(j.jobLocation, "networks")
  }

  /** `<jobLocation>/networks/<networkName>`, the network's own directory. */
  function NetworkDir(j: JobData): Path {
    Join(NetworksDir(j), j.networkName)
  }

  /** Where the uploaded file is stored: `<network dir>/<networkName><extension>`. */
  function NetworkLocation(j: JobData): Path {
    Join(NetworkDir(j), j.networkName + j.extension)
  }

  /** `<jobDir>/info.json`. */
  function InfoPath(jobDir: Path): Path {
    Join(jobDir, "info.json")
  }

  /** The record preprocessing leaves in info.json. */
  function PreprocessedInfo(j: JobData): JsValue {
    InfoJson(JobInfo(Preprocessed, j))
  }

  /** Every directory preprocessing creates, the last being the parent of the stored file. */
  function CreatedDirs(j: JobData): set<Path> {
    {j.jobLocation, NetworksDir(j), NetworkDir(j), Parent(NetworkLocation(j))}
  }

  /** The first of the three directory creations of the first step that fails. */
  function DirectoryError(files: map<Path, FileContent>, denied: set<Path>, j: JobData): Option<FsError> {
    var e1 := MkdirError(files, denied, j.jobLocation);
    var e2 := MkdirError(files, denied, NetworksDir(j));
    if e1.Some? then e1 else if e2.Some? then e2 else MkdirError(files, denied, NetworkDir(j))
  }

  /** The failure of the second step: creating the stored file's parent, then the rename. */
  function MoveError(dirs: set<Path>, files: map<Path, FileContent>, denied: set<Path>, file: MulterFile, j: JobData): Option<FsError> {
    var e := MkdirError(files, denied, Parent(NetworkLocation(j)));
    if e.Some? then e else RenameError(dirs + CreatedDirs(j), files, denied, file.path, NetworkLocation(j))
  }

  /** What preprocessing raises, step by step: the first failing directory creation, then
      the move, then the info.json write. */
  function PreprocessFailure(dirs: set<Path>, files: map<Path, FileContent>, denied: set<Path>, file: MulterFile, j: JobData): Option<Thrown> {
    var dirErr := DirectoryError(files, denied, j);
    var moveErr := MoveError(dirs, files, denied, file, j);
    if dirErr.Some? then Some(Http(500, "Error creating directories: " + dirErr.value.Message()))
    else if moveErr.Some? then Some(Http(500, "File " + file.originalName + " could not be moved to " + NetworkLocation(j)))
    else if WriteError(dirs + CreatedDirs(j), denied, InfoPath(j.jobLocation)).Some? then
      Some(Http(500, "Error writing job info to JSON file"))
    else None
  }

  /** The files after a successful preprocessing: the upload moved to its place and the
      `preprocessed` record written. */
  function StoredFiles(files: map<Path, FileContent>, file: MulterFile, j: JobData): map<Path, FileContent> {
    Moved(files, file.path, NetworkLocation(j))[InfoPath(j.jobLocation) := JsonFile(PreprocessedInfo(j))]
  }

  /** The layout: the network directory is `<jobLocation>/networks/<networkName>`, the file
      sits in it as `<networkName><extension>` (directly, when the name has no `/`), and
      info.json sits directly in the job directory. */
  lemma Layout(j: JobData)
    ensures NetworkDir(j) == j.jobLocation + "/networks/" + j.networkName
    ensures NetworkLocation(j) == NetworkDir(j) + "/" + j.networkName + j.extension
    ensures Parent(InfoPath(j.jobLocation)) == j.jobLocation
    ensures '/' !in j.networkName + j.extension ==> Parent(NetworkLocation(j)) == NetworkDir(j)
  {
    NetworkDirShape(j.jobLocation, j.networkName);
    ParentOfJoin(j.jobLocation, "info.json");
    if '/' !in j.networkName + j.extension {
      ParentOfJoin(NetworkDir(j), j.networkName + j.extension);
    }
  }

  /** Joining `networks` and then the network name spells `<root>/networks/<name>`. */
  lemma NetworkDirShape(root: Path, name: string)
    ensures Join(Join(root, "networks"), name) == root + "/networks/" + name
  {
    assert root + "/" + "networks" + "/" == root + "/networks/";
  }

  /** The file system after `preprocess` ran for `j`, given the state before it: the
      non-writable paths stay; directories are only added, and only the job's own; a failed
      directory step or move leaves the files as they were, a failed info.json write leaves
      the upload moved, and success creates every job directory and stores the upload with
      its info.json. */
  predicate AfterPreprocess(dirs0: set<Path>, files0: map<Path, FileContent>, denied0: set<Path>, file: MulterFile, j: JobData,
                            dirs: set<Path>, files: map<Path, FileContent>, denied: set<Path>)
  {
    && denied == denied0
    && dirs0 <= dirs <= dirs0 + CreatedDirs(j)
    && if DirectoryError(files0, denied0, j).Some? || MoveError(dirs0, files0, denied0, file, j).Some? then
         files == files0
       else if PreprocessFailure(dirs0, files0, denied0, file, j).Some? then
         files == Moved(files0, file.path, NetworkLocation(j))
       else
         dirs == dirs0 + CreatedDirs(j) && files == StoredFiles(files0, file, j)
  }

  /** `preprocess(file, jobData, mode, graphletSize)`. The last two parameters are declared
      but never read (and the only caller does not pass them). Each step runs only if the
      previous one succeeded; the first failure is raised as HTTP 500. */
  method Preprocess(fs: Fs, file: MulterFile, jobData: JobData, mode: Option<string>, graphletSize: Option<int>)
    returns (failure: Option<Thrown>)
    requires fs.Valid()
    modifies fs
    ensures fs.Valid() && fs.denied == old(fs.denied)
    ensures old(fs.dirs) <= fs.dirs <= old(fs.dirs) + CreatedDirs(jobData)
    ensures failure == PreprocessFailure(old(fs.dirs), old(fs.files), fs.denied, file, jobData)
    ensures
      var dirErr := DirectoryError(old(fs.files), fs.denied, jobData);
      var moveErr := MoveError(old(fs.dirs), old(fs.files), fs.denied, file, jobData);
      if dirErr.Some? || moveErr.Some? then
        fs.files == old(fs.files)
      else if failure.Some? then
        fs.files == Moved(old(fs.files), file.path, NetworkLocation(jobData))
      else
        && fs.dirs == old(fs.dirs) + CreatedDirs(jobData)
        && fs.files == StoredFiles(old(fs.files), file, jobData)
  {
    var jobLocation := jobData.jobLocation;
    var networkDir := NetworkDir(jobData);

    // create directories for the job
    var err := fs.Mkdir(jobLocation);
    if err.None? {
      err := fs.Mkdir(NetworksDir(jobData));
      if err.None? {
        err := fs.Mkdir(networkDir);
      }
    }
    if err.Some? {
      return Some(Http(500, "Error creating directories: " + err.value.Message()));
    }
    assert fs.dirs == old(fs.dirs) + {jobLocation, NetworksDir(jobData), networkDir};

    // move the network file into its directory
    var networkLocation := NetworkLocation(jobData);
    err := fs.Mkdir(Parent(networkLocation));
    if err.None? {
      assert fs.dirs == old(fs.dirs) + CreatedDirs(jobData);
      err := fs.Rename(file.path, networkLocation);
    }
    if err.Some? {
      return Some(Http(500, "File " + file.originalName + " could not be moved to " + networkLocation));
    }

    // write the job info
    err := fs.WriteFile(InfoPath(jobLocation), JsonFile(PreprocessedInfo(jobData)));
    if err.Some? {
      return Some(Http(500, "Error writing job info to JSON file"));
    }
    return None;
  }
}
