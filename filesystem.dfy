/** The part of Node's `fs` module the core uses, as a mutable object: a set of directories,
    a map from file paths to contents, and the set of paths the process may not create or
    write (permissions, read-only mounts). Every failure of a call follows from that state. */
module FileSystem {
  import opened Wrappers
  import opened Paths
  import opened Types

  /** What a file holds. A file written with `JSON.stringify` holds the JSON value itself;
      uploaded network files are opaque bytes. */
  datatype FileContent = TextFile(text: string) | JsonFile(value: JsValue) | BinaryFile(bytes: seq<bv8>)

  /** A Node file-system error: errno code, system call and path. */
  datatype FsError = FsError(code: string, syscall: string, path: Path) {
    /** Node's message, `<code>: <description>, <syscall> '<path>'`. */
    function Message(): string {
      code + ": " + Describe(code) + ", " + syscall + " '" + path + "'"
    }

    function AsThrown(): Thrown {
      JsError("Error", Message())
    }
  }

  function Describe(code: string): string {
    if code == "EACCES" then "permission denied"
    else if code == "EEXIST" then "file already exists"
    else if code == "ENOENT" then "no such file or directory"
    else if code == "EISDIR" then "illegal operation on a directory"
    else "operation failed"
  }

  /** `mkdirSync(p, { recursive: true })` fails when `p` is denied or is a file; an existing
      directory is fine. */
  function MkdirError(files: map<Path, FileContent>, denied: set<Path>, p: Path): (e: Option<FsError>)
    ensures e.None? <==> p !in denied && p !in files
  {
    if p in denied then Some(FsError("EACCES", "mkdir", p))
    else if p in files then Some(FsError("EEXIST", "mkdir", p))
    else None
  }

  /** `writeFileSync(p, …)` fails when `p` is denied, is a directory, or has no parent
      directory. */
  function WriteError(dirs: set<Path>, denied: set<Path>, p: Path): (e: Option<FsError>)
    ensures e.None? <==> p !in denied && p !in dirs && Parent(p) in dirs
  {
    if p in denied then Some(FsError("EACCES", "open", p))
    else if p in dirs then Some(FsError("EISDIR", "open", p))
    else if Parent(p) !in dirs then Some(FsError("ENOENT", "open", p))
    else None
  }

  /** `renameSync(src, dst)` of a file fails when there is no such file, or `dst` cannot be
      written. */
  function RenameError(dirs: set<Path>, files: map<Path, FileContent>, denied: set<Path>, src: Path, dst: Path): (e: Option<FsError>)
    ensures e.None? <==> src in files && dst !in denied && dst !in dirs && Parent(dst) in dirs
  {
    if src !in files then Some(FsError("ENOENT", "rename", src))
    else if dst in denied then Some(FsError("EACCES", "rename", dst))
    else if dst in dirs then Some(FsError("EISDIR", "rename", dst))
    else if Parent(dst) !in dirs then Some(FsError("ENOENT", "rename", dst))
    else None
  }

  /** The files after renaming `src` to `dst`: the content moves from `src` to `dst`
      (nothing changes when there is no file `src`). */
  function Moved(files: map<Path, FileContent>, src: Path, dst: Path): (r: map<Path, FileContent>)
    ensures src in files ==> dst in r && r[dst] == files[src]
    ensures src in files && src != dst ==> src !in r
    ensures src !in files ==> r == files
    ensures forall p :: p != src && p != dst ==> (p in r <==> p in files) && (p in files ==> r[p] == files[p])
  {
    if src in files then (files - {src})[dst := files[src]] else files
  }

  /** The result of `readFileSync(p)`. */
  datatype ReadResult = Contents(content: FileContent) | ReadFailed(error: FsError)

  /** The result of `JSON.parse` on a file's text: only a file written as JSON parses. */
  datatype ParseResult = Parsed(value: JsValue) | Unparsable(error: Thrown)

  function ParseJson(c: FileContent): (r: ParseResult)
    ensures r.Parsed? <==> c.JsonFile?
  {
    match c
    case JsonFile(v) => Parsed(v)
    case _ => Unparsable(JsError("SyntaxError", "Unexpected token: the text is not valid JSON"))
  }

  class Fs {
    var dirs: set<Path>
    var files: map<Path, FileContent>
    var denied: set<Path>

    /** No path is both a directory and a file. */
    ghost predicate Valid()
      reads this
    {
      dirs !! files.Keys
    }

    constructor (dirs: set<Path>, files: map<Path, FileContent>, denied: set<Path>)
      requires dirs !! files.Keys
      ensures Valid()
      ensures this.dirs == dirs && this.files == files && this.denied == denied
    {
      this.dirs := dirs;
      this.files := files;
      this.denied := denied;
    }

    /** `existsSync(p) && lstatSync(p).isDirectory()`. */
    predicate IsDirectory(p: Path)
      reads this
    {
      p in dirs
    }

    /** `existsSync(p)`. */
    predicate Exists(p: Path)
      reads this
    {
      p in dirs || p in files
    }

    /** `readFileSync(p)`. */
    function Read(p: Path): (r: ReadResult)
      reads this
      ensures r.Contents? <==> p in files && p !in dirs
      ensures r.Contents? ==> r.content == files[p]
    {
      if p in dirs then ReadFailed(FsError("EISDIR", "read", p))
      else if p !in files then ReadFailed(FsError("ENOENT", "open", p))
      else Contents(files[p])
    }

    /** `readFileSync(p, 'utf8')`; content that was not written as text is treated as
        unreadable. */
    function ReadText(p: Path): (r: Option<string>)
      reads this
      ensures r.Some? <==> p in files && p !in dirs && files[p].TextFile?
      ensures r.Some? ==> files[p] == TextFile(r.value)
    {
      if p in files && p !in dirs && files[p].TextFile? then Some(files[p].text) else None
    }

    method Mkdir(p: Path) returns (err: Option<FsError>)
      requires Valid()
      modifies this`dirs
      ensures Valid()
      ensures err == MkdirError(files, denied, p)
      ensures dirs == if err.None? then old(dirs) + {p} else old(dirs)
    {
      err := MkdirError(files, denied, p);
      if err.None? {
        dirs := dirs + {p};
      }
    }

    method WriteFile(p: Path, content: FileContent) returns (err: Option<FsError>)
      requires Valid()
      modifies this`files
      ensures Valid()
      ensures err == WriteError(dirs, denied, p)
      ensures files == if err.None? then old(files)[p := content] else old(files)
    {
      err := WriteError(dirs, denied, p);
      if err.None? {
        files := files[p := content];
      }
    }

    method Rename(src: Path, dst: Path) returns (err: Option<FsError>)
      requires Valid()
      modifies this`files
      ensures Valid()
      ensures err == RenameError(dirs, old(files), denied, src, dst)
      ensures files == if err.None? then Moved(old(files), src, dst) else old(files)
    {
      err := RenameError(dirs, files, denied, src, dst);
      if err.None? {
        files := Moved(files, src, dst);
      }
    }

    /** `unlink(p, callback)`: the file goes away; a failure is only reported to the
        callback, so nothing else observes it. */
    method Unlink(p: Path)
      requires Valid()
      modifies this`files
      ensures Valid()
      ensures files == if p in denied then old(files) else old(files) - {p}
    {
      if p !in denied {
        files := files - {p};
      }
    }
  }
}
