/** backend/src/middlewares/upload.ts: the upload filter, the stored file name, the
    single-file check and the removal of an uploaded file after a failure. */
module Upload {
  import opened Wrappers
  import opened Text
  import opened Paths
  import opened Types
  import opened FileSystem

  /** `path.extname(originalname).toLowerCase().slice(1)`. */
  function FilterExtension(originalName: string): (ext: string)
    ensures ExtName(originalName) == "" ==> ext == ""
    ensures ExtName(originalName) != "" ==> ToLower(ExtName(originalName)) == "." + ext
    ensures '.' !in ext
  {
    var e := ToLower(ExtName(originalName));
    ExtNameShape(originalName);
    if e == "" then "" else LowerNoDot(ExtName(originalName)); e[1..]
  }

  const AcceptedExtensions: set<string> := {"el", "gw"}

  /** The `fileFilter` callback: `None` is `cb(null, true)`, `Some(e)` is `cb(e)`. The
      extension is checked first, white space second. */
  function FileFilter(originalName: string): (r: Option<Thrown>)
    ensures FilterExtension(originalName) !in AcceptedExtensions ==>
      r == Some(Http(400, "Invalid file extension: " + FilterExtension(originalName) + ". Must be .el or .gw"))
    ensures FilterExtension(originalName) in AcceptedExtensions ==>
      (r.None? <==> !HasWhiteSpace(originalName))
    ensures FilterExtension(originalName) in AcceptedExtensions && r.Some? ==>
      r == Some(Http(400, "File names cannot contain whitespace."))
  {
    var fileExt := FilterExtension(originalName);
    if fileExt != "el" && fileExt != "gw" then
      Some(Http(400, "Invalid file extension: " + fileExt + ". Must be .el or .gw"))
    else if HasWhiteSpace(originalName) then
      Some(Http(400, "File names cannot contain whitespace."))
    else None
  }

  /** The filter does not see letter case. */
  lemma FilterIgnoresCase(originalName: string)
    ensures FileFilter(ToLower(originalName)) == FileFilter(originalName)
  {
    ExtNameLower(originalName);
    LowerIdempotent(ExtName(originalName));
    WhiteSpaceLower(originalName);
  }

  /** An accepted name ends, in any letter case, in `.el` or `.gw` (trailing separators
      aside), and has a nonempty extension. */
  lemma AcceptedNameEnding(originalName: string)
    requires FileFilter(originalName).None?
    ensures ExtName(originalName) != "" && !HasWhiteSpace(originalName)
    ensures EndsWith(ToLower(TrimTrailingSlashes(originalName)), ".el")
         || EndsWith(ToLower(TrimTrailingSlashes(originalName)), ".gw")
  {
    var x := FilterExtension(originalName);
    assert x in AcceptedExtensions;
    TrimmedEndsInExtension(originalName);
    LowerEnding(ToLower(TrimTrailingSlashes(originalName)), ToLower(ExtName(originalName)), x);
  }

  /** The path without trailing separators ends in its extension, in any letter case. */
  lemma TrimmedEndsInExtension(originalName: string)
    ensures EndsWith(ToLower(TrimTrailingSlashes(originalName)), ToLower(ExtName(originalName)))
  {
    var e := ExtName(originalName);
    var t := TrimTrailingSlashes(originalName);
    ExtNameShape(originalName);
    BaseNameEndsTrimmed(originalName);
    EndsWithTrans(t, BaseName(originalName), e);
    LowerSuffix(t, e);
  }

  lemma LowerEnding(lt: string, le: string, x: string)
    requires EndsWith(lt, le) && le == "." + x && x in AcceptedExtensions
    ensures EndsWith(lt, ".el") || EndsWith(lt, ".gw")
  {
  }

  /** The `filename` callback of the disk storage: field name, `-`, the millisecond clock,
      `-`, the random number, and the original extension. */
  function StoredFilename(fieldname: string, nowMs: int, randomPart: nat, originalName: string): string {
    Stem(fieldname, nowMs, randomPart) + ExtName(originalName)
  }

  function Stem(fieldname: string, nowMs: int, randomPart: nat): string {
    fieldname + "-" + IntToString(nowMs) + "-" + IntToString(randomPart)
  }

  /** The stored name starts with the field name and a `-`, and ends with the original
      extension. */
  lemma StoredFilenameShape(fieldname: string, nowMs: int, randomPart: nat, originalName: string)
    ensures var name := StoredFilename(fieldname, nowMs, randomPart, originalName);
      |fieldname| < |name| && name[..|fieldname| + 1] == fieldname + "-"
    ensures EndsWith(StoredFilename(fieldname, nowMs, randomPart, originalName), ExtName(originalName))
  {
    DashPrefix(fieldname, IntToString(nowMs), IntToString(randomPart));
    PrefixThenSuffix(Stem(fieldname, nowMs, randomPart), fieldname + "-", ExtName(originalName));
  }

  lemma DashPrefix(f: string, a: string, b: string)
    ensures var s := f + "-" + a + "-" + b; |f| < |s| && s[..|f| + 1] == f + "-"
  {
    var s, p := f + "-" + a + "-" + b, f + "-";
    assert forall k :: 0 <= k < |p| ==> s[k] == p[k];
  }

  /** Appending `e` keeps a prefix `p` and ends with `e`. */
  lemma PrefixThenSuffix(stem: string, p: string, e: string)
    requires |p| <= |stem| && stem[..|p|] == p
    ensures (stem + e)[..|p|] == p && EndsWith(stem + e, e)
  {
    assert (stem + e)[..|p|] == stem[..|p|];
    assert (stem + e)[|stem|..] == e;
  }

  /** The stored name keeps the original extension exactly, so it passes the extension
      filter exactly when the original did; this needs a field name without `.` or `/`,
      as multer's field `file` is. */
  lemma StoredFilenameKeepsExtension(fieldname: string, nowMs: int, randomPart: nat, originalName: string)
    requires '.' !in fieldname && '/' !in fieldname
    ensures ExtName(StoredFilename(fieldname, nowMs, randomPart, originalName)) == ExtName(originalName)
    ensures FilterExtension(StoredFilename(fieldname, nowMs, randomPart, originalName)) == FilterExtension(originalName)
  {
    var a, b := IntToString(nowMs), IntToString(randomPart);
    NumberHasNoDotOrSlash(nowMs);
    NumberHasNoDotOrSlash(randomPart);
    var stem := fieldname + "-" + a + "-" + b;
    assert '.' !in stem && '/' !in stem;
    ExtNameShape(originalName);
    ExtNameAfterStem(stem, ExtName(originalName));
  }

  lemma NumberHasNoDotOrSlash(n: int)
    ensures '.' !in IntToString(n) && '/' !in IntToString(n)
  {
    var s := IntToString(n);
    assert forall k :: 0 <= k < |s| ==> s[k] == '-' || '0' <= s[k] <= '9';
  }

  /** `validateSingleFileMiddleware`: `None` is `next()`, `Some(e)` is `next(e)`. Its
      `catch` removes the file only when there is one, and the only error raised in the
      `try` is raised when there is none, so nothing is ever removed. */
  function ValidateSingleFile(file: Option<MulterFile>): (next: Option<Thrown>)
    ensures next.None? <==> file.Some?
    ensures next.Some? ==> next.value.HttpError? && next.value.statusCode == 400
  {
    if file.None? then Some(Http(400, "A .el or .gw file must be uploaded.")) else None
  }

  /** `cleanupFile(file)`: nothing without a file or a path; otherwise the file is
      unlinked (a failing unlink is only logged). */
  method CleanupFile(fs: Fs, file: Option<MulterFile>)
    requires fs.Valid()
    modifies fs`files
    ensures fs.Valid()
    ensures file.None? || file.value.path == "" ==> fs.files == old(fs.files)
    ensures file.Some? && file.value.path != "" ==>
      fs.files == if file.value.path in fs.denied then old(fs.files) else old(fs.files) - {file.value.path}
  {
    if file.None? || file.value.path == "" {
      return;
    }
    fs.Unlink(file.value.path);
  }

  const DefaultJobError := "An error occurred during job processing"

  /** `cleanupFileErrorHandler`: the upload is removed and a 500 carrying the original
      message (or the default one) is passed on; the original status is dropped. */
  method CleanupFileErrorHandler(fs: Fs, err: Thrown, file: Option<MulterFile>) returns (forwarded: Thrown)
    requires fs.Valid()
    modifies fs`files
    ensures fs.Valid()
    ensures forwarded == Http(500, if err.message != "" then err.message else DefaultJobError)
    ensures file.None? || file.value.path == "" ==> fs.files == old(fs.files)
    ensures file.Some? && file.value.path != "" ==>
      fs.files == if file.value.path in fs.denied then old(fs.files) else old(fs.files) - {file.value.path}
  {
    CleanupFile(fs, file);
    forwarded := Http(500, if err.message != "" then err.message else DefaultJobError);
  }
}
