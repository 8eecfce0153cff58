# BLANT web service: job lifecycle and validators in Dafny

This project models the part of the BLANT web service that does the bookkeeping. A user
uploads a network file (`.el` or `.gw`). The backend files it as a job with an id and a
directory under `process/`, and keeps an `info.json` record per job. That record moves
through the statuses `preprocessed`, `processing`, and then `processed` or `failed`. The
external BLANT analysis decides the last step by its exit code. HTTP handlers report the
state of a job, and a browser-side form checks the upload before sending it.

The model is one Dafny module per source file, plus shared modules:

| module | file | models |
|---|---|---|
| `Wrappers` | wrappers.dfy | `Option` |
| `Text` | text.dfy | the JavaScript string operations used: `lastIndexOf`, `substring`, `toLowerCase` (ASCII), `trim`, `endsWith`, `split`/`join`, `/\s/`, `parseInt` |
| `Paths` | paths.dfy | Node's `path.join`, `path.dirname`, `path.basename`, `path.extname` |
| `Types` | types.dfy | the records of backend/types/types.ts, parsed JSON values, truthiness, `String(v)`, and the thrown errors |
| `FileSystem` | filesystem.dfy | `class Fs`: directories, files and non-writable paths, with `mkdirSync`, `writeFileSync`, `renameSync`, `readFileSync`, `existsSync`, `unlink`. Every failure follows from that state. |
| `PreprocessService` | preprocess.dfy | backend/src/services/preprocess.ts |
| `JobService` | jobservice.dfy | backend/src/services/jobService.ts |
| `ProcessService` | processservice.dfy | backend/src/services/processService.ts, with the child process as `class ChildRun` and its events |
| `JobController` | jobcontroller.dfy | backend/src/controllers/jobController.ts |
| `Upload` | upload.dfy | backend/src/middlewares/upload.ts |
| `TypeGuards` | typeguards.dfy | backend/src/utils/typeGuards.ts |
| `JsonToJobData` | jsontojobdata.dfy | backend/src/utils/jsonToJobData.ts |
| `ErrorHandler` | errorhandler.dfy | backend/src/middlewares/ErrorHandler.ts |
| `JobSubmission` | jobsubmission.dfy | frontend/src/context/JobSubmissionContext.tsx, with the form state as `class SubmissionForm` |

Some inputs become parameters:
- the clock (`Clock`), the md5 digest and multer's random suffix;
- the working directory used by `path.resolve` (`cwd`) and the directory `__dirname/../process` (`processRoot`);
- `NODE_ENV === 'development'`, `BLANT_DIRECTORY` and `REDIRECT_AFTER_SUBMIT`;
- the output of `getJobExecutionLog`;
- what `api.submitJob` returns or throws.

A handler's ending is the datatype `Outcome`:
- `res.status(code).json(body)` is `Respond(Reply(code, body))`;
- `next(err)` is `Forward(err)`;
- `res.download` is `Download(path, name)`.

An asynchronous function that rejects returns `Result.Err`.

## Model

| member | source | states |
|---|---|---|
| `Types.ParseStatus` | backend/types/types.ts:84 | the status read from a string renders back to that string; it is `Other` exactly for strings outside the six known statuses |
| `Types.ParseStatusName` | backend/types/types.ts:84 | writing a known status and reading it back gives the same status |
| `Types.InfoJson` | backend/types/types.ts:138-155 | every info record is an object whose `status` field is the record's status name |
| `Types.StatusOf` | backend/src/controllers/jobController.ts:216-254 | a string `status` reads through `ParseStatus`, and any other value (a non-string or `undefined`) is `Other` of its `String(...)` rendering; so it denotes a known status exactly when it is that status's string |
| `Text.ParseIntReadsPrefix` | backend/src/controllers/jobController.ts:103 | `parseInt(s, 10)` of white-space padding, an optional sign, a run of digits and then anything that does not start with a digit is the run's decimal value, negated after `-` |
| `Text.ParseIntNoDigits` | backend/src/controllers/jobController.ts:103-104 | padding and an optional sign with no digit after them give NaN (`None`), whatever follows |
| `Text.ParseIntOneDigit` | backend/src/controllers/jobController.ts:103 | a single digit followed by text that does not start with a digit parses as that digit |
| `Text.ParseIntShown` | backend/src/controllers/jobController.ts:103-108 | `parseInt` reads back the decimal rendering of every integer |
| `Types.Significand` | backend/src/controllers/jobController.ts:103 | a positive integer is its significand, which does not end in 0, times a power of ten; `SignificandOf` gives back `(c, z)` for `c × 10^z` |
| `Types.LargeNumberShown` | backend/src/controllers/jobController.ts:103 | `String(x)` of a number `c × 10^z` with one digit `c` and `z ≥ 21` is `<c>e+<z>` (exponent notation), which is what `parseInt` then reads |
| `Paths.ExtNameShape` | backend/src/services/jobService.ts:44 | `path.extname` (`ExtName`) is empty or a `.` followed by a dot-free suffix of the base name; it is nonempty exactly when the base name has a `.` past its first character and is not `..` |
| `FileSystem.Fs.Mkdir` | backend/src/services/preprocess.ts:23-25 | `mkdirSync(p)`: `p` is a directory afterwards unless creation failed, and the failure is the error the state determines; missing ancestors are not created (see `FileSystem.Fs.Mkdir` under Left out) |
| `FileSystem.Fs.WriteFile` | backend/src/services/preprocess.ts:48-54 | the file holds exactly the written content unless the write failed, in which case nothing changes |
| `FileSystem.Fs.Rename` | backend/src/services/preprocess.ts:37 | on success the content moves from the source to the target path; on failure nothing changes |
| `FileSystem.Fs.Read` | backend/src/controllers/jobController.ts:212 | `readFileSync` gives content exactly when the path is a file and not a directory, and then the file's content |
| `FileSystem.Fs.ReadText` | backend/src/controllers/jobController.ts:225 | `readFileSync(p, 'utf8')` of run.log: it succeeds exactly for a file holding text, and gives that text; a file holding a JSON value or bytes counts as unreadable (see `FileSystem.Fs.ReadText` under Left out) |
| `FileSystem.Fs.Unlink` | backend/src/middlewares/upload.ts:75 | the file is removed, unless its path is not writable, in which case nothing changes |
| `PreprocessService.Layout` | backend/src/services/preprocess.ts:15-34 | the network directory is `<jobLocation>/networks/<networkName>`; the file sits in it as `<networkName><extension>`; info.json sits directly in the job directory |
| `PreprocessService.Preprocess` | backend/src/services/preprocess.ts:7-58 | the steps run in order (mkdir ×3, mkdir + rename, write info.json). The first failure is raised as HTTP 500 with its message and stops the rest: a failed directory step or move leaves the files unchanged, and a failed write leaves the file moved. On success the upload is at its network location and info.json holds `{status: "preprocessed", data: jobData}`. |
| `JobService.NetworkName` | backend/src/services/jobService.ts:28 | the name is the prefix before the last `.`, empty when there is no `.` or only a leading one |
| `JobService.NetworkNameSplit` | backend/src/services/jobService.ts:28-35 | the network name is empty exactly when the file name has no `.` or starts with its only one; otherwise the file name is the network name, a `.` and a dot-free rest |
| `JobService.NewJobData` | backend/src/services/jobService.ts:21-62 | an empty name, an empty network name and an empty extension are each rejected with 400 and their own message, checked in that order; the record is created exactly when the network name and the extension are nonempty. The record has status `preprocessing` and 0 attempts. Its id is `md5("<ms>-<networkName>")`, its location `./process/<id>`, and its extension the lower-cased extname. Density, graphlet size and timestamps are copied from the inputs. |
| `JobService.SameNameSameId` | backend/src/services/jobService.ts:38-41 | the id depends on the timestamp and network name only |
| `JobService.AcceptedNameParts` | backend/src/services/jobService.ts:28-47 | an accepted name is the network name, a `.` and a rest; the extension is a `.` and a dot-free tail of the lower-cased name |
| `JobService.CreateJob` | backend/src/services/jobService.ts:15-84 | a rejected name returns the rejection and touches nothing. Otherwise directories are only added, and only the job's own, and the non-writable paths stay. A preprocessing failure comes back as 500 `Error during preprocessing: <message>` with its stack; the files are unchanged when a directory step or the move failed, and the upload is moved when only the info.json write failed. On success the record is returned, all job directories exist, and the files are the stored upload and its info.json. |
| `ProcessService.ProcessingRecord` | backend/src/services/processService.ts:46-49 | the `processing` record has the fields of the old record plus `status`, with status `processing` and every other field unchanged |
| `ProcessService.GuardOf` | backend/src/services/processService.ts:20-43 | the decision before any write: no directory is `Missing`; an unreadable, non-JSON or `null` record is `Unreadable`; `processed` or `failed` is `AlreadyDone` (success iff processed); `processing` is `StillRunning`; any other record is `Runnable` |
| `ProcessService.TerminalRecordNotRerun` | backend/src/services/processService.ts:34-40 | a record written at the end of a run (processed or failed) stops every later call, with success exactly for processed |
| `ProcessService.ProcessingRecordNotRestarted` | backend/src/services/processService.ts:41-50 | after the `processing` write, a second call starts nothing |
| `ProcessService.PreprocessedIsRunnable` | backend/src/services/processService.ts:41-50 | a freshly preprocessed record is runnable, and its `processing` rewrite keeps the job data |
| `ProcessService.CommandPathIsNotStoredPath` | backend/src/services/processService.ts:56 | the file is stored at `networks/<name>/<name><ext>` while the command names `networks/<name><ext>`, so the resolved command path never equals the resolved stored path |
| `ProcessService.CommandNetworkPath` | backend/src/services/processService.ts:56 | `path.resolve(jobDir, 'networks', name + ext)` is `<cwd>/process/<id>/networks/<name><ext>` |
| `ProcessService.CommandArguments` | backend/src/services/processService.ts:59 | when no interpolated value holds a space, `CommandLine` splits at spaces into exactly `cd`, the BLANT directory, `&&`, `source`, `./setup.sh`, `&&`, `./scripts/blant-clusters.sh`, `./blant`, the graphlet size, the density and the network path |
| `ProcessService.TerminalInfo` | backend/src/services/processService.ts:96-125 | the terminal record is `processed` exactly for exit code 0, otherwise `failed` with the captured stderr; both carry the command line |
| `ProcessService.CloseResult` | backend/src/services/processService.ts:108-132 | success exactly for exit code 0; the log is stdout on success and stderr on failure; both carry the `/lookup-job/<id>` redirect |
| `ProcessService.ChildRun.constructor` | backend/src/services/processService.ts:67-68 | both buffers start empty and the promise is pending |
| `ProcessService.ChildRun.OnStdout` | backend/src/services/processService.ts:76-78 | the chunk is appended; stdout stays the concatenation of its chunks in arrival order |
| `ProcessService.ChildRun.OnStderr` | backend/src/services/processService.ts:81-83 | the chunk is appended; stderr stays the concatenation of its chunks in arrival order |
| `ProcessService.ChildRun.OnError` | backend/src/services/processService.ts:85-88 | a spawn error rejects a pending promise and writes nothing |
| `ProcessService.ChildRun.OnClose` | backend/src/services/processService.ts:90-134 | run.log receives exactly the accumulated stdout whatever the exit code; then info.json receives the terminal record chosen by the exit code and a pending promise resolves with `CloseResult`; a failing write throws out of the handler and stops what follows |
| `ProcessService.JobProcess` | backend/src/services/processService.ts:14-135 | missing directory gives `success: false` and `Job does not exist at <dir>`. A terminal record gives the redirect to `/lookup-job/<id>`, and a `processing` one gives "Networks are still being aligned." with success true. None of these writes anything. An unreadable record, or a failing `processing` write, raises 500 `Could not read info.json`. Otherwise the `processing` record is written before a run is started with empty buffers and the command line. |
| `JobController.ValidateSubmitBody` | backend/src/controllers/jobController.ts:88-108 | the checks in order: mode present, mode one of f/o/g/i/j, graphlet size present, parsable, within 3..8, each failure a 400 with its own message (a parsed size outside 3..8 gives `graphlet size must be between 3 and 8.`); accepted exactly when all hold, with the parsed size |
| `JobController.ShownSizesAccepted` | backend/src/controllers/jobController.ts:99-108 | every size 3..8 sent as its decimal text, with any valid mode, is accepted as exactly that size |
| `JobController.ParsedSizeAccepted` | backend/src/controllers/jobController.ts:99-108 | any truthy size whose `String(...)` rendering parses to a value in 3..8 is accepted, with any valid mode, as that value |
| `JobController.ExponentSizeAccepted` | backend/src/controllers/jobController.ts:99-108 | a number `c × 10^z` with `c` in 3..8 and `z ≥ 21` is accepted as graphlet size `c`: it renders as `<c>e+<z>` and `parseInt` stops at the `e` |
| `JobController.SubmitJobController` | backend/src/controllers/jobController.ts:85-128 | a failed field check is forwarded without touching any file; then a missing file gives 400 `No file uploaded`; then `createJob` receives the mode in its density slot. A rejected name is forwarded with no file changed. For an accepted name the file system ends as `createJob` leaves it (`PreprocessService.AfterPreprocess`: non-writable paths kept, only the job's directories added, the files as each failure or the success leaves them); a preprocessing failure is forwarded as 500 `Error during preprocessing: <message>` with its stack, and otherwise the reply is 201 `Job submitted successfully` with the record. |
| `JobController.AcceptedUploadCreatesRecord` | backend/src/controllers/jobController.ts:111-115 | every upload the multer filter lets through has a name `createJob` accepts |
| `JobController.ProcessReply` | backend/src/controllers/jobController.ts:142-170 | always 200 with message `result.status`; a result with a redirect becomes a `redirect` response, otherwise a `success` response whose log is the execution log (only while still aligning) or the result's own |
| `JobController.ExecutionLogOnlyWhileAligning` | backend/src/controllers/jobController.ts:143-146 | the execution log changes the reply only when the status is "Networks are still being aligned." |
| `JobController.ProcessController` | backend/src/controllers/jobController.ts:133-175 | a missing id gives 400. A missing job directory replies 200 with success false and `Job does not exist at <dir>`; an unreadable record forwards 500 `Could not read info.json`; a finished record replies with success exactly for `processed`, its message and the `/lookup-job/<id>` redirect; a running one replies "Networks are still being aligned." with the execution log. None of these changes a file. A runnable job is rewritten as `processing` and the call then fails, because the record is not passed on. |
| `Text.Trim` | backend/src/controllers/jobController.ts:228 | `line.trim()` is the slice of the line from its first character that is not white space, with white space only before and after it, and it neither starts nor ends with white space |
| `JobController.Spans` | backend/src/controllers/jobController.ts:228 | one span `<span>trimmed line</span>` per line, in order |
| `JobController.FailedLogLines` | backend/src/controllers/jobController.ts:226-229 | the failed-job log has one span per line of run.log, and splitting it at line breaks gives back exactly those spans |
| `JobController.ProcessedLogIsSpans` | backend/src/controllers/jobController.ts:268-269 | the processed-job log is the spans of the lines run together |
| `JobController.SpanHasNoLineBreak` | backend/src/controllers/jobController.ts:228 | a span of a line holds no line break |
| `JobController.RunLogState` | backend/src/controllers/jobController.ts:220-225 | no log exactly when run.log does not exist; a text log exactly when it exists and reads as text, and then it is the file's text |
| `JobController.FailedLog` | backend/src/controllers/jobController.ts:220-236 | `FormatLog` with line breaks: a text log gives one `<span>` per line of run.log, and splitting the result at its line breaks gives back exactly those spans; a missing or unreadable log gives its notice |
| `JobController.ExecutionLog` | backend/src/controllers/jobController.ts:262-275 | `FormatLog` with no separator: a text log gives the spans of its lines run together, with no line break left in them; a missing or unreadable log gives its notice |
| `JobController.SpansAreSingleLines` | backend/src/controllers/jobController.ts:269 | the spans of a log's lines, run together, contain no line break |
| `JobController.StatusOutcome` | backend/src/controllers/jobController.ts:216-298 | `failed` forwards 400 with the failed log; `preprocessed` or `processing` replies 200 redirecting to `/submit-job/<id>`; `processed` without a truthy `zipName` forwards 500, and with one replies 200 success with the note, `<baseUrl>/api/download/<id>` and the execution log; any other status forwards 500 `Unhandled job status: <status>` |
| `JobController.RecordOutcome` | backend/src/controllers/jobController.ts:212-298 | after a parse, status `failed` gives 400 with the formatted log; `preprocessed` or `processing` redirects to `/submit-job/<id>`; `processed` without `zipName` gives 500; `processed` with one gives 200 with the note, `<baseUrl>/api/download/<id>` and the execution log; any other status gives 500 `Unhandled job status` |
| `JobController.GetJobResults` | backend/src/controllers/jobController.ts:186-302 | 400 for no id, 404 for no job directory, 500 for no info.json, in that order; then `RecordOutcome`; nothing changes |
| `JobController.ProcessedRunHasNoResults` | backend/src/controllers/jobController.ts:254-259 | the record a successful run writes has no `zipName`, so its results always give 500 |
| `JobController.FailedRunReportsLog` | backend/src/controllers/jobController.ts:218-241 | a failed run's record gives 400 with the formatted run log |
| `JobController.DownloadZipJob` | backend/src/controllers/jobController.ts:26-80 | 400, 404, 500 for id, directory, info.json in that order. After that a download happens exactly when the record parses with a nonempty string `zipName` whose file exists, and is that file. Every other case is 500 `Could not read job data.` |
| `JobController.SubmitDefaultController` | backend/src/controllers/jobController.ts:306-337 | no file gives 400; otherwise `createJob` with `f` and 3. A rejected name is forwarded with no file changed; for an accepted one the file system ends as `createJob` leaves it (`PreprocessService.AfterPreprocess`), a preprocessing failure is forwarded as 500 with its message and stack, and otherwise the reply is 302 to `/submit-job/<id>` exactly when REDIRECT_AFTER_SUBMIT is `true`, else 201 with the record |
| `Upload.FilterExtension` | backend/src/middlewares/upload.ts:34 | the lower-cased extname without its dot, empty when there is no extension, and never containing a `.` |
| `Upload.FileFilter` | backend/src/middlewares/upload.ts:28-49 | an extension other than `el`/`gw` is rejected with 400 naming it; then white space in the name is rejected with 400; passing both checks is acceptance |
| `Upload.FilterIgnoresCase` | backend/src/middlewares/upload.ts:34-48 | the filter gives the same answer for a name and its lower-cased form |
| `Upload.AcceptedNameEnding` | backend/src/middlewares/upload.ts:34-48 | an accepted name has an extension and no white space, and ends in `.el` or `.gw` in some letter case |
| `Upload.StoredFilenameShape` | backend/src/middlewares/upload.ts:16-19 | the name `StoredFilename` gives starts with `<fieldname>-` and ends with the original extension |
| `Upload.StoredFilenameKeepsExtension` | backend/src/middlewares/upload.ts:18 | for a field name without `.` or `/`, the stored name has exactly the original extension, so the filter sees the same extension |
| `Upload.ValidateSingleFile` | backend/src/middlewares/upload.ts:52-70 | `next()` exactly when there is a file; otherwise a 400 is forwarded |
| `Upload.CleanupFile` | backend/src/middlewares/upload.ts:72-78 | nothing without a file or a path; otherwise only that file is removed (a failing unlink changes nothing) |
| `Upload.CleanupFileErrorHandler` | backend/src/middlewares/upload.ts:80-89 | the upload is cleaned up and a 500 with the error's message, or the default message, is forwarded |
| `TypeGuards.GetValidJobModes` | backend/src/utils/typeGuards.ts:23-25 | five distinct one-letter modes |
| `TypeGuards.ValidModesAreListed` | backend/src/utils/typeGuards.ts:6-8 | `IsValidJobMode` holds exactly for strings listed by `getValidJobModes`, and agrees with the controller's inline check |
| `TypeGuards.InvalidModeMessage` | backend/src/utils/typeGuards.ts:15 | the message lists exactly the valid modes joined by `, ` |
| `TypeGuards.ValidateJobMode` | backend/src/utils/typeGuards.ts:13-18 | the input is returned unchanged exactly when the guard holds; otherwise an Error with the message is thrown |
| `TypeGuards.ValidateIdempotent` | backend/src/utils/typeGuards.ts:13-18 | validating an accepted mode again accepts it unchanged |
| `JsonToJobData.OrElse` | backend/src/utils/jsonToJobData.ts:11 | `p \|\| fallback`: a truthy value is kept, any other replaced |
| `JsonToJobData.NumberOr` | backend/src/utils/jsonToJobData.ts:16-17 | 0 and NaN become the default, every other number is kept |
| `JsonToJobData.JsonToJobData` | backend/src/utils/jsonToJobData.ts:3-21 | `null` throws a TypeError. Otherwise the record is returned exactly when `id` is a nonempty string, and the error is `Invalid job ID`. id, jobLocation, extension, networkName and mode pass through. Status, size and attempts take their `\|\|` defaults; each timestamp defaults to its own reading of the clock. |
| `JsonToJobData.DefaultsAreTruthy` | backend/src/utils/jsonToJobData.ts:11-19 | every accepted record has a truthy status, graphlet size and timestamps; a falsy status reads as `pending` |
| `JsonToJobData.RoundTrip` | backend/src/utils/jsonToJobData.ts:3-21 | reading back a stored `JobData` gives its strings, status, attempts and timestamps unchanged, and its graphlet size unless it was 0 (which reads as 3) |
| `ErrorHandler.Handle` | backend/src/middlewares/ErrorHandler.ts:6-59 | A ZodError gives 400 `Validation failed` with its issues. Other errors take the HttpError's code (otherwise 500) and their message (otherwise the default). `errorLog` is present exactly in development for an HttpError with a nonempty log, and `stackTrace` only in development. The body always has status `error`, no data, and details repeating the message. |
| `ErrorHandler.ProductionHidesDiagnostics` | backend/src/middlewares/ErrorHandler.ts:42-47 | outside development no reply carries a log or stack trace |
| `ErrorHandler.BadRequestReply` | backend/src/middlewares/ErrorHandler.ts:38-40 | a bad request reaches the client with 400 and its own message |
| `JobSubmission.ValidateFile` | frontend/src/context/JobSubmissionContext.tsx:60-73 | valid exactly when the lower-cased name ends in `.el` and the size is at most 1,048,576 bytes; the extension is checked first, each failure has its message, a valid file has none |
| `JobSubmission.ValidateFileIgnoresCase` | frontend/src/context/JobSubmissionContext.tsx:63 | the case of the name does not change the verdict |
| `JobSubmission.IsNumericString` | frontend/src/context/JobSubmissionContext.tsx:110 | true exactly for one or more digits, optionally followed by `.` and one or more digits |
| `JobSubmission.InitialOptions` | frontend/src/context/JobSubmissionContext.tsx:50-57 | the initial options hold all six option names |
| `JobSubmission.OptionValueOf` | frontend/src/context/JobSubmissionContext.tsx:112-116 | the stored value keeps the input text and is a number exactly when the text is numeric |
| `JobSubmission.SubmissionForm.constructor` | frontend/src/context/JobSubmissionContext.tsx:48-58 | no file, the initial options, no error, not submitted |
| `JobSubmission.SubmissionForm.HandleBlantOptionsChange` | frontend/src/context/JobSubmissionContext.tsx:103-132 | an empty value returns false and changes nothing; otherwise only `optionName` changes, to a number exactly when the text is numeric, and true is returned |
| `JobSubmission.SubmissionForm.HandleFileInputChange` | frontend/src/context/JobSubmissionContext.tsx:75-101 | no file returns false and changes nothing; a valid first file becomes the form's file; an invalid one clears the form's file and the input's value; every file the form holds passed `validateFile` |
| `JobSubmission.SubmissionForm.HandleSubmit` | frontend/src/context/JobSubmissionContext.tsx:134-171 | without a file only the error "Please upload a network file." is set and no request is sent; otherwise the file and options are sent, a returned redirect is followed, and a thrown error is shown and clears `isSubmitted` |
| `JobSubmission.SubmissionForm.ResetForm` | frontend/src/context/JobSubmissionContext.tsx:173-177 | the file and the error are cleared; the options stay |

## Source inconsistencies reproduced

The model reproduces these as the code has them:
- Argument order: `submitJobController` passes the mode where `createJob` declares the density (jobController.ts:115, jobService.ts:15-19). `Density` therefore holds text or a number, and the record stores the mode letter as its density.
- Argument counts for `jobProcess`: it is called with the id only (jobController.ts:139). `JobController.ProcessController` passes `None` for the record. A runnable job is therefore rewritten as `processing`, and reading `networkName` of `undefined` then throws. No analysis is started from the controller, and a second request for the same job finds it "still being aligned".
- Argument counts for `preprocess`: it is declared with four parameters and called with two. The last two are never read (`PreprocessService.Preprocess` takes them as `Option`s).
- Network path: the file is stored at `networks/<name>/<name><ext>`, while the command is given `networks/<name><ext>` (`ProcessService.CommandPathIsNotStoredPath`).
- Job roots: jobs are created under `./process` relative to the working directory. `getJobResults` and `downloadZipJob` look in `__dirname/../process`. The model keeps the two as separate parameters.
- Missing zip name: a successful run writes `{status: 'processed', command}` without a `zipName`. The results of a processed job therefore always give 500 (`JobController.ProcessedRunHasNoResults`).
- Size limit: the browser check allows 1 MB although its message says 5 MB. multer's own limit (1,000,000 bytes) is not modelled.

## Left out

- Queue and workers: the BullMQ/Redis queue and the worker pool are not part of this model. They are a foreign library whose point is concurrency.
- The child process: spawning and the shell are left out. The child is modelled by its events: output chunks, a spawn error, and the close with its exit code. The command line is an opaque string. Event order is trusted to the caller, beyond "no output after close".
- Unseen helpers: HttpError.ts, infoFileHandlers.ts and getJobExecutionLog.ts are not part of this model.
  - `readInfoFile` is taken as reading and parsing `info.json`, so a missing file, unparsable text or `null` all cause the 500.
  - `writeInfoFile` is taken as a JSON write of the record.
  - `isProcessedJob` and `isFailedJob` are taken to test for status `processed` and `failed`.
  - `HttpError.validation` is taken to carry the Zod issues as its data, which are kept as opaque text.
  - The execution log is an input.
- Hashing, clocks and random numbers are parameters and are not modelled.
- `JSON.parse`/`JSON.stringify`: a file written as JSON holds the value itself. Any other file content fails to parse.
- Floating point:
  - `parseFloat` values are kept as their numeric text (`NumberFrom`).
  - `Number(string)` is a parameter.
- Types.ShowNumber: the digits are those of the exact value, whereas JavaScript prints the shortest digits that identify the double; the digits after the point of a non-integral value are a marker. The choice between plain and exponent notation, the sign and integral values up to 21 digits follow section 6.1.6.1.20 of ECMA-262.
- ProcessService.Spread: a string or an array read from info.json would contribute its index keys `"0"`, `"1"`, … to `{...info}`; the model copies fields from objects only.
- FileSystem.Fs.ReadText: `readFileSync(p, 'utf8')` returns text for any regular file; here a file modelled as a JSON value or as bytes reads as unreadable, because JSON serialisation and UTF-8 decoding are not modelled. A run.log holding such content would give the notice `Error reading run log file` where Node gives its lines as spans.
- FileSystem.Fs.Mkdir: `mkdirSync(p, { recursive: true })` also creates every missing ancestor of `p` and fails with ENOTDIR when an ancestor is a file; here only `p` is checked and added. So `./process` itself never becomes a directory, and the statement that only the job's own directories are added holds for this model, not for Node.
- Text.ParseInt: does not lose precision on integers beyond 2^53, as JavaScript would.
- Paths.Join: Node's normalisation of `.` and `..` segments is not modelled. `path.resolve` (`Paths.Resolve`) keeps an absolute path and otherwise puts the relative path, without a leading `./`, after the working directory.
- Text.ToLower: only ASCII letters are lower-cased. Other Unicode case mappings are not modelled.
- Stack traces: `Thrown.Stack` is only the first line of a V8 stack (`<name>: <message>`).
- Logging is left out: `console.log` and `console.error`, including everything ErrorHandler logs.
- Browser alerts (`alert`) are left out.
- Routing, multer configuration and limits (upload.ts:22-27), and the `fetch` client of frontend/src/api/api.ts are not part of this model.
- React: state updates happen at once here rather than on the next render.
- JobSubmission.SubmissionForm.HandleFileInputChange: only the `value` of the input is cleared. The browser's clearing of its file list is not modelled. The `catch` is unreachable because `validateFile` does not throw.
- JobSubmission.SubmissionForm.HandleSubmit: the request is the file and the options. The `FormData` encoding is not modelled. The component never sets `isSubmitted` to true.
- The React UI, the auth and user types, and `JobStatusResponse` are not part of this model.
- Upload.ValidateSingleFile: the `unlink` in its `catch` is never reached. The only throw happens when there is no file, and the `catch` unlinks only when there is one. No file removal is modelled there.
- `res.download` is left out. Its errors are only logged, and the `Download` outcome names the file and its path.
- TypeGuards.GetValidJobModes: its contract states five distinct one-letter modes. The exact letters are stated through `TypeGuards.ValidModesAreListed`.
