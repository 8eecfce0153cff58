/** The entities of backend/types/types.ts, the JavaScript values the source inspects
    (parsed JSON, request fields), and the errors it throws. */
module Types {
  import opened Wrappers
  import opened Text
  import opened Paths

  // ---------------------------------------------------------------- job status

  /** Every status the code writes or tests. `Other` carries the rendering of any other
      status value, JSON strings and non-string values alike. */
  datatype JobStatus =
    | Preprocessing
    | Preprocessed
    | Processing
    | Processed
    | Failed
    | Pending
    | Other(shown: string)

  /** The string written to disk for a status. */
  function StatusName(st: JobStatus): string {
    match st
    case Preprocessing => "preprocessing"
    case Preprocessed => "preprocessed"
    case Processing => "processing"
    case Processed => "processed"
    case Failed => "failed"
    case Pending => "pending"
    case Other(s) => s
  }

  const KnownStatusNames: set<string> :=
    {"preprocessing", "preprocessed", "processing", "processed", "failed", "pending"}

  /** The status a JSON string denotes. */
  function ParseStatus(s: string): (st: JobStatus)
    ensures StatusName(st) == s
    ensures st.Other? <==> s !in KnownStatusNames
  {
    if s == "preprocessing" then Preprocessing
    else if s == "preprocessed" then Preprocessed
    else if s == "processing" then Processing
    else if s == "processed" then Processed
    else if s == "failed" then Failed
    else if s == "pending" then Pending
    else Other(s)
  }

  /** Writing a known status and reading it back gives the same status. */
  lemma ParseStatusName(st: JobStatus)
    requires !st.Other? || st.shown !in KnownStatusNames
    ensures ParseStatus(StatusName(st)) == st
  {
  }

  // ---------------------------------------------------------------- JavaScript values

  /** A JavaScript number; -0 and +0 are the same `Finite(0.0)`. */
  datatype JsNumber = NaN | Infinity(negative: bool) | Finite(value: real)

  /** A JSON value as `JSON.parse` returns it. */
  datatype JsValue =
    | JNull
    | JBool(b: bool)
    | JNum(n: JsNumber)
    | JStr(s: string)
    | JArr(items: seq<JsValue>)
    | JObj(fields: map<string, JsValue>)

  /** The result of reading a property: `undefined` or a value. */
  datatype JsProp = Undefined | Defined(value: JsValue)

  /** `v[key]` for a value that is not `null` (reading a property of `null` throws, and
      every caller checks for that first). Only objects have the properties read here. */
  function Member(v: JsValue, key: string): (p: JsProp)
    ensures p.Defined? <==> v.JObj? && key in v.fields
  {
    if v.JObj? && key in v.fields then Defined(v.fields[key]) else Undefined
  }

  /** The message of the TypeError raised by reading `key` of `null` or `undefined`. */
  function CannotRead(what: string, key: string): string {
    "Cannot read properties of " + what + " (reading '" + key + "')"
  }

  /** JavaScript truthiness: false for `undefined`, `null`, `false`, `0`, `NaN` and `""`. */
  predicate Truthy(p: JsProp) {
    match p
    case Undefined => false
    case Defined(JNull) => false
    case Defined(JBool(b)) => b
    case Defined(JNum(n)) => n.Infinity? || (n.Finite? && n.value != 0.0)
    case Defined(JStr(s)) => s != ""
    case Defined(_) => true
  }

  /** `typeof p === 'string'`. */
  predicate IsString(p: JsProp) {
    p.Defined? && p.value.JStr?
  }

  /** `${n}` for a number, after Number::toString of section 6.1.6.1.20 of ECMA-262: plain
      digits from 10^-6 up to 10^21, exponent notation outside that range, a `-` before
      negative values; the digits after the point of a non-integral value are a marker. */
  function ShowNumber(n: JsNumber): string {
    match n
    case NaN => "NaN"
    case Infinity(neg) => if neg then "-Infinity" else "Infinity"
    case Finite(x) => if x < 0.0 then "-" + ShowMagnitude(-x) else ShowMagnitude(x)
  }

  /** The rendering of a number that is not negative. */
  function ShowMagnitude(x: real): string
    requires x >= 0.0
  {
    if x == 0.0 then "0"
    else if |NatToString(x.Floor)| > 21 then ShowLarge(x.Floor)
    else if x < 1.0 / 1000000.0 then ShowSmall(x)
    else if x == x.Floor as real then IntToString(x.Floor)
    else IntToString(x.Floor) + ".<fraction>"
  }

  function Pow10(e: nat): (p: nat)
    ensures p >= 1
  {
    if e == 0 then 1 else 10 * Pow10(e - 1)
  }

  lemma ScaleStep(c: nat, z: nat)
    ensures c * Pow10(z + 1) == 10 * (c * Pow10(z))
  {
    var p := Pow10(z);
    assert Pow10(z + 1) == 10 * p;
  }

  /** `m` written as `core` times 10^`zeros`, where `core` does not end in a zero digit. */
  function Significand(m: nat): (r: (nat, nat))
    requires m > 0
    ensures r.0 > 0 && r.0 % 10 != 0
    ensures r.0 * Pow10(r.1) == m
  {
    if m % 10 == 0 then
      var (core, zeros) := Significand(m / 10);
      ScaleStep(core, zeros);
      (core, zeros + 1)
    else (m, 0)
  }

  /** The digits of a significand, with a point after the first one when there are more. */
  function Mantissa(digits: string): string {
    if |digits| <= 1 then digits else digits[..1] + "." + digits[1..]
  }

  /** A value with significand `c` and exponent `z` is taken apart into exactly those. */
  lemma {:induction false} SignificandOf(c: nat, z: nat)
    requires c > 0 && c % 10 != 0
    ensures Significand(c * Pow10(z)) == (c, z)
    decreases z
  {
    if z > 0 {
      var m := c * Pow10(z);
      assert m == (c * Pow10(z - 1)) * 10;
      assert m % 10 == 0 && m / 10 == c * Pow10(z - 1);
      SignificandOf(c, z - 1);
    }
  }

  lemma {:induction false} Pow10Grows(a: nat, b: nat)
    requires a <= b
    ensures Pow10(a) <= Pow10(b)
    decreases b
  {
    if a < b {
      Pow10Grows(a, b - 1);
    }
  }

  /** A one-digit significand times 10^z, z at least 21, prints as `de+z`. */
  lemma LargeNumberShown(c: nat, z: nat)
    requires 1 <= c <= 9 && z >= 21
    ensures ShowNumber(Finite((c * Pow10(z)) as real)) == [Digit(c)] + ("e+" + NatToString(z))
  {
    var m := c * Pow10(z);
    ScaledDigits(c, z);
    OneDigit(c);
    SignificandOf(c, z);
    ShowNumberLarge(m);
    ShowLargeOf(m, c, z);
  }

  /** The text of the number c·10^z, c one digit and z at least 21. */
  lemma LargeNumberText(c: nat, z: nat)
    requires 1 <= c <= 9 && z >= 21
    ensures Show(Defined(JNum(Finite((c * Pow10(z)) as real)))) == [Digit(c)] + ("e+" + NatToString(z))
  {
    var n := c * Pow10(z);
    LargeNumberShown(c, z);
    ShowOfNumber(Finite(n as real));
  }

  lemma ShowOfNumber(x: JsNumber)
    ensures Show(Defined(JNum(x))) == ShowNumber(x)
  {
  }

  /** c·10^z is a non-zero number, hence truthy. */
  lemma ScaledTruthy(c: nat, z: nat)
    requires c >= 1
    ensures Truthy(Defined(JNum(Finite((c * Pow10(z)) as real))))
  {
    PositiveScaled(c, z);
  }

  lemma PositiveScaled(c: nat, z: nat)
    requires c >= 1
    ensures c * Pow10(z) >= 1
  {
    var p := Pow10(z);
    assert c * p == p + (c - 1) * p;
  }

  lemma OneDigit(c: nat)
    requires 1 <= c <= 9
    ensures c % 10 == c
  {
  }

  /** A one-digit number times 10^z has z + 1 digits. */
  lemma {:induction false} ScaledDigits(c: nat, z: nat)
    requires 1 <= c <= 9
    ensures |NatToString(c * Pow10(z))| == z + 1
    decreases z
  {
    if z > 0 {
      var m := c * Pow10(z);
      var q := c * Pow10(z - 1);
      assert m == q * 10;
      assert m >= 10 && m / 10 == q && m % 10 == 0;
      ScaledDigits(c, z - 1);
    }
  }

  lemma ShowNumberLarge(m: nat)
    requires |NatToString(m)| > 21
    ensures ShowNumber(Finite(m as real)) == ShowLarge(m)
  {
    assert (m as real).Floor == m;
  }

  lemma ShowLargeOf(m: nat, c: nat, z: nat)
    requires m > 0 && 1 <= c <= 9 && Significand(m) == (c, z)
    ensures ShowLarge(m) == [Digit(c)] + ("e+" + NatToString(z))
  {
    assert NatToString(c) == [Digit(c)];
    assert [Digit(c)] + "e+" + NatToString(z) == [Digit(c)] + ("e+" + NatToString(z));
  }

  /** An integer of at least 10^21: `d.ddde+N`. */
  function ShowLarge(m: int): string {
    if m <= 0 then "0"
    else
      var (core, zeros) := Significand(m);
      var digits := NatToString(core);
      Mantissa(digits) + "e+" + NatToString(zeros + |digits| - 1)
  }

  /** A positive value below 10^-6: `d.ddde-N`, where N is the e with
      10^-e <= x < 10^(1-e), found from the reciprocal: 10^(e-1) <= ceil(1/x) - 1 < 10^e. */
  function ShowSmall(x: real): string
    requires x > 0.0
  {
    var ceiling := -((-(1.0 / x)).Floor);
    var e := |NatToString(if ceiling > 1 then ceiling - 1 else 0)|;
    var scaled := x * Pow10(e) as real;
    var lead := IntToString(scaled.Floor);
    (if scaled == scaled.Floor as real then lead else lead + ".<fraction>") + "e-" + NatToString(e)
  }

  /** `String(p)`, as template literals and `parseInt` render a value. */
  function Show(p: JsProp): string {
    match p
    case Undefined => "undefined"
    case Defined(v) => ShowValue(v)
  }

  function ShowValue(v: JsValue): string {
    match v
    case JNull => "null"
    case JBool(b) => if b then "true" else "false"
    case JNum(n) => ShowNumber(n)
    case JStr(s) => s
    case JArr(items) => ShowItems(items)
    case JObj(_) => "[object Object]"
  }

  /** `Array.prototype.toString`: items joined by `,`, with `null` items rendered empty. */
  function ShowItems(items: seq<JsValue>): string
    decreases items
  {
    if |items| == 0 then ""
    else
      var head := if items[0].JNull? then "" else ShowValue(items[0]);
      if |items| == 1 then head else head + "," + ShowItems(items[1..])
  }

  /** `Number(p)`; string-to-number conversion is the parameter `numberOf`. Arrays and
      objects convert through their string rendering, as JavaScript's ToPrimitive does. */
  function ToNumber(p: JsProp, numberOf: string -> JsNumber): JsNumber {
    match p
    case Undefined => NaN
    case Defined(JNull) => Finite(0.0)
    case Defined(JBool(b)) => Finite(if b then 1.0 else 0.0)
    case Defined(JNum(n)) => n
    case Defined(JStr(s)) => numberOf(s)
    case Defined(v) => numberOf(ShowValue(v))
  }

  // ---------------------------------------------------------------- records of types.ts

  /** The `density` slot of a job. It is declared a number, but the submission path passes
      the mode letter there, so it holds either kind of value. */
  datatype Density = TextDensity(text: string) | NumberDensity(n: JsNumber)

  function DensityJson(d: Density): JsValue {
    match d
    case TextDensity(s) => JStr(s)
    case NumberDensity(n) => JNum(n)
  }

  function ShowDensity(d: Density): string {
    match d
    case TextDensity(s) => s
    case NumberDensity(n) => ShowNumber(n)
  }

  /** `JobData` of types.ts:89-109; the optional fields are never set by the core. */
  datatype JobData = JobData(
    id: string,
    status: JobStatus,
    density: Density,
    graphletSize: int,
    networkName: string,
    extension: string,
    jobLocation: Path,
    attempts: int,
    createdAt: string,
    updatedAt: string)

  function IntJson(n: int): JsValue {
    JNum(Finite(n as real))
  }

  /** `JSON.parse(JSON.stringify(jobData))`. */
  function JobDataJson(j: JobData): JsValue {
    JObj(map[
      "id" := JStr(j.id),
      "status" := JStr(StatusName(j.status)),
      "density" := DensityJson(j.density),
      "graphletSize" := IntJson(j.graphletSize),
      "networkName" := JStr(j.networkName),
      "extension" := JStr(j.extension),
      "jobLocation" := JStr(j.jobLocation),
      "attempts" := IntJson(j.attempts),
      "createdAt" := JStr(j.createdAt),
      "updatedAt" := JStr(j.updatedAt)])
  }

  /** The three shapes of info.json (types.ts:138-155). `JobInfo` is what preprocessing
      writes: a status and the job record (the declared `density` and `graphletSize`
      fields are never written). */
  datatype InfoFile =
    | JobInfo(status: JobStatus, data: JobData)
    | SuccessInfo(command: string)
    | FailedInfo(log: string, command: string)

  /** The JSON value written for an info record. */
  function InfoJson(info: InfoFile): (v: JsValue)
    ensures v.JObj? && "status" in v.fields
    ensures v.fields["status"] == JStr(StatusName(InfoStatus(info)))
  {
    match info
    case JobInfo(st, data) => JObj(map["status" := JStr(StatusName(st)), "data" := JobDataJson(data)])
    case SuccessInfo(cmd) => JObj(map["status" := JStr("processed"), "command" := JStr(cmd)])
    case FailedInfo(log, cmd) =>
      JObj(map["status" := JStr("failed"), "log" := JStr(log), "command" := JStr(cmd)])
  }

  function InfoStatus(info: InfoFile): JobStatus {
    match info
    case JobInfo(st, _) => st
    case SuccessInfo(_) => Processed
    case FailedInfo(_, _) => Failed
  }

  /** The status a parsed `status` property denotes: a known string gives its status,
      every other value (other strings, non-strings, `undefined`) its rendering. */
  function StatusOf(p: JsProp): (st: JobStatus)
    ensures !st.Other? ==> p == Defined(JStr(StatusName(st)))
    ensures p == Defined(JStr(StatusName(st))) && StatusName(st) in KnownStatusNames ==> !st.Other?
    ensures p.Defined? && p.value.JStr? ==> st == ParseStatus(p.value.s)
    ensures !(p.Defined? && p.value.JStr?) ==> st == Other(Show(p))
  {
    if p.Defined? && p.value.JStr? then ParseStatus(p.value.s) else Other(Show(p))
  }

  /** The four statuses the results page dispatches on are exactly their own strings. */
  lemma StatusOfCases(p: JsProp)
    ensures StatusOf(p) == Failed <==> p == Defined(JStr("failed"))
    ensures StatusOf(p) == Preprocessed <==> p == Defined(JStr("preprocessed"))
    ensures StatusOf(p) == Processing <==> p == Defined(JStr("processing"))
    ensures StatusOf(p) == Processed <==> p == Defined(JStr("processed"))
  {
    assert "failed" in KnownStatusNames && "preprocessed" in KnownStatusNames;
    assert "processing" in KnownStatusNames && "processed" in KnownStatusNames;
  }

  /** `ProcessJobData` of types.ts:158-168 (the `note` and `zipDownloadUrl` fields are never
      set on it). */
  datatype ProcessJobData = ProcessJobData(
    success: bool,
    status: string,
    jobId: string,
    execLogFileOutput: Option<string>,
    redirect: Option<string>)

  /** `ProcessedJobResponse` of types.ts:170-175. */
  datatype ProcessedJobResponse = ProcessedJobResponse(
    jobId: string,
    note: string,
    zipDownloadUrl: string,
    execLogFileOutput: string)

  /** The `data` carried by a response. */
  datatype Payload =
    | JobPayload(job: JobData)
    | ProcessPayload(process: ProcessJobData)
    | ResultsPayload(results: ProcessedJobResponse)

  /** `ErrorDetails` of types.ts:69-74; `data` is opaque text. */
  datatype ErrorDetails = ErrorDetails(
    message: string,
    errorLog: Option<string>,
    stackTrace: Option<string>,
    data: Option<string>)

  datatype ResponseStatus = Success | Error | Redirect

  /** `UnifiedResponse` of types.ts:76-82. */
  datatype UnifiedResponse = UnifiedResponse(
    status: ResponseStatus,
    message: string,
    data: Option<Payload>,
    error: Option<ErrorDetails>,
    redirect: Option<string>)

  /** An HTTP status code and JSON body, as `res.status(code).json(body)` sends them. */
  datatype Reply = Reply(code: int, body: UnifiedResponse)

  function RedirectResponse(message: string, to: string): UnifiedResponse {
    UnifiedResponse(Redirect, message, None, None, Some(to))
  }

  function SuccessResponse(message: string, data: Payload): UnifiedResponse {
    UnifiedResponse(Success, message, Some(data), None, None)
  }

  /** The fields of a multer upload (`MulterFile`, types.ts:17-27) that the core reads:
      the form field name, the client's file name, the temporary path and the size. */
  datatype MulterFile = MulterFile(fieldname: string, originalName: string, path: Path, size: nat)

  // ---------------------------------------------------------------- errors

  /** The values the core throws. `HttpError` carries the options it was built with
      (`status`, `errorLog`, `data`); `JsError` is any other Error (TypeError, file-system
      errors, JSON syntax errors). */
  datatype Thrown =
    | HttpError(statusCode: int, message: string, errorLog: Option<string>, data: Option<string>)
    | ZodError(message: string, issues: string)
    | JsError(name: string, message: string)
  {
    /** The first line of the V8 stack trace, `<name>: <message>`; the frames are not
        modelled. */
    function Stack(): (s: string)
      ensures |s| > 0
    {
      match this
      case HttpError(_, m, _, _) => "Error: " + m
      case ZodError(m, _) => "ZodError: " + m
      case JsError(n, m) => n + ": " + m
    }
  }

  /** A value or the error thrown instead of it. */
  datatype Result<+T> = Ok(value: T) | Err(error: Thrown)

  /** `HttpError.badRequest(message)`. */
  function BadRequest(message: string): Thrown {
    HttpError(400, message, None, None)
  }

  /** `new HttpError(message, { status })`. */
  function Http(status: int, message: string): Thrown {
    HttpError(status, message, None, None)
  }
}
