/** backend/src/utils/jsonToJobData.ts: a job record rebuilt from parsed JSON, with
    defaults for its falsy fields. */
module JsonToJobData {
  import opened Types
  import opened Text

  /** The record `jsonToJobData` returns. The pass-through fields keep whatever JSON value
      (or `undefined`) they had; the two numbers are the results of `Number(…) || default`. */
  datatype ParsedJob = ParsedJob(
    id: string,
    status: JsProp,
    jobLocation: JsProp,
    extension: JsProp,
    networkName: JsProp,
    mode: JsProp,
    graphletSize: JsNumber,
    attempts: JsNumber,
    createdAt: JsProp,
    updatedAt: JsProp)

  /** `p || fallback`. */
  function OrElse(p: JsProp, fallback: JsValue): (r: JsProp)
    ensures Truthy(p) ==> r == p
    ensures !Truthy(p) ==> r == Defined(fallback)
  {
    if Truthy(p) then p else Defined(fallback)
  }

  /** `Number(p) || fallback` for a number: 0 and NaN are falsy. */
  function NumberOr(n: JsNumber, fallback: real): (r: JsNumber)
    ensures r == (if n == NaN || n == Finite(0.0) then Finite(fallback) else n)
  {
    if Truthy(Defined(JNum(n))) then n else Finite(fallback)
  }

  /** `jsonToJobData(json)` with `createdNow` and `updatedNow` for the two separate readings
      of `new Date().toISOString()`, which need not agree, and `numberOf` for string-to-number
      conversion. Reading `id` of `null` throws a TypeError. */
  function JsonToJobData(json: JsValue, createdNow: string, updatedNow: string, numberOf: string -> JsNumber): (r: Result<ParsedJob>)
    ensures json.JNull? ==> r == Err(JsError("TypeError", CannotRead("null", "id")))
    ensures !json.JNull? ==>
      (r.Ok? <==> json.JObj? && "id" in json.fields && json.fields["id"].JStr? && json.fields["id"].s != "")
    ensures !json.JNull? && r.Err? ==> r.error == JsError("Error", "Invalid job ID")
    ensures r.Ok? ==>
      && Defined(JStr(r.value.id)) == Member(json, "id")
      && r.value.jobLocation == Member(json, "jobLocation")
      && r.value.extension == Member(json, "extension")
      && r.value.networkName == Member(json, "networkName")
      && r.value.mode == Member(json, "mode")
      && r.value.status == OrElse(Member(json, "status"), JStr("pending"))
      && r.value.graphletSize == NumberOr(ToNumber(Member(json, "graphletSize"), numberOf), 3.0)
      && r.value.attempts == NumberOr(ToNumber(Member(json, "attempts"), numberOf), 0.0)
      && r.value.createdAt == OrElse(Member(json, "createdAt"), JStr(createdNow))
      && r.value.updatedAt == OrElse(Member(json, "updatedAt"), JStr(updatedNow))
  {
    if json.JNull? then Err(JsError("TypeError", CannotRead("null", "id")))
    else
      var id := Member(json, "id");
      if !Truthy(id) || !IsString(id) then Err(JsError("Error", "Invalid job ID"))
      else
        Ok(ParsedJob(
          id.value.s,
          OrElse(Member(json, "status"), JStr("pending")),
          Member(json, "jobLocation"),
          Member(json, "extension"),
          Member(json, "networkName"),
          Member(json, "mode"),
          NumberOr(ToNumber(Member(json, "graphletSize"), numberOf), 3.0),
          NumberOr(ToNumber(Member(json, "attempts"), numberOf), 0.0),
          OrElse(Member(json, "createdAt"), JStr(createdNow)),
          OrElse(Member(json, "updatedAt"), JStr(updatedNow))))
  }

  /** Every accepted record has a truthy status, graphlet size and timestamps: no default
      is ever falsy; a falsy status reads as `pending`. */
  lemma DefaultsAreTruthy(json: JsValue, createdNow: string, updatedNow: string, numberOf: string -> JsNumber)
    requires JsonToJobData(json, createdNow, updatedNow, numberOf).Ok?
    requires createdNow != "" && updatedNow != ""
    ensures var p := JsonToJobData(json, createdNow, updatedNow, numberOf).value;
      && Truthy(p.status) && Truthy(Defined(JNum(p.graphletSize)))
      && Truthy(p.createdAt) && Truthy(p.updatedAt)
      && (!Truthy(Member(json, "status")) ==> StatusOf(p.status) == Pending)
  {
  }

  /** Reading back a record written by `JSON.stringify`: the strings, the status and the
      attempts come back as written; the graphlet size too unless it was 0, which reads
      as 3. */
  lemma RoundTrip(j: JobData, createdNow: string, updatedNow: string, numberOf: string -> JsNumber)
    requires j.id != ""
    requires StatusName(j.status) != "" && j.createdAt != "" && j.updatedAt != ""
    ensures var r := JsonToJobData(JobDataJson(j), createdNow, updatedNow, numberOf);
      && r.Ok?
      && r.value.id == j.id
      && r.value.status == Defined(JStr(StatusName(j.status)))
      && r.value.networkName == Defined(JStr(j.networkName))
      && r.value.extension == Defined(JStr(j.extension))
      && r.value.jobLocation == Defined(JStr(j.jobLocation))
      && r.value.mode == Undefined
      && r.value.graphletSize == (if j.graphletSize == 0 then Finite(3.0) else Finite(j.graphletSize as real))
      && r.value.attempts == Finite(j.attempts as real)
      && r.value.createdAt == Defined(JStr(j.createdAt))
      && r.value.updatedAt == Defined(JStr(j.updatedAt))
  {
    JobDataCounters(j);
    JobDataTexts(j);
  }

  /** The identifying, status and counter members of a written record. */
  lemma JobDataCounters(j: JobData)
    ensures var v := JobDataJson(j);
      && Member(v, "id") == Defined(JStr(j.id))
      && Member(v, "status") == Defined(JStr(StatusName(j.status)))
      && Member(v, "graphletSize") == Defined(IntJson(j.graphletSize))
      && Member(v, "attempts") == Defined(IntJson(j.attempts))
      && Member(v, "mode") == Undefined
  {
    var v := JobDataJson(j);
    assert "mode" !in v.fields;
  }

  /** The path and timestamp members of a written record. */
  lemma JobDataTexts(j: JobData)
    ensures var v := JobDataJson(j);
      && Member(v, "networkName") == Defined(JStr(j.networkName))
      && Member(v, "extension") == Defined(JStr(j.extension))
      && Member(v, "jobLocation") == Defined(JStr(j.jobLocation))
      && Member(v, "createdAt") == Defined(JStr(j.createdAt))
      && Member(v, "updatedAt") == Defined(JStr(j.updatedAt))
  {
  }
}
