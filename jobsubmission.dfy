/** frontend/src/context/JobSubmissionContext.tsx: the client-side submission form: the
    chosen network file, the analysis options and the error shown, with the checks made
    before anything is sent. */
module JobSubmission {
  import opened Wrappers
  import opened Text

  /** The `name` and `size` (bytes) of a browser `File`. */
  datatype ClientFile = ClientFile(name: string, size: nat)

  /** `1 * 1024 * 1024`; the message calls it 5 MB. */
  const MaxFileSize: nat := 1048576

  /** The pair `[isValid, errorMessage]`. */
  datatype Validation = Validation(valid: bool, error: Option<string>)

  /** `validateFile`: the lower-cased name must end in `.el`, then the size must not exceed
      `MaxFileSize`. */
  function ValidateFile(file: ClientFile): (r: Validation)
    ensures r.valid <==> EndsWith(ToLower(file.name), ".el") && file.size <= MaxFileSize
    ensures r.valid <==> r.error.None?
    ensures !EndsWith(ToLower(file.name), ".el") ==>
      r.error == Some("[INVALID FILE] File extension must be .el")
    ensures EndsWith(ToLower(file.name), ".el") && file.size > MaxFileSize ==>
      r.error == Some("[INVALID FILE] File size must not exceed 5 MB")
  {
    var fileName := ToLower(file.name);
    if !EndsWith(fileName, ".el") then Validation(false, Some("[INVALID FILE] File extension must be .el"))
    else if file.size > MaxFileSize then Validation(false, Some("[INVALID FILE] File size must not exceed 5 MB"))
    else Validation(true, None)
  }

  /** The case of the name does not matter to `validateFile`. */
  lemma ValidateFileIgnoresCase(file: ClientFile)
    ensures ValidateFile(ClientFile(ToLower(file.name), file.size)) == ValidateFile(file)
  {
    LowerIdempotent(file.name);
  }

  // ---------------------------------------------------------------- isNumericString

  /** One or more ASCII digits (`\d+`). */
  predicate Digits(s: string) {
    |s| > 0 && forall i :: 0 <= i < |s| ==> IsDigit(s[i])
  }

  /** The language of `/^\d+(\.\d+)?$/`: digits, or digits, a `.` and digits. */
  predicate NumericText(s: string) {
    Digits(s) || exists k :: 0 < k < |s| && s[k] == '.' && Digits(s[..k]) && Digits(s[k + 1..])
  }

  /** `isNumericString(s)`: reads the digits and, if a `.` follows, the digits after it. */
  function IsNumericString(s: string): (b: bool)
    ensures b <==> NumericText(s)
  {
    var d := LeadingDigits(s);
    var k := |d|;
    if k == 0 then
      assert !NumericText(s) by { NoLeadingDigit(s); }
      false
    else if k == |s| then
      assert d == s;
      true
    else
      var answer := s[k] == '.' && Digits(s[k + 1..]);
      assert answer <==> NumericText(s) by {
        DigitPrefix(s);
        DotAfterDigits(s, k);
      }
      answer
  }

  lemma NoLeadingDigit(s: string)
    requires LeadingDigits(s) == ""
    ensures !NumericText(s)
  {
    if |s| > 0 {
      assert !IsDigit(s[0]);
    }
  }

  /** When the digit run stops before the end, the only `.` that can split the text is the
      one right after the run. */
  lemma DotAfterDigits(s: string, k: nat)
    requires 0 < k < |s| && (forall i :: 0 <= i < k ==> IsDigit(s[i])) && !IsDigit(s[k])
    ensures (s[k] == '.' && Digits(s[k + 1..])) <==> NumericText(s)
  {
    assert !Digits(s);
    if exists j :: 0 < j < |s| && s[j] == '.' && Digits(s[..j]) && Digits(s[j + 1..]) {
      var j :| 0 < j < |s| && s[j] == '.' && Digits(s[..j]) && Digits(s[j + 1..]);
      OnlySplit(s, k, j);
    }
    if s[k] == '.' && Digits(s[k + 1..]) {
      assert Digits(s[..k]) by {
        forall i | 0 <= i < k ensures IsDigit(s[..k][i]) {
          assert s[..k][i] == s[i];
        }
      }
    }
  }

  /** The characters of the leading digit run are digits of the text itself. */
  lemma DigitPrefix(s: string)
    ensures forall i :: 0 <= i < |LeadingDigits(s)| ==> IsDigit(s[i])
  {
    var d := LeadingDigits(s);
    forall i | 0 <= i < |d| ensures IsDigit(s[i]) {
      assert s[i] == d[i];
    }
  }

  lemma OnlySplit(s: string, k: nat, j: nat)
    requires k < |s| && (forall i :: 0 <= i < k ==> IsDigit(s[i])) && !IsDigit(s[k])
    requires j < |s| && s[j] == '.' && Digits(s[..j])
    ensures j == k
  {
    if j < k {
      assert false;
    } else if j > k {
      assert false;
    }
  }

  // ---------------------------------------------------------------- the form state

  /** The keys of `blantOptions`. */
  datatype OptionName = GraphletSize | Density | SamplingMethod | OutputMode | Precision | NumSamples

  /** An option's value: the number `parseFloat` reads from a numeric text (the text is
      kept, the floating-point value is not modelled), or the text itself. */
  datatype OptionValue = NumberFrom(text: string) | TextValue(text: string)

  const AllOptions: set<OptionName> := {GraphletSize, Density, SamplingMethod, OutputMode, Precision, NumSamples}

  /** The options the form starts with. */
  function InitialOptions(): (m: map<OptionName, OptionValue>)
    ensures m.Keys == AllOptions
  {
    map[GraphletSize := NumberFrom("4"), OutputMode := TextValue("frequency"),
        SamplingMethod := TextValue("precision"), Precision := NumberFrom("1"),
        Density := NumberFrom("1"), NumSamples := NumberFrom("10000")]
  }

  /** The value stored for an input text. */
  function OptionValueOf(text: string): (v: OptionValue)
    ensures v.text == text
    ensures v.NumberFrom? <==> NumericText(text)
  {
    if IsNumericString(text) then NumberFrom(text) else TextValue(text)
  }

  /** `event.target` of a file input: its selected files and its `value`. */
  class FileInput {
    var files: seq<ClientFile>
    var value: string

    constructor (files: seq<ClientFile>, value: string)
      ensures this.files == files && this.value == value
    {
      this.files := files;
      this.value := value;
    }
  }

  /** What `api.submitJob` gives back: a response (with its `redirect`, if any) or a thrown
      error, rendered by `String(error)`. */
  datatype ApiOutcome = Responded(redirect: Option<string>) | Threw(shown: string)

  /** The request body `handleSubmit` sends: the file and the options. */
  datatype SubmitRequest = SubmitRequest(file: ClientFile, options: map<OptionName, OptionValue>)

  class SubmissionForm {
    var networkFile: Option<ClientFile>
    var blantOptions: map<OptionName, OptionValue>
    var fileError: Option<string>
    var isSubmitted: bool

    /** Every option is present, and the file held is one `validateFile` accepted. */
    ghost predicate Valid()
      reads this
    {
      blantOptions.Keys == AllOptions && (networkFile.Some? ==> ValidateFile(networkFile.value).valid)
    }

    constructor ()
      ensures Valid()
      ensures networkFile == None && blantOptions == InitialOptions() && fileError == None && !isSubmitted
    {
      networkFile := None;
      blantOptions := InitialOptions();
      fileError := None;
      isSubmitted := false;
    }

    /** `handleBlantOptionsChange(event, optionName)`: an empty input changes nothing;
        otherwise only `optionName` changes, to a number exactly when the text is numeric. */
    method HandleBlantOptionsChange(value: string, optionName: OptionName) returns (changed: bool)
      requires Valid()
      modifies this`blantOptions
      ensures Valid()
      ensures changed <==> value != ""
      ensures value == "" ==> blantOptions == old(blantOptions)
      ensures value != "" ==> blantOptions == old(blantOptions)[optionName := OptionValueOf(value)]
      ensures forall o :: o in blantOptions && o != optionName ==> blantOptions[o] == old(blantOptions)[o]
    {
      if value == "" {
        return false;
      }
      blantOptions := blantOptions[optionName := OptionValueOf(value)];
      return true;
    }

    /** `handleFileInputChange(event)`: no file gives `false`; a valid first file is kept;
        an invalid one drops the kept file and clears the input (the alert is not
        modelled). */
    method HandleFileInputChange(input: FileInput) returns (accepted: bool)
      requires Valid()
      modifies this`networkFile, input`value
      ensures Valid()
      ensures |input.files| == 0 ==> !accepted && networkFile == old(networkFile) && input.value == old(input.value)
      ensures |input.files| > 0 && ValidateFile(input.files[0]).valid ==>
        accepted && networkFile == Some(input.files[0]) && input.value == old(input.value)
      ensures |input.files| > 0 && !ValidateFile(input.files[0]).valid ==>
        !accepted && networkFile == None && input.value == ""
    {
      if |input.files| == 0 {
        return false;
      }
      var file := input.files[0];
      var validation := ValidateFile(file);
      if validation.valid {
        networkFile := Some(file);
        return true;
      }
      input.value := "";
      networkFile := None;
      return false;
    }

    /** `handleSubmit()`: without a file only the error is set and nothing is sent;
        otherwise the file and options are sent, a returned redirect is followed, and a
        thrown error is shown and clears `isSubmitted`. */
    method HandleSubmit(api: ApiOutcome) returns (request: Option<SubmitRequest>, navigateTo: Option<string>)
      requires Valid()
      modifies this`fileError, this`isSubmitted
      ensures Valid()
      ensures old(networkFile).None? ==>
        && request == None && navigateTo == None
        && fileError == Some("Please upload a network file.") && isSubmitted == old(isSubmitted)
      ensures networkFile.Some? ==> request == Some(SubmitRequest(networkFile.value, blantOptions))
      ensures networkFile.Some? && api.Responded? ==>
        && fileError == old(fileError) && isSubmitted == old(isSubmitted)
        && navigateTo == (if api.redirect.Some? && api.redirect.value != "" then api.redirect else None)
      ensures networkFile.Some? && api.Threw? ==>
        fileError == Some(api.shown) && !isSubmitted && navigateTo == None
    {
      if networkFile.None? {
        fileError := Some("Please upload a network file.");
        return None, None;
      }
      request := Some(SubmitRequest(networkFile.value, blantOptions));
      match api {
        case Responded(redirect) =>
          navigateTo := if redirect.Some? && redirect.value != "" then redirect else None;
        case Threw(shown) =>
          fileError := Some(shown);
          isSubmitted := false;
          navigateTo := None;
      }
    }

    /** `resetForm()`: the file and the error are cleared; the options stay. */
    method ResetForm()
      requires Valid()
      modifies this`networkFile, this`fileError
      ensures Valid()
      ensures networkFile == None && fileError == None
    {
      networkFile := None;
      fileError := None;
    }
  }
}
