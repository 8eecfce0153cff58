/** backend/src/utils/typeGuards.ts: the job modes and the checks against them. */
module TypeGuards {
  import opened Types
  import opened Text

  /** `getValidJobModes()`: the five modes, in this order. */
  function GetValidJobModes(): (modes: seq<string>)
    ensures |modes| == 5
    ensures forall i, k :: 0 <= i < k < |modes| ==> modes[i] != modes[k]
    ensures forall i :: 0 <= i < |modes| ==> |modes[i]| == 1
  {
    ["f", "o", "g", "i", "j"]
  }

  /** `isValidJobMode(value)`: a string that is one of the modes. */
  predicate IsValidJobMode(value: JsProp) {
    value.Defined? && value.value.JStr? && value.value.s in ["f", "o", "g", "i", "j"]
  }

  /** The guard holds exactly for the members of the listed modes, and agrees with the
      inline check of the submission controller (a string equal to one of the five
      letters). */
  lemma ValidModesAreListed(value: JsProp)
    ensures IsValidJobMode(value) <==> exists m :: m in GetValidJobModes() && value == Defined(JStr(m))
    ensures IsValidJobMode(value) <==>
      IsString(value) &&
      (value.value.s == "f" || value.value.s == "o" || value.value.s == "g" ||
       value.value.s == "i" || value.value.s == "j")
  {
    if IsValidJobMode(value) {
      assert value == Defined(JStr(value.value.s));
    }
  }

  /** The message `validateJobMode` throws with; its list is the listed modes joined. */
  function InvalidModeMessage(value: JsProp): (msg: string)
    ensures msg == "Invalid JobMode: \"" + Show(value) + "\". Must be one of: " + Join(GetValidJobModes(), ", ")
  {
    ModeListText();
    "Invalid JobMode: \"" + Show(value) + "\". Must be one of: f, o, g, i, j"
  }

  /** The listed modes joined with `, `, one tail at a time. */
  lemma ModeListText()
    ensures Join(GetValidJobModes(), ", ") == "f, o, g, i, j"
  {
    var sep := ", ";
    assert Join(["j"], sep) == "j";
    assert Join(["i", "j"], sep) == "i" + sep + Join(["j"], sep) by { assert ["i", "j"][1..] == ["j"]; }
    assert Join(["g", "i", "j"], sep) == "g" + sep + Join(["i", "j"], sep) by { assert ["g", "i", "j"][1..] == ["i", "j"]; }
    assert Join(["o", "g", "i", "j"], sep) == "o" + sep + Join(["g", "i", "j"], sep) by { assert ["o", "g", "i", "j"][1..] == ["g", "i", "j"]; }
    assert Join(["f", "o", "g", "i", "j"], sep) == "f" + sep + Join(["o", "g", "i", "j"], sep) by { assert ["f", "o", "g", "i", "j"][1..] == ["o", "g", "i", "j"]; }
  }

  /** `validateJobMode(value)`: the value itself when valid, an Error otherwise. */
  function ValidateJobMode(value: JsProp): (r: Result<string>)
    ensures r.Ok? <==> IsValidJobMode(value)
    ensures r.Ok? ==> value == Defined(JStr(r.value)) && r.value in GetValidJobModes()
    ensures r.Err? ==> r.error == JsError("Error", InvalidModeMessage(value))
  {
    if !IsValidJobMode(value) then Err(JsError("Error", InvalidModeMessage(value)))
    else Ok(value.value.s)
  }

  /** Validating an accepted mode again accepts it unchanged. */
  lemma ValidateIdempotent(value: JsProp)
    requires ValidateJobMode(value).Ok?
    ensures ValidateJobMode(Defined(JStr(ValidateJobMode(value).value))) == ValidateJobMode(value)
  {
  }
}
