/** The lung-cancer assessment page (client/src/components/Lung.js): the
    form state and its two change handlers, the submit handler, and the
    risk band shown for a prediction. */
module LungForm {
  import opened Json
  import opened Text
  import LungServer

  /** JavaScript `s.trimStart()` as `parseInt` applies it. */
  function JsTrimStart(s: string): (r: string)
    ensures |r| <= |s| && r == s[|s| - |r|..]
    ensures r == [] || !IsJsWhitespace(r[0])
  {
    if s != [] && IsJsWhitespace(s[0]) then JsTrimStart(s[1..]) else s
  }

  predicate AllJsWhitespace(s: string) {
    forall i :: 0 <= i < |s| ==> IsJsWhitespace(s[i])
  }

  /** `trimStart` removes only whitespace. */
  lemma {:induction false} JsTrimStartDropsWhitespace(s: string)
    ensures AllJsWhitespace(s[..|s| - |JsTrimStart(s)|])
  {
    if s != [] && IsJsWhitespace(s[0]) {
      JsTrimStartDropsWhitespace(s[1..]);
      var k := |s| - |JsTrimStart(s)|;
      assert s[..k] == [s[0]] + s[1..][..k - 1];
    }
  }

  /** The number at the start of sign-free text: its longest digit run,
      or None when it starts with no digit. */
  function LeadingNumber(t: string): Option<nat> {
    var k := DigitRun(t);
    if k == 0 then None else Some(DigitsValue(t[..k]))
  }

  /** JavaScript `parseInt(s)` in base ten: leading whitespace, an optional
      sign, then the longest run of digits; no digits is NaN (None). */
  function ParseInt(s: string): (r: Option<int>)
  {
    var t := JsTrimStart(s);
    if t != [] && t[0] == '-' then
      (match LeadingNumber(t[1..]) case None => None case Some(m) => Some(-(m as int)))
    else if t != [] && t[0] == '+' then
      (match LeadingNumber(t[1..]) case None => None case Some(m) => Some(m as int))
    else
      (match LeadingNumber(t) case None => None case Some(m) => Some(m as int))
  }

  lemma LeadingNumberOfNumeral(n: nat, rest: string)
    requires rest == [] || !IsDigit(rest[0])
    ensures LeadingNumber(NatToString(n) + rest) == Some(n)
  {
    var digits := NatToString(n);
    DigitRunOfDigits(digits, rest);
    assert (digits + rest)[..|digits|] == digits;
    DigitsOfNatToString(n);
  }

  /** Text that starts with a digit or a sign is not trimmed. */
  lemma TrimStartAtDigit(s: string)
    requires s != [] && (IsDigit(s[0]) || s[0] == '-')
    ensures JsTrimStart(s) == s
  {
  }

  /** `parseInt` reads back every numeral `String(n)` writes and ignores
      what follows the digits. */
  lemma ParseIntOfNumeral(n: nat, rest: string)
    requires rest == [] || !IsDigit(rest[0])
    ensures ParseInt(NatToString(n) + rest) == Some(n as int)
  {
    var plain := NatToString(n) + rest;
    LeadingNumberOfNumeral(n, rest);
    assert plain[0] == NatToString(n)[0];
    ParseIntAtDigit(plain, n);
  }

  /** Text that starts with a digit parses to its leading number. */
  lemma ParseIntAtDigit(plain: string, m: nat)
    requires plain != [] && IsDigit(plain[0]) && LeadingNumber(plain) == Some(m)
    ensures ParseInt(plain) == Some(m as int)
  {
    TrimStartAtDigit(plain);
  }

  /** The same with a minus sign in front. */
  lemma ParseIntOfNegativeNumeral(n: nat, rest: string)
    requires rest == [] || !IsDigit(rest[0])
    ensures ParseInt("-" + NatToString(n) + rest) == Some(-(n as int))
  {
    LeadingNumberOfNumeral(n, rest);
    ParseIntAfterMinus(NatToString(n), rest, n);
  }

  /** A minus sign then text with a leading number parses to its negation. */
  lemma ParseIntAfterMinus(digits: string, rest: string, m: nat)
    requires LeadingNumber(digits + rest) == Some(m)
    ensures ParseInt("-" + digits + rest) == Some(-(m as int))
  {
    var plain := digits + rest;
    var signed := "-" + digits + rest;
    assert signed == "-" + plain;
    assert signed != [] && signed[0] == '-' && signed[1..] == plain;
    TrimStartAtDigit(signed);
    var t := JsTrimStart(signed);
    assert t == signed;
    assert ParseInt(signed) == (match LeadingNumber(t[1..]) case None => None case Some(m) => Some(-(m as int)));
  }

  /** Text without a single digit is NaN. */
  lemma ParseIntWithoutDigits(s: string)
    requires forall i :: 0 <= i < |s| ==> !IsDigit(s[i])
    ensures ParseInt(s) == None
  {
    var t := JsTrimStart(s);
    if t != [] {
      assert t[0] == s[|s| - |t|];
    }
    if |t| > 1 {
      assert t[1] == s[|s| - |t| + 1];
    }
  }

  /** What the form holds after `parseInt`: the number, or NaN, which
      `JSON.stringify` sends as null and which equals neither 1 nor 2. */
  function ParsedValue(r: Option<int>): Value {
    if r.Some? then Num(r.value as real) else Null
  }

  /** The keys of the initial `formData`, in the page's order. */
  const FormFields: seq<string> := [
    "GENDER", "AGE", "SMOKING", "YELLOW_FINGERS", "ANXIETY", "PEER_PRESSURE",
    "CHRONIC DISEASE", "FATIGUE", "ALLERGY", "WHEEZING", "ALCOHOL", "COUGHING",
    "SHORTNESS OF BREATH", "SWALLOWING DIFFICULTY", "CHEST PAIN"]

  /** The initial value of each field: male, 30 years old, and No (1)
      everywhere else. */
  function InitialValue(field: string): Value {
    if field == "GENDER" then Str("M") else if field == "AGE" then Num(30.0) else Num(1.0)
  }

  /** The initial `formData`. */
  const InitialFormData: map<string, Value> := map f | f in FormFields :: InitialValue(f)

  /** The radio buttons of a yes/no field: No is 1, Yes is 2. */
  predicate IsRadioValue(v: Value) {
    v == Num(1.0) || v == Num(2.0)
  }

  /** Every yes/no field holds one of the two radio values. */
  predicate RadiosSet(formData: map<string, Value>) {
    forall f :: f in LungServer.BinaryFields ==> f in formData && IsRadioValue(formData[f])
  }

  /** The initial form holds exactly the fields the service requires, so a
      default submission is never answered with a missing-field error. */
  lemma InitialFormIsComplete()
    ensures InitialFormData.Keys == set f | f in LungServer.RequiredFields
    ensures LungServer.FirstMissing(LungServer.RequiredFields, InitialFormData) == None
    ensures RadiosSet(InitialFormData)
  {
    InitialFormKeys();
    InitialRadiosSet();
  }

  lemma InitialFormKeys()
    ensures InitialFormData.Keys == set f | f in LungServer.RequiredFields
  {
    assert FormFields == LungServer.RequiredFields;
  }

  lemma InitialRadiosSet()
    ensures RadiosSet(InitialFormData)
  {
    forall f | f in LungServer.BinaryFields
      ensures f in InitialFormData && IsRadioValue(InitialFormData[f])
    {
      InitialBinaryField(f);
    }
  }

  /** The page's No (the number 1) is truthy, so the service, which decodes
      non-text yes/no values by truthiness, reads both radio values as yes. */
  lemma RadioValuesBothReadAsYes()
    ensures LungServer.BinaryCode(Num(1.0)) == 2
    ensures LungServer.BinaryCode(Num(2.0)) == 2
  {
  }

  /** The initial form's GENDER and AGE, and that it preprocesses without error. */
  lemma InitialFormPreprocesses()
    ensures "GENDER" in InitialFormData && InitialFormData["GENDER"] == Str("M")
    ensures "AGE" in InitialFormData && InitialFormData["AGE"] == Num(30.0)
    ensures LungServer.Preprocessed(InitialFormData).Done?
  {
    InitialDemographics();
    LungServer.PreprocessedSucceeds(InitialFormData);
  }

  lemma InitialDemographics()
    ensures "GENDER" in InitialFormData && InitialFormData["GENDER"] == Str("M")
    ensures "AGE" in InitialFormData && InitialFormData["AGE"] == Num(30.0)
  {
    assert "GENDER" in FormFields && "AGE" in FormFields;
  }

  /** Each yes/no field starts at No (1). */
  lemma InitialBinaryField(f: string)
    requires f in LungServer.BinaryFields
    ensures f in InitialFormData && InitialFormData[f] == Num(1.0)
  {
    LungServer.RequiredAreGenderAgeAndBinary();
    assert f in FormFields;
    assert f != "GENDER" && f != "AGE";
  }

  /** Whatever the radios say, the service reads every yes/no field as yes. */
  lemma RadiosAllReadAsYes(data: map<string, Value>)
    requires RadiosSet(data) && LungServer.Preprocessed(data).Done?
    ensures var out := LungServer.Preprocessed(data).data;
      forall f :: f in LungServer.BinaryFields ==> f in out && out[f] == Num(2.0)
  {
    forall f | f in LungServer.BinaryFields
      ensures f in LungServer.Preprocessed(data).data && LungServer.Preprocessed(data).data[f] == Num(2.0)
    {
      LungServer.PreprocessedBinary(data, f);
    }
  }

  /** A submission with the initial GENDER and AGE reaches the service as a
      male patient in age band 3. */
  lemma InitialDemographicsPreprocessed(data: map<string, Value>)
    requires "GENDER" in data && data["GENDER"] == Str("M")
    requires "AGE" in data && data["AGE"] == Num(30.0)
    requires LungServer.Preprocessed(data).Done?
    ensures var out := LungServer.Preprocessed(data).data;
      out["GENDER"] == Num(1.0) && out["age_group"] == Num(3.0) && "AGE" !in out
  {
    LungServer.PreprocessedGender(data);
    assert Upper("M") == "M" by {
      assert Upper("M")[0] == UpperChar('M') == 'M';
    }
    LungServer.PreprocessedAge(data);
  }

  datatype Risk = Low | Moderate | High

  /** `getRiskLevel`: below 0.3 is low, below 0.6 moderate, the rest high. */
  function RiskLevel(p: real): (r: Risk)
    ensures r == Low <==> p < 0.3
    ensures r == High <==> p >= 0.6
  {
    if p < 0.3 then Low else if p < 0.6 then Moderate else High
  }

  /** The class of the probability bar. */
  function ProgressBarClass(p: real): string {
    if p < 0.3 then "low-risk-bar" else if p < 0.6 then "medium-risk-bar" else "high-risk-bar"
  }

  /** The bar's colour always matches the risk level written beside it. */
  lemma ProgressBarMatchesRisk(p: real)
    ensures ProgressBarClass(p) == match RiskLevel(p)
      case Low => "low-risk-bar"
      case Moderate => "medium-risk-bar"
      case High => "high-risk-bar"
  {
  }

  function RiskRank(r: Risk): nat {
    match r
    case Low => 0
    case Moderate => 1
    case High => 2
  }

  /** A higher probability is never shown as a lower risk. */
  lemma RiskLevelMonotone(p: real, q: real)
    requires p <= q
    ensures RiskRank(RiskLevel(p)) <= RiskRank(RiskLevel(q))
  {
  }

  /** The service's verdict and the page's band agree: a YES is never shown
      as low risk, and a high risk is always a YES. */
  lemma VerdictAgreesWithRisk(p: LungServer.Probability)
    ensures var r := LungServer.Decide(p);
      && (r.prediction == "YES" ==> RiskLevel(r.probability) != Low)
      && (RiskLevel(r.probability) == High ==> r.prediction == "YES")
  {
  }

  /** The two radio texts parse to the two radio values. */
  lemma RadioTextsParse()
    ensures ParsedValue(ParseInt("1")) == Num(1.0) && ParsedValue(ParseInt("2")) == Num(2.0)
  {
    ParseIntOfNumeral(1, []);
    ParseIntOfNumeral(2, []);
    assert NatToString(1) + [] == "1" && NatToString(2) + [] == "2";
  }

  /** Storing a parsed radio text keeps every yes/no field at 1 or 2. */
  lemma RadioChangeKeepsRadios(formData: map<string, Value>, name: string, value: string)
    ensures (value == "1" || value == "2") && RadiosSet(formData) ==>
      RadiosSet(formData[name := ParsedValue(ParseInt(value))])
  {
    if (value == "1" || value == "2") && RadiosSet(formData) {
      var v := ParsedValue(ParseInt(value));
      assert IsRadioValue(v) by {
        RadioTextsParse();
      }
      UpdateKeepsRadios(formData, name, v);
    }
  }

  /** Storing a radio value keeps every yes/no field at 1 or 2. */
  lemma UpdateKeepsRadios(formData: map<string, Value>, name: string, v: Value)
    requires RadiosSet(formData) && IsRadioValue(v)
    ensures RadiosSet(formData[name := v])
  {
  }

  /** The text of the error shown for a failed submission. */
  function SubmitError(message: string): string {
    "Error making prediction: " + message
  }

  /** The message of the error thrown for a response that is not ok. */
  function StatusMessage(status: nat): string {
    "Server responded with status: " + NatToString(status)
  }

  /** The state of the page. */
  class LungPage {
    var formData: map<string, Value>
    var prediction: Value
    var loading: bool
    var error: Option<string>

    constructor ()
      ensures formData == InitialFormData && prediction == Null && !loading && error == None
    {
      formData := InitialFormData;
      prediction := Null;
      loading := false;
      error := None;
    }

    /** `handleChange`: AGE stores `parseInt` of the input, any other key
        the input's text; no other key changes. */
    method HandleChange(name: string, value: string)
      modifies this
      ensures formData == old(formData)[name := if name == "AGE" then ParsedValue(ParseInt(value)) else Str(value)]
      ensures prediction == old(prediction) && loading == old(loading) && error == old(error)
    {
      formData := formData[name := if name == "AGE" then ParsedValue(ParseInt(value)) else Str(value)];
    }

    /** `handleBinaryChange`: the named key stores `parseInt` of the radio
        value, so the radio values "1" and "2" keep every yes/no field at 1 or 2. */
    method HandleBinaryChange(name: string, value: string)
      modifies this
      ensures formData == old(formData)[name := ParsedValue(ParseInt(value))]
      ensures (value == "1" || value == "2") && RadiosSet(old(formData)) ==> RadiosSet(formData)
      ensures prediction == old(prediction) && loading == old(loading) && error == old(error)
    {
      RadioChangeKeepsRadios(formData, name, value);
      formData := formData[name := ParsedValue(ParseInt(value))];
    }

    /** `handleSubmit`, given how the request went: it sends the form as it
        is; a parsed ok response becomes the prediction, anything else an
        error naming the cause (the status, for a response that is not ok)
        with the prediction left as it was; loading ends false. */
    method HandleSubmit(outcome: Fetched) returns (sent: Value)
      modifies this
      ensures sent == Obj(old(formData))
      ensures formData == old(formData) && !loading
      ensures outcome.Responded? && IsOk(outcome.status) && outcome.body.Parsed? ==>
        prediction == outcome.body.json && error == None
      ensures outcome.Responded? && !IsOk(outcome.status) ==>
        prediction == old(prediction) && error == Some(SubmitError(StatusMessage(outcome.status)))
      ensures outcome.Responded? && IsOk(outcome.status) && outcome.body.Malformed? ==>
        prediction == old(prediction) && error == Some(SubmitError(outcome.body.message))
      ensures outcome.NetworkError? ==>
        prediction == old(prediction) && error == Some(SubmitError(outcome.message))
    {
      loading := true;
      error := None;
      sent := Obj(formData);
      match outcome {
        case NetworkError(message) =>
          error := Some(SubmitError(message));
        case Responded(status, body) =>
          if !IsOk(status) {
            error := Some(SubmitError(StatusMessage(status)));
          } else if body.Malformed? {
            error := Some(SubmitError(body.message));
          } else {
            prediction := body.json;
          }
      }
      loading := false;
    }
  }
}
