/** The lung-cancer risk service (server/lung.py): the required-field check,
    the in-place normalisation of the request dictionary, the model-loading
    state and the rule that turns the network's probability into YES or NO.
    The network itself is opaque; what it produces is a parameter. */
module LungServer {
  import opened Json
  import opened Text

  /** `groupAge`: ten-year age bands, everything under 10 in band 0 and
      everything from 80 on in band 8. */
  function GroupAge(age: real): (g: nat)
    ensures g <= 8
    ensures age < 10.0 ==> g == 0
    ensures age >= 80.0 ==> g == 8
    ensures 10.0 <= age < 80.0 ==> g == (age / 10.0).Floor
  {
    if age < 10.0 then 0
    else if age < 20.0 then 1
    else if age < 30.0 then 2
    else if age < 40.0 then 3
    else if age < 50.0 then 4
    else if age < 60.0 then 5
    else if age < 70.0 then 6
    else if age < 80.0 then 7
    else 8
  }

  /** An older patient is never put in a younger band. */
  lemma GroupAgeMonotone(a: real, b: real)
    requires a <= b
    ensures GroupAge(a) <= GroupAge(b)
  {
  }

  /** The order in which `predict` looks for missing fields. */
  const RequiredFields: seq<string> := [
    "GENDER", "AGE", "SMOKING", "YELLOW_FINGERS", "ANXIETY", "PEER_PRESSURE",
    "CHRONIC DISEASE", "FATIGUE", "ALLERGY", "WHEEZING", "ALCOHOL", "COUGHING",
    "SHORTNESS OF BREATH", "SWALLOWING DIFFICULTY", "CHEST PAIN"]

  /** The yes/no fields `preprocess_input` recodes to 1 (no) and 2 (yes). */
  const BinaryFields: seq<string> := [
    "SMOKING", "YELLOW_FINGERS", "ANXIETY", "PEER_PRESSURE",
    "CHRONIC DISEASE", "FATIGUE", "ALLERGY", "WHEEZING",
    "ALCOHOL", "COUGHING", "SHORTNESS OF BREATH",
    "SWALLOWING DIFFICULTY", "CHEST PAIN"]

  lemma RequiredAreGenderAgeAndBinary()
    ensures RequiredFields == ["GENDER", "AGE"] + BinaryFields
  {
  }

  lemma BinaryFieldsDistinct()
    ensures forall i, j :: 0 <= i < j < |BinaryFields| ==> BinaryFields[i] != BinaryFields[j]
  {
  }

  predicate MissingFirstAt(fields: seq<string>, data: map<string, Value>, i: int) {
    0 <= i < |fields| && fields[i] !in data && forall j :: 0 <= j < i ==> fields[j] in data
  }

  /** The first field, in list order, that the request lacks. */
  function FirstMissing(fields: seq<string>, data: map<string, Value>): (r: Option<string>)
    ensures r.None? <==> forall f :: f in fields ==> f in data
    ensures r.Some? ==> exists i :: MissingFirstAt(fields, data, i) && fields[i] == r.value
  {
    if fields == [] then None
    else if fields[0] !in data then
      assert MissingFirstAt(fields, data, 0);
      Some(fields[0])
    else
      var r := FirstMissing(fields[1..], data);
      if r.Some? then
        var i :| MissingFirstAt(fields[1..], data, i) && fields[1..][i] == r.value;
        assert MissingFirstAt(fields, data, i + 1);
        r
      else
        assert forall f :: f in fields ==> f == fields[0] || f in fields[1..];
        r
  }

  /** The required-field loop of `predict`, which returns at the first
      missing field. */
  method FindMissingField(data: map<string, Value>) returns (missing: Option<string>)
    ensures missing == FirstMissing(RequiredFields, data)
  {
    var fields := RequiredFields;
    for i := 0 to |fields|
      invariant FirstMissing(fields[i..], data) == FirstMissing(fields, data)
    {
      var field := fields[i];
      FirstMissingFrom(fields, data, i);
      if field !in data {
        return Some(field);
      }
    }
    assert fields[|fields|..] == [];
    return None;
  }

  /** One step of the search: the field at `i` is the answer when it is
      missing, and otherwise the search goes on after it. */
  lemma FirstMissingFrom(fields: seq<string>, data: map<string, Value>, i: nat)
    requires i < |fields|
    ensures fields[i] !in data ==> FirstMissing(fields[i..], data) == Some(fields[i])
    ensures fields[i] in data ==> FirstMissing(fields[i..], data) == FirstMissing(fields[i + 1..], data)
  {
    assert fields[i..][0] == fields[i] && fields[i..][1..] == fields[i + 1..];
  }

  /** `value.upper() in ['YES', 'Y', 'TRUE', '1', '2']`. */
  const YesSpellings: seq<string> := ["YES", "Y", "TRUE", "1", "2"]

  /** The recoding of one yes/no field: text by its spelling, anything else
      by Python truthiness. */
  function BinaryCode(v: Value): (code: int)
    ensures code == 1 || code == 2
    ensures v.Str? ==> (code == 2 <==> Upper(v.s) in YesSpellings)
    ensures !v.Str? ==> (code == 2 <==> PyTruthy(v))
  {
    if v.Str? then (if Upper(v.s) in YesSpellings then 2 else 1)
    else if PyTruthy(v) then 2 else 1
  }

  /** The GENDER recoding: 1 for the text M in any case, 0 for any other text. */
  function GenderCode(s: string): real {
    if Upper(s) == "M" then 1.0 else 0.0
  }

  /** The number Python compares in `AGE < 10`, with a boolean counting as
      0 or 1; any other value makes the comparison raise TypeError. */
  function AgeNumber(v: Value): Option<real> {
    match v
    case Num(n) => Some(n)
    case Bool(b) => Some(if b then 1.0 else 0.0)
    case _ => None
  }

  datatype PreprocessError =
    | GenderNotText     // `.upper()` on a non-string raises AttributeError
    | AgeNotComparable  // `groupAge` on a non-number raises TypeError

  datatype Preprocessing = Done(data: map<string, Value>) | Raised(error: PreprocessError)

  predicate GenderReadable(data: map<string, Value>) {
    "GENDER" !in data || data["GENDER"].Str?
  }

  /** The dictionary after the GENDER assignment. */
  function WithGenderCode(data: map<string, Value>): map<string, Value>
    requires GenderReadable(data)
  {
    if "GENDER" in data then data["GENDER" := Num(GenderCode(data["GENDER"].s))] else data
  }

  /** The dictionary after the yes/no recoding of those of `fields` it holds. */
  function WithBinaryCodes(data: map<string, Value>, fields: seq<string>): map<string, Value> {
    map k | k in data :: if k in fields then Num(BinaryCode(data[k]) as real) else data[k]
  }

  /** The dictionary `preprocess_input` leaves, or the exception it raises. */
  function Preprocessed(data: map<string, Value>): Preprocessing {
    if !GenderReadable(data) then Raised(GenderNotText)
    else
      var coded := WithBinaryCodes(WithGenderCode(data), BinaryFields);
      if "AGE" !in coded then Done(coded)
      else match AgeNumber(coded["AGE"])
        case None => Raised(AgeNotComparable)
        case Some(age) => Done(coded["age_group" := Num(GroupAge(age) as real)] - {"AGE"})
  }

  /** Preprocessing raises exactly when GENDER is not text or AGE is not a number. */
  lemma PreprocessedRaises(data: map<string, Value>)
    ensures Preprocessed(data).Raised? <==>
      ("GENDER" in data && !data["GENDER"].Str?) || ("AGE" in data && AgeNumber(data["AGE"]).None?)
  {
  }

  /** Text GENDER and a numeric AGE preprocess without error. */
  lemma PreprocessedSucceeds(data: map<string, Value>)
    requires "GENDER" in data ==> data["GENDER"].Str?
    requires "AGE" in data ==> AgeNumber(data["AGE"]).Some?
    ensures Preprocessed(data).Done?
  {
    PreprocessedRaises(data);
  }

  /** A successful preprocessing is the recoded dictionary with AGE
      replaced by its band. */
  lemma PreprocessedUnfolds(data: map<string, Value>)
    requires Preprocessed(data).Done?
    ensures GenderReadable(data)
    ensures var coded := WithBinaryCodes(WithGenderCode(data), BinaryFields);
      && ("AGE" in data <==> "AGE" in coded)
      && ("AGE" !in data ==> Preprocessed(data).data == coded)
      && ("AGE" in data ==> AgeNumber(data["AGE"]).Some?)
      && ("AGE" in data ==>
            Preprocessed(data).data == coded["age_group" := Num(GroupAge(AgeNumber(data["AGE"]).value) as real)] - {"AGE"})
  {
  }

  /** GENDER becomes 1 for the text M in any case and 0 otherwise. */
  lemma PreprocessedGender(data: map<string, Value>)
    requires Preprocessed(data).Done? && "GENDER" in data
    ensures Preprocessed(data).data["GENDER"] == Num(if Upper(data["GENDER"].s) == "M" then 1.0 else 0.0)
  {
    PreprocessedUnfolds(data);
    assert "GENDER" !in BinaryFields;
    BinaryCodesKeep(WithGenderCode(data), BinaryFields, "GENDER");
  }

  /** A key outside the recoded fields keeps its value. */
  lemma BinaryCodesKeep(data: map<string, Value>, fields: seq<string>, k: string)
    requires k in data && k !in fields
    ensures k in WithBinaryCodes(data, fields) && WithBinaryCodes(data, fields)[k] == data[k]
  {
  }

  /** Every yes/no field present becomes 1 or 2 by `BinaryCode`. */
  lemma PreprocessedBinary(data: map<string, Value>, f: string)
    requires Preprocessed(data).Done? && f in BinaryFields && f in data
    ensures var out := Preprocessed(data).data;
      f in out && out[f] == Num(BinaryCode(data[f]) as real) && (out[f] == Num(1.0) || out[f] == Num(2.0))
  {
    PreprocessedUnfolds(data);
    BinaryFieldIsPlain(f);
    var coded := WithBinaryCodes(WithGenderCode(data), BinaryFields);
    assert f in coded && coded[f] == Num(BinaryCode(data[f]) as real);
  }

  /** No yes/no field is GENDER, AGE or `age_group`. */
  lemma BinaryFieldIsPlain(f: string)
    requires f in BinaryFields
    ensures f != "GENDER" && f != "AGE" && f != "age_group"
  {
  }

  /** AGE is replaced by its ten-year band. */
  lemma PreprocessedAge(data: map<string, Value>)
    requires Preprocessed(data).Done? && "AGE" in data
    ensures var out := Preprocessed(data).data;
      "AGE" !in out && out["age_group"] == Num(GroupAge(AgeNumber(data["AGE"]).value) as real)
  {
    PreprocessedUnfolds(data);
  }

  /** The keys are those of the request, with `age_group` in place of AGE. */
  lemma PreprocessedKeys(data: map<string, Value>)
    requires Preprocessed(data).Done?
    ensures Preprocessed(data).data.Keys == (data.Keys - {"AGE"}) + (if "AGE" in data then {"age_group"} else {})
  {
    PreprocessedUnfolds(data);
  }

  /** Any other key keeps its value. */
  lemma PreprocessedOthers(data: map<string, Value>, k: string)
    requires Preprocessed(data).Done? && k in data
    requires k != "GENDER" && k != "AGE" && k != "age_group" && k !in BinaryFields
    ensures k in Preprocessed(data).data && Preprocessed(data).data[k] == data[k]
  {
    PreprocessedUnfolds(data);
  }

  lemma {:induction false} WithOneMoreBinaryCode(data: map<string, Value>, fields: seq<string>, f: string)
    requires f !in fields
    ensures WithBinaryCodes(data, fields + [f]) ==
      if f in data then WithBinaryCodes(data, fields)[f := Num(BinaryCode(data[f]) as real)]
      else WithBinaryCodes(data, fields)
  {
    var lhs := WithBinaryCodes(data, fields + [f]);
    var rhs := if f in data then WithBinaryCodes(data, fields)[f := Num(BinaryCode(data[f]) as real)]
               else WithBinaryCodes(data, fields);
    assert lhs.Keys == rhs.Keys;
    forall k | k in lhs.Keys
      ensures lhs[k] == rhs[k]
    {
      assert k in fields + [f] <==> k in fields || k == f;
    }
  }

  /** Recoding one more yes/no field, which no earlier step has touched. */
  lemma BinaryCodeStep(data: map<string, Value>, i: nat)
    requires i < |BinaryFields|
    ensures var f := BinaryFields[i];
      var before := WithBinaryCodes(data, BinaryFields[..i]);
      && (f in before <==> f in data)
      && WithBinaryCodes(data, BinaryFields[..i + 1]) ==
           if f in data then before[f := Num(BinaryCode(before[f]) as real)] else before
  {
    var f := BinaryFields[i];
    BinaryFieldsDistinct();
    assert f !in BinaryFields[..i];
    WithOneMoreBinaryCode(data, BinaryFields[..i], f);
    assert BinaryFields[..i + 1] == BinaryFields[..i] + [f];
  }

  /** `preprocess_input` up to the DataFrame: it changes the caller's
      dictionary in place. When AGE cannot be compared the exception comes
      after the GENDER and yes/no assignments, which stay. */
  method PreprocessInPlace(d: Dict) returns (err: Option<PreprocessError>)
    modifies d
    ensures err.None? <==> Preprocessed(old(d.entries)).Done?
    ensures err.None? ==> d.entries == Preprocessed(old(d.entries)).data
    ensures err.Some? ==> err.value == Preprocessed(old(d.entries)).error
    ensures err == Some(GenderNotText) ==> d.entries == old(d.entries)
    ensures err == Some(AgeNotComparable) ==>
      d.entries == WithBinaryCodes(WithGenderCode(old(d.entries)), BinaryFields)
  {
    if "GENDER" in d.entries {
      var gender := d.entries["GENDER"];
      if !gender.Str? {
        return Some(GenderNotText);
      }
      d.entries := d.entries["GENDER" := Num(GenderCode(gender.s))];
    }
    ghost var gendered := d.entries;
    assert gendered == WithGenderCode(old(d.entries));
    for i := 0 to |BinaryFields|
      invariant d.entries == WithBinaryCodes(gendered, BinaryFields[..i])
    {
      var field := BinaryFields[i];
      BinaryCodeStep(gendered, i);
      if field in d.entries {
        var value := d.entries[field];
        d.entries := d.entries[field := Num(BinaryCode(value) as real)];
      }
    }
    assert BinaryFields[..|BinaryFields|] == BinaryFields;
    if "AGE" in d.entries {
      var age := AgeNumber(d.entries["AGE"]);
      if age.None? {
        return Some(AgeNotComparable);
      }
      d.entries := d.entries["age_group" := Num(GroupAge(age.value) as real)];
      d.entries := d.entries - {"AGE"};
    }
    return None;
  }

  /** The network's weights: read from the trained file, or the random ones
      of a freshly built network. */
  datatype Weights = Trained | Untrained

  /** How one call of `load_model` goes. */
  datatype LoadOutcome =
    | WeightsLoaded      // the weights file exists and loads
    | NoWeightsFile      // the file is absent: a warning, and True
    | WeightsUnreadable  // `torch.load` raises after the network was built
    | BuildFailed        // building the network itself raises

  /** `load_model`: the new value of the global `form_model` and the return
      value. The global is assigned before the weights are read, so a failed
      read still leaves a (randomly initialised) model behind. */
  function LoadModel(current: Option<Weights>, outcome: LoadOutcome): (r: (Option<Weights>, bool))
    ensures r.1 ==> r.0.Some?
    ensures outcome != BuildFailed ==> r.0.Some?
    ensures r.0 == Some(Trained) <==> outcome == WeightsLoaded || (outcome == BuildFailed && current == Some(Trained))
  {
    match outcome
    case WeightsLoaded => (Some(Trained), true)
    case NoWeightsFile => (Some(Untrained), true)
    case WeightsUnreadable => (Some(Untrained), false)
    case BuildFailed => (current, false)
  }

  /** What `torch.sigmoid(output).item()` gives. */
  datatype Probability = NaN | Finite(p: real)

  /** The forward pass: a probability, or an exception (for instance when the
      tensor built from the request has the wrong shape). */
  datatype NetworkOutput = ForwardFailed(message: string) | Output(probability: Probability)

  datatype LungError =
    | ModelNotLoaded
    | MissingField(field: string)
    | InvalidInput(cause: PreprocessError)
    | ModelFailed(message: string)

  datatype LungResponse = Prediction(prediction: string, probability: real) | Failure(error: LungError)

  function Status(r: LungResponse): nat {
    match r
    case Prediction(_, _) => 200
    case Failure(MissingField(_)) => 400
    case Failure(_) => 500
  }

  /** The `error` text of the responses whose text is fixed. */
  function ErrorText(e: LungError): string
    requires e.ModelNotLoaded? || e.MissingField?
  {
    if e.ModelNotLoaded? then "Model could not be loaded" else "Missing required field: " + e.field
  }

  /** NaN counts as an even chance, and only a chance above one half is YES. */
  function Decide(p: Probability): (r: LungResponse)
    ensures r.Prediction? && (r.prediction == "YES" || r.prediction == "NO")
    ensures r.probability == if p.NaN? then 0.5 else p.p
    ensures r.prediction == "YES" <==> r.probability > 0.5
  {
    var probability := if p.NaN? then 0.5 else p.p;
    Prediction(if probability > 0.5 then "YES" else "NO", probability)
  }

  /** The 400 for the first missing field, else an exception while
      preprocessing or in the network, else the decision. */
  function Respond(data: map<string, Value>, output: NetworkOutput): LungResponse {
    match FirstMissing(RequiredFields, data)
    case Some(field) => Failure(MissingField(field))
    case None =>
      match Preprocessed(data)
      case Raised(e) => Failure(InvalidInput(e))
      case Done(_) =>
        match output
        case ForwardFailed(m) => Failure(ModelFailed(m))
        case Output(p) => Decide(p)
  }

  /** A response is a 400 exactly when a required field is missing, and
      then it names the first one in list order. */
  lemma {:induction false} MissingFieldResponse(data: map<string, Value>, output: NetworkOutput)
    ensures Status(Respond(data, output)) == 400 <==> exists f :: f in RequiredFields && f !in data
    ensures Status(Respond(data, output)) == 400 ==>
      var f := Respond(data, output).error.field;
      exists i :: && MissingFirstAt(RequiredFields, data, i) && RequiredFields[i] == f
                  && ErrorText(Respond(data, output).error) == "Missing required field: " + RequiredFields[i]
  {
    if FirstMissing(RequiredFields, data).None? {
      match Preprocessed(data)
      case Raised(_) =>
      case Done(_) =>
        match output
        case ForwardFailed(_) =>
        case Output(p) => assert Decide(p).Prediction?;
    }
  }

  /** The service process: the global `form_model`. */
  class LungService {
    var formModel: Option<Weights>

    /** At import time no model is loaded. */
    constructor ()
      ensures formModel == None
    {
      formModel := None;
    }

    /** `predict`, with the load attempt's outcome and the network's output
        as parameters. An unloaded model whose loading fails is a 500 and
        nothing else happens; otherwise the request is answered as
        `Respond` says, the dictionary being preprocessed in place once
        every required field is there. */
    method Predict(data: Dict, load: LoadOutcome, output: NetworkOutput) returns (r: LungResponse)
      modifies this, data
      ensures formModel == if old(formModel).None? then LoadModel(None, load).0 else old(formModel)
      ensures old(formModel).None? && !LoadModel(None, load).1 ==>
        && r == Failure(ModelNotLoaded) && data.entries == old(data.entries)
        && ErrorText(r.error) == "Model could not be loaded"
      ensures old(formModel).Some? || LoadModel(None, load).1 ==>
        && r == Respond(old(data.entries), output)
        && (r.Failure? && r.error.MissingField? ==> data.entries == old(data.entries))
        && (Preprocessed(old(data.entries)).Done? && FirstMissing(RequiredFields, old(data.entries)).None? ==>
              data.entries == Preprocessed(old(data.entries)).data)
        && (FirstMissing(RequiredFields, old(data.entries)).None? && Preprocessed(old(data.entries)).Raised? ==>
              data.entries == if Preprocessed(old(data.entries)).error == GenderNotText then old(data.entries)
                              else WithBinaryCodes(WithGenderCode(old(data.entries)), BinaryFields))
    {
      if formModel.None? {
        var loaded := LoadModel(formModel, load);
        formModel := loaded.0;
        if !loaded.1 {
          return Failure(ModelNotLoaded);
        }
      }
      var missing := FindMissingField(data.entries);
      if missing.Some? {
        return Failure(MissingField(missing.value));
      }
      var err := PreprocessInPlace(data);
      if err.Some? {
        return Failure(InvalidInput(err.value));
      }
      match output {
        case ForwardFailed(m) =>
          r := Failure(ModelFailed(m));
        case Output(p) =>
          r := Decide(p);
      }
    }
  }
}
