/** The thyroid service (server/thyroid.py): the conversion of a request
    value to a feature, the 16-column feature row, the cleaning of the
    language model's diet reply and its fallback, the `predict` response,
    and the symptom extraction and recommendation of `assess_symptoms`.
    The classifier, the random forest and the language model are opaque:
    what they produce is a parameter. */
module ThyroidServer {
  import opened Json
  import opened Text

  /** A cell of the feature row: a number, an infinity, or missing (NaN). */
  datatype Feature = Missing | Number(x: real) | Infinity(negative: bool)

  /** `x` times ten to the power `e`, one factor of ten at a time. */
  function Shift(x: real, e: int): real
    decreases if e >= 0 then e else -e
  {
    if e == 0 then x
    else if e > 0 then Shift(x, e - 1) * 10.0
    else Shift(x, e + 1) / 10.0
  }

  /** The value of the digits `whole`, a point and the digits `fraction`. */
  function DecimalValue(whole: string, fraction: string): real
    requires AllDigits(whole) && AllDigits(fraction)
  {
    DigitsValue(whole) as real + Shift(DigitsValue(fraction) as real, -|fraction|)
  }

  /** The exponent of a decimal literal, `e` or `E` then an optional sign
      and at least one digit and nothing more; None when malformed. */
  function ExponentValue(s: string): Option<int>
    requires s != [] && (s[0] == 'e' || s[0] == 'E')
  {
    var t := s[1..];
    var negative := t != [] && t[0] == '-';
    var digits := if t != [] && (t[0] == '-' || t[0] == '+') then t[1..] else t;
    if digits != [] && AllDigits(digits) then
      Some(if negative then -(DigitsValue(digits) as int) else DigitsValue(digits) as int)
    else None
  }

  /** An unsigned decimal literal as `float` accepts it: digits, an optional
      point with optional digits, at least one digit in all, and an optional
      exponent; None for anything else. */
  function UnsignedDecimal(s: string): Option<real> {
    var k := DigitRun(s);
    AfterWhole(s[..k], s[k..])
  }

  /** The literal once its whole-number digits are read. */
  function AfterWhole(whole: string, rest: string): Option<real>
    requires AllDigits(whole)
  {
    if rest != [] && rest[0] == '.' then
      var f := DigitRun(rest[1..]);
      WithExponent(whole, rest[1..][..f], rest[1..][f..])
    else WithExponent(whole, [], rest)
  }

  /** The literal once its digits are read: at least one digit, then
      nothing or a well-formed exponent. */
  function WithExponent(whole: string, fraction: string, tail: string): Option<real>
    requires AllDigits(whole) && AllDigits(fraction)
  {
    if |whole| + |fraction| == 0 then None
    else
      var mantissa := DecimalValue(whole, fraction);
      if tail == [] then Some(mantissa)
      else if tail[0] == 'e' || tail[0] == 'E' then
        match ExponentValue(tail)
        case None => None
        case Some(e) => Some(Shift(mantissa, e))
      else None
  }

  /** `inf`, `infinity` and `nan` in any case, the words `float` accepts
      after the sign. */
  function SpecialValue(word: string, negative: bool): Option<Feature> {
    var lower := Lower(word);
    if lower == "inf" || lower == "infinity" then Some(Infinity(negative))
    else if lower == "nan" then Some(Missing)
    else None
  }

  /** Each of the three words holds the letter n. */
  lemma NotSpecialWithoutN(word: string, negative: bool)
    requires forall i :: 0 <= i < |word| ==> word[i] != 'n' && word[i] != 'N'
    ensures SpecialValue(word, negative) == None
  {
    var lower := Lower(word);
    assert forall i :: 0 <= i < |lower| ==> lower[i] != 'n';
    if |lower| == 3 || |lower| == 8 {
      assert lower[1] != 'n' && lower[0] != 'n';
    }
  }

  /** The stripped text with its sign taken off. */
  function Unsigned(t: string): string {
    if t != [] && (t[0] == '-' || t[0] == '+') then t[1..] else t
  }

  /** `float` on text that has been stripped of whitespace. */
  function ParseStripped(t: string): Option<Feature> {
    var negative := t != [] && t[0] == '-';
    var body := Unsigned(t);
    match SpecialValue(body, negative)
    case Some(f) => Some(f)
    case None =>
      match UnsignedDecimal(body)
      case None => None
      case Some(x) => Some(Number(if negative then -x else x))
  }

  /** Python `float(s)` for text: surrounding whitespace, an optional sign,
      then `inf`, `infinity` or `nan` in any case, or a decimal literal;
      None where `float` raises ValueError. */
  function ParseFloat(s: string): Option<Feature> {
    ParseStripped(PyStrip(s))
  }

  /** `convert_value`: the empty text and None are missing; anything else
      is `float(value)`, and missing when that raises. */
  function ConvertValue(v: Value): Feature {
    match v
    case Null => Missing
    case Str(s) => ConvertText(s)
    case Num(n) => Number(n)
    case Bool(b) => Number(if b then 1.0 else 0.0)
    case Arr(_) => Missing
    case Obj(_) => Missing
  }

  /** `convert_value` on text. */
  function ConvertText(s: string): Feature {
    if s == "" then Missing
    else match ParseFloat(s) case None => Missing case Some(f) => f
  }

  /** A JSON number, and the blank and absent inputs, convert as they are. */
  lemma ConvertPlainValues(n: real, b: bool)
    ensures ConvertValue(Num(n)) == Number(n)
    ensures ConvertValue(Bool(b)) == Number(if b then 1.0 else 0.0)
    ensures ConvertValue(Str("")) == Missing && ConvertValue(Null) == Missing
  {
  }

  /** Text whose stripped form is an unsigned literal converts to its value. */
  lemma ConvertUnsignedLiteral(s: string, x: real)
    requires PyStrip(s) != [] && IsDigit(PyStrip(s)[0]) && AllDigitsOrPoint(PyStrip(s))
    requires UnsignedDecimal(PyStrip(s)) == Some(x)
    ensures ConvertValue(Str(s)) == Number(x)
  {
    ParseStrippedUnsigned(PyStrip(s), x);
    assert ParseFloat(s) == Some(Number(x));
  }

  /** `float` of an unsigned literal, once stripped, is its value. */
  lemma ParseStrippedUnsigned(t: string, x: real)
    requires t != [] && IsDigit(t[0]) && AllDigitsOrPoint(t)
    requires UnsignedDecimal(t) == Some(x)
    ensures ParseStripped(t) == Some(Number(x))
  {
    assert Unsigned(t) == t;
    NotSpecialWithoutN(t, false);
  }

  predicate AllDigitsOrPoint(s: string) {
    forall i :: 0 <= i < |s| ==> IsDigit(s[i]) || s[i] == '.'
  }

  lemma UnsignedDecimalOfNumeral(n: nat)
    ensures UnsignedDecimal(NatToString(n)) == Some(n as real)
  {
    var s := NatToString(n);
    DigitRunOfDigits(s, []);
    assert s + [] == s;
    assert s[..|s|] == s && s[|s|..] == [];
    DigitsOfNatToString(n);
    assert AfterWhole(s, []) == WithExponent(s, [], []);
  }

  /** The numeral of a whole number, with any whitespace around it,
      converts to that number. */
  lemma ConvertNumeral(pre: string, n: nat, post: string)
    requires forall i :: 0 <= i < |pre| ==> IsPyWhitespace(pre[i])
    requires forall i :: 0 <= i < |post| ==> IsPyWhitespace(post[i])
    ensures ConvertValue(Str(pre + NatToString(n) + post)) == Number(n as real)
  {
    var digits := NatToString(n);
    StripAround(pre, digits, post);
    UnsignedDecimalOfNumeral(n);
    ConvertUnsignedLiteral(pre + digits + post, n as real);
  }

  lemma {:induction false} UnsignedDecimalWithFraction(whole: string, fraction: string)
    requires whole != [] && AllDigits(whole) && fraction != [] && AllDigits(fraction)
    ensures UnsignedDecimal(whole + "." + fraction) ==
      Some(DecimalValue(whole, fraction))
  {
    var s := whole + "." + fraction;
    assert s == whole + ("." + fraction);
    DigitRunOfDigits(whole, "." + fraction);
    assert s[..|whole|] == whole && s[|whole|..] == "." + fraction;
    var rest := "." + fraction;
    assert rest[1..] == fraction;
    DigitRunOfDigits(fraction, []);
    assert fraction + [] == fraction;
    assert fraction[..|fraction|] == fraction && fraction[|fraction|..] == [];
    assert AfterWhole(whole, rest) == WithExponent(whole, fraction, []);
    assert UnsignedDecimal(s) == AfterWhole(whole, rest);
    assert WithExponent(whole, fraction, []) ==
      Some(DecimalValue(whole, fraction));
    assert UnsignedDecimal(whole + "." + fraction) ==
      Some(DecimalValue(whole, fraction));
  }

  /** Digits, a point and digits convert to their exact value: the whole
      digits plus the fraction digits shifted right by their count (the
      rounding to a double is not modelled). */
  lemma ConvertDigitsWithFraction(whole: string, fraction: string)
    requires whole != [] && AllDigits(whole) && fraction != [] && AllDigits(fraction)
    ensures ConvertValue(Str(whole + "." + fraction)) == Number(DecimalValue(whole, fraction))
  {
    var s := whole + "." + fraction;
    UnsignedDecimalWithFraction(whole, fraction);
    DecimalTextShape(whole, fraction);
    StripOfTrimmed(s);
    ConvertUnsignedLiteral(s, DecimalValue(whole, fraction));
  }

  lemma DecimalTextShape(whole: string, fraction: string)
    requires whole != [] && AllDigits(whole) && fraction != [] && AllDigits(fraction)
    ensures var s := whole + "." + fraction;
      IsDigit(s[0]) && IsDigit(s[|s| - 1]) && AllDigitsOrPoint(s)
  {
    var s := whole + "." + fraction;
    assert s[0] == whole[0] && s[|s| - 1] == fraction[|fraction| - 1];
    forall i | 0 <= i < |s|
      ensures IsDigit(s[i]) || s[i] == '.'
    {
      if i < |whole| {
        assert s[i] == whole[i];
      } else if i > |whole| {
        assert s[i] == fraction[i - |whole| - 1];
      }
    }
  }

  /** No character of the text is a digit or the letter n in either case. */
  predicate NoDigitOrN(s: string) {
    forall i :: 0 <= i < |s| ==> !IsDigit(s[i]) && s[i] != 'n' && s[i] != 'N'
  }

  /** Text without a digit and without the letter n (which every one of
      inf, infinity and nan holds) is missing. */
  lemma ConvertWithoutDigits(s: string)
    requires NoDigitOrN(s)
    ensures ConvertValue(Str(s)) == Missing
  {
    if s != "" {
      StripKeepsNoDigits(s);
      NoStrippedLiteral(PyStrip(s));
      assert ParseFloat(s) == None;
    }
  }

  /** Stripping keeps characters of the text, so none of them is a digit or an n. */
  lemma StripKeepsNoDigits(s: string)
    requires NoDigitOrN(s)
    ensures NoDigitOrN(PyStrip(s))
  {
    var l := PyLStrip(s);
    NoDigitOrNSlice(s, |s| - |l|, |s|);
    assert l == s[|s| - |l|..|s|];
    NoDigitOrNSlice(l, 0, |PyRStrip(l)|);
    assert PyRStrip(l) == l[0..|PyRStrip(l)|];
  }

  lemma NoDigitOrNSlice(s: string, lo: nat, hi: nat)
    requires lo <= hi <= |s| && NoDigitOrN(s)
    ensures NoDigitOrN(s[lo..hi])
  {
    assert forall i :: 0 <= i < hi - lo ==> s[lo..hi][i] == s[lo + i];
  }

  lemma NoStrippedLiteral(t: string)
    requires NoDigitOrN(t)
    ensures ParseStripped(t) == None
  {
    var body := Unsigned(t);
    assert forall i :: 0 <= i < |body| ==> body[i] == t[i + |t| - |body|];
    NotSpecialWithoutN(body, t != [] && t[0] == '-');
    NoDecimalWithoutDigits(body);
  }

  /** A literal needs a digit. */
  lemma NoDecimalWithoutDigits(body: string)
    requires forall i :: 0 <= i < |body| ==> !IsDigit(body[i])
    ensures UnsignedDecimal(body) == None
  {
    assert DigitRun(body) == 0;
    assert body[..0] == [] && body[0..] == body;
    if body != [] && body[0] == '.' {
      assert forall i :: 0 <= i < |body[1..]| ==> !IsDigit(body[1..][i]);
      assert DigitRun(body[1..]) == 0;
    }
  }

  /** The columns of the feature row, in order. */
  const FeatureColumns: seq<string> := [
    "age", "sex", "TSH", "T3", "TT4", "on_thyroxine", "query_on_thyroxine",
    "on_antithyroid_medication", "sick", "pregnant", "thyroid_surgery",
    "I131_treatment", "query_hypothyroid", "query_hyperthyroid", "tumor", "psych"]

  /** The row of `convert_value(data.get(column))`. */
  function Features(data: map<string, Value>): (row: seq<Feature>)
    ensures |row| == |FeatureColumns| == 16
  {
    seq(|FeatureColumns|, i requires 0 <= i < |FeatureColumns| => ConvertValue(Get(data, FeatureColumns[i], Null)))
  }

  /** Each cell is the conversion of the request value of the same name, and
      an absent key is missing. */
  lemma FeatureCells(data: map<string, Value>, i: nat)
    requires i < |FeatureColumns|
    ensures FeatureColumns[i] in data ==> Features(data)[i] == ConvertValue(data[FeatureColumns[i]])
    ensures FeatureColumns[i] !in data ==> Features(data)[i] == Missing
  {
  }

  /** Keys outside the sixteen columns never reach the classifier. */
  lemma FeaturesIgnoreOtherKeys(a: map<string, Value>, b: map<string, Value>)
    requires forall c :: c in FeatureColumns ==> (c in a <==> c in b) && (c in a ==> a[c] == b[c])
    ensures Features(a) == Features(b)
  {
    forall i | 0 <= i < |FeatureColumns|
      ensures Features(a)[i] == Features(b)[i]
    {
      assert FeatureColumns[i] in FeatureColumns;
    }
  }

  /** The cleaning of the diet reply: stripped, then the "```json" opening
      dropped, then the closing "```" dropped. */
  function Unfenced(reply: string): string {
    CutFences(PyStrip(reply))
  }

  /** The two cuts of the cleaning, on the stripped reply. */
  function CutFences(stripped: string): string {
    var afterOpen := if StartsWith(stripped, "```json") then stripped[7..] else stripped;
    if EndsWith(afterOpen, "```") then afterOpen[..|afterOpen| - 3] else afterOpen
  }

  /** The cleaning step by step, as `get_diet_recommendations` reassigns
      `cleaned_response`. */
  method CleanReply(reply: string) returns (cleaned: string)
    ensures cleaned == Unfenced(reply)
  {
    cleaned := PyStrip(reply);
    if StartsWith(cleaned, "```json") {
      cleaned := cleaned[7..];
    }
    if EndsWith(cleaned, "```") {
      cleaned := cleaned[..|cleaned| - 3];
    }
  }

  /** A reply without fences is only stripped. */
  lemma UnfencedWithoutFences(reply: string)
    requires !StartsWith(PyStrip(reply), "```json") && !EndsWith(PyStrip(reply), "```")
    ensures Unfenced(reply) == PyStrip(reply)
  {
  }

  /** A fenced JSON block, with whitespace around it, comes back as exactly
      the text inside the fences. */
  lemma UnfencedBlock(pre: string, json: string, post: string)
    requires forall i :: 0 <= i < |pre| ==> IsPyWhitespace(pre[i])
    requires forall i :: 0 <= i < |post| ==> IsPyWhitespace(post[i])
    ensures Unfenced(pre + "```json" + json + "```" + post) == json
  {
    var open := "```json";
    var close := "```";
    var block := open + json + close;
    assert pre + open + json + close + post == pre + block + post;
    assert block[0] == open[0] && block[|block| - 1] == close[2];
    StripAround(pre, block, post);
    FencesCut(json);
  }

  /** The two cuts applied to a fenced block. */
  lemma FencesCut(json: string)
    ensures var block := "```json" + json + "```";
      var afterOpen := if StartsWith(block, "```json") then block[7..] else block;
      (if EndsWith(afterOpen, "```") then afterOpen[..|afterOpen| - 3] else afterOpen) == json
  {
    var block := "```json" + json + "```";
    assert block[..7] == "```json";
    var afterOpen := block[7..];
    assert afterOpen == json + "```";
    assert afterOpen[|afterOpen| - 3..] == "```";
    assert afterOpen[..|afterOpen| - 3] == json;
  }

  /** The cleaning only ever removes characters from the ends. */
  lemma UnfencedIsSlice(reply: string)
    ensures exists i, j :: 0 <= i <= j <= |PyStrip(reply)| && Unfenced(reply) == PyStrip(reply)[i..j]
  {
    CutFencesIsSlice(PyStrip(reply));
  }

  lemma CutFencesIsSlice(stripped: string)
    ensures exists i, j :: 0 <= i <= j <= |stripped| && CutFences(stripped) == stripped[i..j]
  {
    var i := if StartsWith(stripped, "```json") then 7 else 0;
    var afterOpen := stripped[i..];
    var j := if EndsWith(afterOpen, "```") then |stripped| - 3 else |stripped|;
    assert CutFences(stripped) == stripped[i..j];
  }

  predicate IsFoodEntry(v: Value) {
    v.Obj? && v.fields.Keys == {"name", "reason"} && v.fields["name"].Str? && v.fields["reason"].Str?
  }

  /** One entry of the fallback lists: a food and why. */
  function Food(name: string, reason: string): (v: Value)
    ensures IsFoodEntry(v)
    ensures v.fields["name"] == Str(name) && v.fields["reason"] == Str(reason)
  {
    Obj(map["name" := Str(name), "reason" := Str(reason)])
  }

  const FallbackInclude: seq<Value> := [
    Food("Seafood", "Rich in iodine and selenium"),
    Food("Fruits and vegetables", "Provide essential vitamins and antioxidants"),
    Food("Lean proteins", "Support thyroid hormone production"),
    Food("Whole grains", "Provide fiber and nutrients"),
    Food("Nuts and seeds", "Contain healthy fats and minerals")]

  const FallbackAvoid: seq<Value> := [
    Food("Processed foods", "May contain additives that interfere with thyroid function"),
    Food("Excessive soy products", "May affect thyroid hormone absorption"),
    Food("High-sugar foods", "Can contribute to inflammation"),
    Food("Alcohol", "Can affect thyroid function"),
    Food("Caffeine", "May interfere with medication absorption")]

  /** The recommendations returned when the language model or the JSON
      parse fails. */
  const FallbackDiet: Value := Obj(map["include" := Arr(FallbackInclude), "avoid" := Arr(FallbackAvoid)])

  /** The fallback lists five foods to include and five to avoid, each with
      a name and a reason. */
  lemma FallbackDietShape()
    ensures FallbackDiet.Obj? && FallbackDiet.fields.Keys == {"include", "avoid"}
    ensures FallbackDiet.fields["include"] == Arr(FallbackInclude) && |FallbackInclude| == 5
    ensures FallbackDiet.fields["avoid"] == Arr(FallbackAvoid) && |FallbackAvoid| == 5
    ensures forall i :: 0 <= i < 5 ==> IsFoodEntry(FallbackInclude[i]) && IsFoodEntry(FallbackAvoid[i])
  {
  }

  /** `get_diet_recommendations`, given the language model's reply (None
      when the call raises) and `json.loads` (None when it raises). */
  function DietRecommendations(reply: Option<string>, parse: string -> Option<Value>): (r: Value)
    ensures reply.None? ==> r == FallbackDiet
    ensures reply.Some? && parse(Unfenced(reply.value)).Some? ==> r == parse(Unfenced(reply.value)).value
    ensures reply.Some? && parse(Unfenced(reply.value)).None? ==> r == FallbackDiet
  {
    match reply
    case None => FallbackDiet
    case Some(text) =>
      match parse(Unfenced(text))
      case None => FallbackDiet
      case Some(v) => v
  }

  const FallbackExplanation: string :=
    "<p>Unable to generate explanation at this time. Please consult with your healthcare provider for information about your condition.</p>"

  /** `get_explanation`, given the language model's reply (None when the call raises). */
  function Explanation(reply: Option<string>): string {
    if reply.Some? then reply.value else FallbackExplanation
  }

  /** What `model.predict` does with the row: a class label, or an exception. */
  datatype Classified = ClassifyFailed(message: string) | Labelled(thyroidClass: string)

  datatype Answer = Answer(status: nat, body: Value)

  /** The body of a successful `predict`. */
  function SuccessBody(thyroidClass: string, explanation: string, diet: Value): (body: map<string, Value>)
    ensures body.Keys == {"prediction", "explanation", "dietRecommendations", "success"}
    ensures body["prediction"] == Str(thyroidClass) && body["explanation"] == Str(explanation)
    ensures body["dietRecommendations"] == diet && body["success"] == Bool(true)
  {
    map["prediction" := Str(thyroidClass), "explanation" := Str(explanation),
        "dietRecommendations" := diet, "success" := Bool(true)]
  }

  /** The body of a failed `predict`. */
  function FailureBody(message: string): (body: map<string, Value>)
    ensures body.Keys == {"error", "success"}
    ensures body["error"] == Str(message) && body["success"] == Bool(false)
  {
    map["error" := Str(message), "success" := Bool(false)]
  }

  /** `predict` for a JSON object request. */
  function PredictResponse(data: map<string, Value>, classify: seq<Feature> -> Classified,
                           explanationReply: Option<string>, dietReply: Option<string>,
                           parse: string -> Option<Value>): (a: Answer)
  {
    match classify(Features(data))
    case ClassifyFailed(message) => Answer(500, Obj(FailureBody(message)))
    case Labelled(thyroidClass) =>
      Answer(200, Obj(SuccessBody(thyroidClass, Explanation(explanationReply), DietRecommendations(dietReply, parse))))
  }

  /** A `predict` answer reports success exactly when its status is 200,
      which happens exactly when the classifier returns a class; a success
      carries the class, the explanation and the diet, and a failure is a
      500 with the exception's message. */
  lemma PredictResponseShape(data: map<string, Value>, classify: seq<Feature> -> Classified,
                             explanationReply: Option<string>, dietReply: Option<string>,
                             parse: string -> Option<Value>)
    ensures var a := PredictResponse(data, classify, explanationReply, dietReply, parse);
      && a.body.Obj? && "success" in a.body.fields
      && a.body.fields["success"] == Bool(a.status == 200)
      && (a.status == 200 <==> classify(Features(data)).Labelled?)
      && (a.status == 200 ==> a.body.fields == SuccessBody(classify(Features(data)).thyroidClass,
            Explanation(explanationReply), DietRecommendations(dietReply, parse)))
      && (a.status != 200 ==> a.status == 500 && a.body.fields == FailureBody(classify(Features(data)).message))
  {
  }

  /** The symptom keys `assess_symptoms` keeps, in the order the forest reads them. */
  const SymptomKeys: seq<string> := [
    "fatigue", "weight_change", "cold_sensitivity", "hair_loss",
    "dry_skin", "mood_changes", "neck_swelling", "heart_rate_changes"]

  /** The `symptoms` dictionary: each of the eight keys with its request
      value, or 0. */
  function ExtractSymptoms(data: map<string, Value>): (symptoms: map<string, Value>)
    ensures symptoms.Keys == set k | k in SymptomKeys
  {
    map k | k in SymptomKeys :: Get(data, k, Num(0.0))
  }

  /** Every kept symptom has its request value, or 0 when absent, and keys
      outside the eight (such as personalInfo) never matter. */
  lemma ExtractSymptomsValues(data: map<string, Value>, other: map<string, Value>)
    requires forall k :: k in SymptomKeys ==> (k in data <==> k in other) && (k in data ==> data[k] == other[k])
    ensures forall k :: k in SymptomKeys && k in data ==> ExtractSymptoms(data)[k] == data[k]
    ensures forall k :: k in SymptomKeys && k !in data ==> ExtractSymptoms(data)[k] == Num(0.0)
    ensures ExtractSymptoms(data) == ExtractSymptoms(other)
  {
  }

  /** The row `ThyroidAssessmentModel.predict` hands to the forest. */
  function SymptomRow(symptoms: map<string, Value>): (row: seq<Value>)
    ensures |row| == |SymptomKeys|
  {
    seq(|SymptomKeys|, i requires 0 <= i < |SymptomKeys| => Get(symptoms, SymptomKeys[i], Num(0.0)))
  }

  /** The forest reads the extracted symptoms in key order. */
  lemma SymptomRowOfExtracted(data: map<string, Value>, i: nat)
    requires i < |SymptomKeys|
    ensures SymptomRow(ExtractSymptoms(data))[i] == Get(data, SymptomKeys[i], Num(0.0))
  {
    assert SymptomKeys[i] in SymptomKeys;
  }

  /** What the forest says about a row: whether testing is advised and the
      probability of that class. An exception in the forest (a value that
      is no number) is `Result.Raised`, below. */
  datatype Assessment = Assessment(needsTesting: bool, confidence: real)

  const TestingAdvised: string :=
    "Based on your symptoms, we recommend consulting with a healthcare provider about thyroid testing."

  const TestingNotAdvised: string :=
    "Your symptoms don't strongly indicate a need for thyroid testing, but monitor your condition and consult a healthcare provider if symptoms worsen."

  /** The recommendation for an assessment. */
  function Recommendation(needsTesting: bool): (text: string)
    ensures text == TestingAdvised || text == TestingNotAdvised
    ensures text == TestingAdvised <==> needsTesting
  {
    assert TestingAdvised != TestingNotAdvised;
    if needsTesting then TestingAdvised else TestingNotAdvised
  }

  /** The recommendation depends on `needs_testing` alone, and the two
      recommendations differ. */
  lemma RecommendationByNeed(a: Assessment, b: Assessment)
    ensures a.needsTesting == b.needsTesting ==> Recommendation(a.needsTesting) == Recommendation(b.needsTesting)
    ensures a.needsTesting != b.needsTesting ==> Recommendation(a.needsTesting) != Recommendation(b.needsTesting)
  {
    assert TestingAdvised != TestingNotAdvised;
  }

  /** `assess_symptoms`: the forest's result dictionary with the
      recommendation written into it, or a 500 naming the exception. */
  method AssessSymptoms(data: map<string, Value>, forest: seq<Value> -> Result)
    returns (status: nat, response: Value)
    ensures var r := forest(SymptomRow(ExtractSymptoms(data)));
      && (r.Raised? ==> status == 500 && response == Obj(map["error" := Str(r.message)]))
      && (r.Assessed? ==>
            && status == 200 && response.Obj?
            && response.fields.Keys == {"needs_testing", "confidence", "recommendation"}
            && response.fields["needs_testing"] == Bool(r.assessment.needsTesting)
            && response.fields["confidence"] == Num(r.assessment.confidence)
            && response.fields["recommendation"] == Str(Recommendation(r.assessment.needsTesting)))
  {
    var symptoms := ExtractSymptoms(data);
    var outcome := forest(SymptomRow(symptoms));
    if outcome.Raised? {
      return 500, Obj(map["error" := Str(outcome.message)]);
    }
    var result := new Dict(map["needs_testing" := Bool(outcome.assessment.needsTesting),
                                "confidence" := Num(outcome.assessment.confidence)]);
    var recommendation := "";
    if outcome.assessment.needsTesting {
      recommendation := TestingAdvised;
    } else {
      recommendation := TestingNotAdvised;
    }
    result.entries := result.entries["recommendation" := Str(recommendation)];
    return 200, Obj(result.entries);
  }

  /** What the forest call yields. */
  datatype Result = Raised(message: string) | Assessed(assessment: Assessment)
}
