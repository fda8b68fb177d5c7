/** The thyroid test page (client/src/components/Thyroid.js): a form of
    sixteen text fields sent as they were typed, and the handling of the
    service's reply. */
module ThyroidPage {
  import opened Json
  import ThyroidServer

  /** The form's fields, in the order the page declares them. */
  const FormKeys: seq<string> := [
    "age", "sex", "TSH", "T3", "TT4", "on_thyroxine", "query_on_thyroxine",
    "on_antithyroid_medication", "sick", "pregnant", "thyroid_surgery",
    "I131_treatment", "query_hypothyroid", "query_hyperthyroid", "tumor", "psych"]

  /** Every field starts empty. */
  const InitialForm: map<string, Value> := map k | k in FormKeys :: Str("")

  /** The form has exactly the columns the service reads, in its order, and
      an untouched form reaches the classifier as a row of missing values. */
  lemma InitialFormMatchesService()
    ensures FormKeys == ThyroidServer.FeatureColumns
    ensures InitialForm.Keys == set k | k in ThyroidServer.FeatureColumns
    ensures forall i :: 0 <= i < 16 ==> ThyroidServer.Features(InitialForm)[i] == ThyroidServer.Missing
  {
    forall i | 0 <= i < 16
      ensures ThyroidServer.Features(InitialForm)[i] == ThyroidServer.Missing
    {
      assert FormKeys[i] in FormKeys;
      ThyroidServer.FeatureCells(InitialForm, i);
    }
  }

  const ConnectionError: string := "Failed to connect to the server. Please try again."
  const UnknownError: string := "Unknown error occurred"

  /** What the page shows once a reply settles. */
  datatype Panel = Panel(prediction: Value, explanation: Value, dietRecommendations: Value, error: Value)

  /** The panel for a reply: one with a truthy `success` shows its three
      fields; any other object shows its `error`, or the fixed text when
      that is falsy; a reply that is not JSON, or the JSON `null`, shows the
      connection error. The status is not looked at. */
  function Settled(body: Body): (p: Panel)
    ensures body.Malformed? || body.json.Null? ==> p == Panel(Null, Null, Null, Str(ConnectionError))
    ensures body.Parsed? && !body.json.Null? && JsTruthy(Member(body.json, "success")) ==>
      p == Panel(Member(body.json, "prediction"), Member(body.json, "explanation"),
                 Member(body.json, "dietRecommendations"), Null)
    ensures body.Parsed? && !body.json.Null? && !JsTruthy(Member(body.json, "success")) ==>
      p.prediction == Null && p.explanation == Null && p.dietRecommendations == Null &&
      p.error == (if JsTruthy(Member(body.json, "error")) then Member(body.json, "error") else Str(UnknownError))
  {
    if body.Malformed? || body.json.Null? then Panel(Null, Null, Null, Str(ConnectionError))
    else if JsTruthy(Member(body.json, "success")) then
      Panel(Member(body.json, "prediction"), Member(body.json, "explanation"),
            Member(body.json, "dietRecommendations"), Null)
    else
      var e := Member(body.json, "error");
      Panel(Null, Null, Null, if JsTruthy(e) then e else Str(UnknownError))
  }

  /** A successful service answer is shown with its class, explanation and
      diet, and no error. */
  lemma SettledOnSuccess(thyroidClass: string, explanation: string, diet: Value)
    ensures Settled(Parsed(Obj(ThyroidServer.SuccessBody(thyroidClass, explanation, diet)))) ==
      Panel(Str(thyroidClass), Str(explanation), diet, Null)
  {
  }

  /** A failed service answer shows its message, or the fixed text when the
      message is empty. */
  lemma SettledOnFailure(message: string)
    ensures Settled(Parsed(Obj(ThyroidServer.FailureBody(message)))) ==
      Panel(Null, Null, Null, if message == "" then Str(UnknownError) else Str(message))
  {
  }

  class ThyroidApp {
    var formData: map<string, Value>
    var prediction: Value
    var explanation: Value
    var dietRecommendations: Value
    var loading: bool
    var error: Value

    constructor ()
      ensures formData == InitialForm && prediction == Null && explanation == Null
      ensures dietRecommendations == Null && !loading && error == Null
    {
      formData := InitialForm;
      prediction := Null;
      explanation := Null;
      dietRecommendations := Null;
      loading := false;
      error := Null;
    }

    /** `handleChange`: the raw text under the field's name; nothing else
        changes. */
    method HandleChange(name: string, value: string)
      modifies this
      ensures formData == old(formData)[name := Str(value)]
      ensures prediction == old(prediction) && explanation == old(explanation)
      ensures dietRecommendations == old(dietRecommendations) && loading == old(loading) && error == old(error)
    {
      formData := formData[name := Str(value)];
    }

    /** `handleSubmit`, given how the request went: the earlier prediction,
        explanation, diet and error are cleared, the form is sent as it is,
        the panel shows what the reply settles to (the connection error when
        the request failed), and loading ends false. */
    method HandleSubmit(outcome: Fetched) returns (sent: Value)
      modifies this
      ensures sent == Obj(old(formData)) && formData == old(formData) && !loading
      ensures outcome.Responded? ==>
        Panel(prediction, explanation, dietRecommendations, error) == Settled(outcome.body)
      ensures outcome.NetworkError? ==>
        Panel(prediction, explanation, dietRecommendations, error) == Panel(Null, Null, Null, Str(ConnectionError))
    {
      loading := true;
      error := Null;
      prediction := Null;
      explanation := Null;
      dietRecommendations := Null;
      sent := Obj(formData);
      match outcome {
        case NetworkError(_) =>
          error := Str(ConnectionError);
        case Responded(_, body) =>
          if body.Malformed? || body.json.Null? {
            error := Str(ConnectionError);
          } else if JsTruthy(Member(body.json, "success")) {
            prediction := Member(body.json, "prediction");
            explanation := Member(body.json, "explanation");
            dietRecommendations := Member(body.json, "dietRecommendations");
          } else {
            var e := Member(body.json, "error");
            error := if JsTruthy(e) then e else Str(UnknownError);
          }
      }
      loading := false;
    }
  }
}
