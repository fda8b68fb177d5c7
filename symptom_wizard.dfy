/** The multi-step thyroid symptom survey (client/src/components/TestForm.js):
    a personal-information step, then one slider step per symptom question,
    then a submission to the assessment service whose answer replaces the
    survey with a results view until the survey is reset. */
module SymptomWizard {
  import opened Json
  import ThyroidServer

  datatype SymptomQuestion = SymptomQuestion(id: string, question: string, info: string)

  /** The fixed questions, in the order the steps show them. */
  const SymptomQuestions: seq<SymptomQuestion> := [
    SymptomQuestion("fatigue",
      "How would you rate your level of fatigue or tiredness?",
      "Thyroid issues can cause persistent fatigue that does not improve with rest."),
    SymptomQuestion("weight_change",
      "Have you experienced unexplained weight changes?",
      "Hypothyroidism can cause weight gain, while hyperthyroidism may cause weight loss."),
    SymptomQuestion("cold_sensitivity",
      "How sensitive are you to cold temperatures?",
      "Increased sensitivity to cold is common with hypothyroidism."),
    SymptomQuestion("hair_loss",
      "Have you noticed increased hair loss or thinning?",
      "Thyroid disorders can affect hair follicles, leading to hair loss."),
    SymptomQuestion("dry_skin",
      "How dry or rough is your skin?",
      "Dry, rough skin can be a symptom of hypothyroidism."),
    SymptomQuestion("mood_changes",
      "Have you experienced mood changes like depression or anxiety?",
      "Thyroid hormones affect brain function and can influence mood."),
    SymptomQuestion("neck_swelling",
      "Have you noticed any swelling in your neck area?",
      "An enlarged thyroid gland (goiter) may indicate thyroid issues."),
    SymptomQuestion("heart_rate_changes",
      "Have you experienced changes in your heart rate (too fast or slow)?",
      "Hyperthyroidism can cause rapid heartbeat, while hypothyroidism may slow it down.")
  ]

  /** The number of symptom steps; step 0 is the personal-information step. */
  const StepCount: nat := |SymptomQuestions|

  /** A value of `currentStep`. */
  type Step = k: int | 0 <= k <= StepCount

  /** The answer keys, in question order. */
  const SymptomIds: seq<string> := ["fatigue", "weight_change", "cold_sensitivity", "hair_loss",
                                    "dry_skin", "mood_changes", "neck_swelling", "heart_rate_changes"]

  lemma SymptomIdsMatchQuestions()
    ensures |SymptomIds| == |SymptomQuestions|
    ensures forall i :: 0 <= i < |SymptomIds| ==> SymptomIds[i] == SymptomQuestions[i].id
  {
  }

  /** A slider position: the range input runs from 0 to 1 in steps of 0.1,
      so its value is a whole number of tenths. */
  type Tenths = x: int | 0 <= x <= 10

  /** The number a slider position stands for. */
  function SliderValue(x: Tenths): real {
    x as real / 10.0
  }

  /** Every answer starts at zero. */
  const InitialAnswers: map<string, Tenths> := map id | id in SymptomIds :: 0

  datatype PersonalInfo = PersonalInfo(age: string, gender: string, familyHistory: string)

  const BlankPersonalInfo: PersonalInfo := PersonalInfo("", "", "no")

  /** The `name` attributes of the three personal-information inputs. */
  datatype PersonalField = AgeField | GenderField | FamilyHistoryField

  function FieldOf(p: PersonalInfo, f: PersonalField): string {
    match f
    case AgeField => p.age
    case GenderField => p.gender
    case FamilyHistoryField => p.familyHistory
  }

  /** `handlePersonalInfoChange`: the named field takes the input's text and
      the other two fields keep theirs. */
  function WithPersonalField(p: PersonalInfo, f: PersonalField, value: string): (r: PersonalInfo)
    ensures FieldOf(r, f) == value
    ensures forall g :: g != f ==> FieldOf(r, g) == FieldOf(p, g)
  {
    match f
    case AgeField => p.(age := value)
    case GenderField => p.(gender := value)
    case FamilyHistoryField => p.(familyHistory := value)
  }

  /** `nextStep`: forward by one unless already on the last question. */
  function Next(step: Step): Step {
    if step < StepCount then step + 1 else step
  }

  /** `prevStep`: back by one unless already on the first step. */
  function Prev(step: Step): Step {
    if step > 0 then step - 1 else step
  }

  /** Next then Previous returns to every step but the last. */
  lemma PrevAfterNext(k: Step)
    requires k < StepCount
    ensures Prev(Next(k)) == k
  {
  }

  /** Previous then Next returns to every step but the first. */
  lemma NextAfterPrev(k: Step)
    requires k > 0
    ensures Next(Prev(k)) == k
  {
  }

  /** The step reached by pressing Next `n` times from `step`. */
  function NextTimes(step: Step, n: nat): Step
    decreases n
  {
    if n == 0 then step else NextTimes(Next(step), n - 1)
  }

  /** However often Next is pressed, the step climbs by one per press and
      stops at the last question. */
  lemma {:induction false} NextTimesStopsAtLast(step: Step, n: nat)
    ensures NextTimes(step, n) == if step + n <= StepCount then step + n else StepCount
    decreases n
  {
    if n > 0 {
      NextTimesStopsAtLast(Next(step), n - 1);
    }
  }

  const SeverityLabels: seq<string> := ["None or minimal", "Mild", "Moderate", "Significant", "Severe"]

  /** `getSymptomSeverityText`: each band includes its upper bound. */
  function SeverityText(v: Tenths): (r: string)
    ensures r in SeverityLabels
  {
    if v <= 2 then "None or minimal"
    else if v <= 4 then "Mild"
    else if v <= 6 then "Moderate"
    else if v <= 8 then "Significant"
    else "Severe"
  }

  /** The position of a value's band among the five labels, in closed form:
      0.0 to 0.2 are band 0, and each further 0.2 is one band more. */
  function SeverityBand(v: Tenths): (b: nat)
    ensures b < |SeverityLabels|
  {
    if v == 0 then 0 else (v - 1) / 2
  }

  lemma SeverityTextIsBandLabel(v: Tenths)
    ensures SeverityText(v) == SeverityLabels[SeverityBand(v)]
  {
  }

  /** A larger value never gets a milder label. */
  lemma SeverityMonotone(a: Tenths, b: Tenths)
    requires a <= b
    ensures forall i, j ::
      (0 <= i < |SeverityLabels| && 0 <= j < |SeverityLabels| &&
       SeverityLabels[i] == SeverityText(a) && SeverityLabels[j] == SeverityText(b)) ==> i <= j
  {
    SeverityTextIsBandLabel(a);
    SeverityTextIsBandLabel(b);
  }

  lemma SeveritySamples()
    ensures SeverityText(0) == "None or minimal"
    ensures SeverityText(2) == "None or minimal"
    ensures SeverityText(3) == "Mild"
    ensures SeverityText(10) == "Severe"
  {
  }

  function PersonalInfoJson(p: PersonalInfo): Value {
    Obj(map["age" := Str(p.age), "gender" := Str(p.gender), "familyHistory" := Str(p.familyHistory)])
  }

  /** The submitted body, `{...formData, personalInfo}`: one entry per
      answer holding its slider value, plus the `personalInfo` object. */
  function AssessBody(answers: map<string, Tenths>, info: PersonalInfo): (body: map<string, Value>)
    ensures body.Keys == answers.Keys + {"personalInfo"}
    ensures forall id :: id in answers && id != "personalInfo" ==> body[id] == Num(SliderValue(answers[id]))
    ensures body["personalInfo"] == PersonalInfoJson(info)
  {
    (map id | id in answers :: Num(SliderValue(answers[id])))["personalInfo" := PersonalInfoJson(info)]
  }

  const SampleAnswers: map<string, Tenths> := map[
    "fatigue" := 5, "weight_change" := 0, "cold_sensitivity" := 2, "hair_loss" := 0,
    "dry_skin" := 0, "mood_changes" := 0, "neck_swelling" := 0, "heart_rate_changes" := 0]

  const SampleInfo: PersonalInfo := PersonalInfo("45", "female", "yes")

  /** The sample submission of the survey's documentation. */
  lemma SampleBody()
    ensures AssessBody(SampleAnswers, SampleInfo).Keys == SampleAnswers.Keys + {"personalInfo"}
    ensures AssessBody(SampleAnswers, SampleInfo)["fatigue"] == Num(0.5)
    ensures AssessBody(SampleAnswers, SampleInfo)["cold_sensitivity"] == Num(0.2)
    ensures AssessBody(SampleAnswers, SampleInfo)["weight_change"] == Num(0.0)
    ensures AssessBody(SampleAnswers, SampleInfo)["personalInfo"] ==
      Obj(map["age" := Str("45"), "gender" := Str("female"), "familyHistory" := Str("yes")])
  {
    assert SampleAnswers["fatigue"] == 5 && SampleAnswers["cold_sensitivity"] == 2;
    assert SampleAnswers["weight_change"] == 0;
    assert "fatigue" != "personalInfo" && "cold_sensitivity" != "personalInfo" && "weight_change" != "personalInfo";
  }

  /** A submission counts as answered when the status is ok and the body parsed;
      a rejected fetch, a non-ok status (thrown as an error) and an unreadable
      body all end in the alert. */
  predicate Answered(outcome: Fetched) {
    outcome.Responded? && IsOk(outcome.status) && outcome.body.Parsed?
  }

  datatype ForwardButton = NextButton | SubmitButton(disabled: bool, caption: string)

  datatype WizardScreen =
    | ResultsScreen(results: Value)
    | PersonalInfoScreen(info: PersonalInfo)
    | QuestionScreen(number: nat, question: SymptomQuestion, severity: string, forward: ForwardButton)

  /** What the component renders. Results that are present (truthy) win
      over every step; otherwise step 0 is the personal-information form and
      step k shows the k-th question, whose forward button is Next on every
      question but the last, where it submits. */
  function ScreenFor(results: Value, step: Step, answers: map<string, Tenths>, info: PersonalInfo, loading: bool): (r: WizardScreen)
    requires answers.Keys == set id | id in SymptomIds
    ensures JsTruthy(results) ==> r.ResultsScreen?
    ensures !JsTruthy(results) && step == 0 ==> r.PersonalInfoScreen?
    ensures !JsTruthy(results) && step > 0 ==>
      && r.QuestionScreen? && r.question == SymptomQuestions[step - 1] && r.number == step
      && r.severity == SeverityText(answers[SymptomIds[step - 1]])
      && (r.forward.SubmitButton? <==> step == StepCount)
  {
    if JsTruthy(results) then ResultsScreen(results)
    else if step == 0 then PersonalInfoScreen(info)
    else
      var q := SymptomQuestions[step - 1];
      SymptomIdsMatchQuestions();
      QuestionScreen(step, q, SeverityText(answers[q.id]),
        if step < StepCount then NextButton
        else SubmitButton(loading, if loading then "Processing..." else "Get Assessment"))
  }

  /** Each question is shown on exactly one step. */
  lemma {:induction false} EachQuestionOnOneStep(answers: map<string, Tenths>, info: PersonalInfo, s: Step, t: Step)
    requires answers.Keys == set id | id in SymptomIds
    requires s > 0 && t > 0
    requires ScreenFor(Null, s, answers, info, false).question.id == ScreenFor(Null, t, answers, info, false).question.id
    ensures s == t
  {
    SymptomIdsMatchQuestions();
  }

  /** The assessment service reads the symptoms in the order the survey
      asks them. */
  lemma QuestionOrderMatchesService()
    ensures SymptomIds == ThyroidServer.SymptomKeys
  {
  }

  /** The assessment service extracts exactly the eight slider values of a
      submission, in question order, and ignores `personalInfo`. */
  lemma ServiceReadsSubmittedSliders(answers: map<string, Tenths>, info: PersonalInfo)
    requires answers.Keys == set id | id in SymptomIds
    ensures ThyroidServer.ExtractSymptoms(AssessBody(answers, info)) ==
      map id | id in SymptomIds :: Num(SliderValue(answers[id]))
    ensures forall i :: 0 <= i < |SymptomIds| ==>
      ThyroidServer.SymptomRow(ThyroidServer.ExtractSymptoms(AssessBody(answers, info)))[i] ==
        Num(SliderValue(answers[SymptomIds[i]]))
  {
    QuestionOrderMatchesService();
    var body := AssessBody(answers, info);
    assert "personalInfo" !in SymptomIds;
    forall i | 0 <= i < |SymptomIds|
      ensures ThyroidServer.SymptomRow(ThyroidServer.ExtractSymptoms(body))[i] == Num(SliderValue(answers[SymptomIds[i]]))
    {
      ThyroidServer.SymptomRowOfExtracted(body, i);
    }
  }

  /** The survey's state, the fields the component keeps with `useState`. */
  class Wizard {
    var currentStep: int
    var answers: map<string, Tenths>
    var personalInfo: PersonalInfo
    var results: Value
    var loading: bool

    /** The step stays within 0..8 and there is one answer per question. */
    ghost predicate Valid()
      reads this
    {
      0 <= currentStep <= StepCount && answers.Keys == set id | id in SymptomIds
    }

    constructor ()
      ensures Valid()
      ensures currentStep == 0 && answers == InitialAnswers && personalInfo == BlankPersonalInfo
      ensures results == Null && !loading
    {
      currentStep := 0;
      answers := InitialAnswers;
      personalInfo := BlankPersonalInfo;
      results := Null;
      loading := false;
    }

    function Screen(): WizardScreen
      reads this
      requires Valid()
    {
      ScreenFor(results, currentStep, answers, personalInfo, loading)
    }

    /** `handleSymptomChange(id, value)`: the slider of question `id` moved. */
    method HandleSymptomChange(id: string, value: Tenths)
      requires Valid() && id in SymptomIds
      modifies this
      ensures Valid()
      ensures answers == old(answers)[id := value]
      ensures forall other :: other in old(answers) && other != id ==> answers[other] == old(answers)[other]
      ensures currentStep == old(currentStep) && personalInfo == old(personalInfo)
      ensures results == old(results) && loading == old(loading)
    {
      answers := answers[id := value];
    }

    /** `handlePersonalInfoChange`: the named input changed. */
    method HandlePersonalInfoChange(name: PersonalField, value: string)
      requires Valid()
      modifies this
      ensures Valid()
      ensures personalInfo == WithPersonalField(old(personalInfo), name, value)
      ensures currentStep == old(currentStep) && answers == old(answers)
      ensures results == old(results) && loading == old(loading)
    {
      personalInfo := WithPersonalField(personalInfo, name, value);
    }

    method NextStep()
      requires Valid()
      modifies this
      ensures Valid()
      ensures currentStep == Next(old(currentStep))
      ensures answers == old(answers) && personalInfo == old(personalInfo)
      ensures results == old(results) && loading == old(loading)
    {
      if currentStep < |SymptomQuestions| {
        currentStep := currentStep + 1;
      }
    }

    method PrevStep()
      requires Valid()
      modifies this
      ensures Valid()
      ensures currentStep == Prev(old(currentStep))
      ensures answers == old(answers) && personalInfo == old(personalInfo)
      ensures results == old(results) && loading == old(loading)
    {
      if currentStep > 0 {
        currentStep := currentStep - 1;
      }
    }

    /** `resetForm`: back to a fresh survey (the loading flag is untouched). */
    method ResetForm()
      requires Valid()
      modifies this
      ensures Valid()
      ensures results == Null && currentStep == 0
      ensures answers == InitialAnswers && personalInfo == BlankPersonalInfo
      ensures loading == old(loading)
    {
      results := Null;
      currentStep := 0;
      answers := InitialAnswers;
      personalInfo := BlankPersonalInfo;
    }

    /** `handleSubmit`, with the fetch's outcome as a parameter. Returns the
        body that was posted and whether the error alert was shown. */
    method HandleSubmit(outcome: Fetched) returns (body: Value, alerted: bool)
      requires Valid()
      modifies this
      ensures Valid()
      ensures body == Obj(AssessBody(old(answers), old(personalInfo)))
      ensures alerted <==> !Answered(outcome)
      ensures results == if Answered(outcome) then outcome.body.json else old(results)
      ensures currentStep == old(currentStep) && answers == old(answers) && personalInfo == old(personalInfo)
      ensures !loading
    {
      loading := true;
      body := Obj(AssessBody(answers, personalInfo));
      alerted := false;
      match outcome {
        case NetworkError(_) =>
          alerted := true;
        case Responded(status, reply) =>
          if !IsOk(status) {
            alerted := true;
          } else if reply.Malformed? {
            alerted := true;
          } else {
            results := reply.json;
          }
      }
      loading := false;
    }
  }
}
