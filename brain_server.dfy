/** The brain-scan service (server/brain.py): the choice of the class with
    the highest score, the result text built from its label, the recovery
    of the tumour name from that text for the explanation prompt, and the
    branches of the upload endpoint. The network and the language model are
    opaque: what they produce is a parameter. */
module BrainServer {
  import opened Json
  import opened Text

  /** The classes, in the order of the network's outputs. */
  const ClassLabels: seq<string> := ["pituitary", "glioma", "notumor", "meningioma"]

  /** An output index of the network. */
  type ClassIndex = i: int | 0 <= i < 4

  /** `np.argmax`: the first index of a largest score. */
  function ArgMax(scores: seq<real>): (i: nat)
    requires |scores| > 0
    ensures i < |scores|
    ensures forall j :: 0 <= j < |scores| ==> scores[j] <= scores[i]
    ensures forall j :: 0 <= j < i ==> scores[j] < scores[i]
  {
    if |scores| == 1 then 0
    else
      var rest := ArgMax(scores[1..]);
      if scores[0] >= scores[1 + rest] then 0 else 1 + rest
  }

  /** `np.max`. */
  function Max(scores: seq<real>): (m: real)
    requires |scores| > 0
    ensures m in scores
    ensures forall j :: 0 <= j < |scores| ==> scores[j] <= m
  {
    if |scores| == 1 then scores[0]
    else
      var rest := Max(scores[1..]);
      assert rest in scores;
      if scores[0] >= rest then scores[0] else rest
  }

  /** The reported confidence is the score of the reported class. */
  lemma {:induction false} ConfidenceOfChosenClass(scores: seq<real>)
    requires |scores| > 0
    ensures Max(scores) == scores[ArgMax(scores)]
  {
    var i := ArgMax(scores);
    var m := Max(scores);
    assert scores[i] <= m;
    var k :| 0 <= k < |scores| && scores[k] == m;
    assert m <= scores[i];
  }

  const NoTumorResult: string := "No Tumor"

  /** The result text for a class: "No Tumor" for `notumor`, otherwise
      "Tumor: " and the label with a capital. */
  function ResultText(i: ClassIndex): string {
    if ClassLabels[i] == "notumor" then NoTumorResult else "Tumor: " + Capitalize(ClassLabels[i])
  }

  /** Only the `notumor` class reads "No Tumor". */
  lemma NoTumorExactlyForNotumor(i: ClassIndex)
    ensures ResultText(i) == NoTumorResult <==> ClassLabels[i] == "notumor"
    ensures ClassLabels[i] != "notumor" ==> StartsWith(ResultText(i), "Tumor: ")
  {
    if ClassLabels[i] != "notumor" {
      var r := ResultText(i);
      assert r[..7] == "Tumor: ";
      assert r[1] == 'u' && NoTumorResult[1] == 'o';
    }
  }

  /** What the explanation prompt is about. */
  datatype Subject =
    | NoTumorShown                 // the fixed prompt about a scan without a tumour
    | TumorNamed(name: string)     // the prompt about the named tumour
    | SplitFailed                  // `split(": ")[1]` raises IndexError

  /** `get_explanation`'s choice of prompt: the fixed one for "No Tumor",
      else the second piece of the text split at ": ". */
  function SubjectOf(result: string): Subject {
    if result == NoTumorResult then NoTumorShown
    else
      var pieces := Split(result, ": ");
      if |pieces| < 2 then SplitFailed else TumorNamed(pieces[1])
  }

  /** Capitalising letters never makes a colon. */
  lemma CapitalizeHasNoColon(word: string)
    requires forall k :: 0 <= k < |word| ==> 'a' <= word[k] <= 'z'
    ensures forall k :: 0 <= k < |Capitalize(word)| ==> Capitalize(word)[k] != ':'
  {
  }

  /** Every label is a word of lower-case letters. */
  lemma LabelsAreLowerCase(i: ClassIndex)
    ensures forall k :: 0 <= k < |ClassLabels[i]| ==> 'a' <= ClassLabels[i][k] <= 'z'
  {
    if i == 0 {
      assert ClassLabels[i] == "pituitary";
    } else if i == 1 {
      assert ClassLabels[i] == "glioma";
    } else if i == 2 {
      assert ClassLabels[i] == "notumor";
    } else {
      assert ClassLabels[i] == "meningioma";
    }
  }

  /** For any label of lower-case letters the split recovers the
      capitalised label. */
  lemma {:induction false} SubjectOfAnyLabel(word: string)
    requires forall k :: 0 <= k < |word| ==> 'a' <= word[k] <= 'z'
    ensures SubjectOf("Tumor: " + Capitalize(word)) == TumorNamed(Capitalize(word))
  {
    var name := Capitalize(word);
    var r := "Tumor: " + name;
    assert r[1] == 'u' && NoTumorResult[1] == 'o';
    CapitalizeHasNoColon(word);
    assert r == "Tumor" + ": " + name;
    SplitAfterHead("Tumor", ": ", name);
    SplitWithoutSeparator(name, ": ");
  }

  /** The split recovers the capitalised label of every tumour class, and
      the `notumor` class never reaches the split. */
  lemma SubjectRoundTrip(i: ClassIndex)
    ensures ClassLabels[i] == "notumor" ==> SubjectOf(ResultText(i)) == NoTumorShown
    ensures ClassLabels[i] != "notumor" ==> SubjectOf(ResultText(i)) == TumorNamed(Capitalize(ClassLabels[i]))
  {
    if ClassLabels[i] != "notumor" {
      LabelsAreLowerCase(i);
      SubjectOfAnyLabel(ClassLabels[i]);
    }
  }

  const NoTumorPrompt: string :=
    "Provide a brief, simple explanation about what it means when an MRI brain scan shows no tumor. Make it understandable for a general audience in 2-3 sentences."

  /** The prompt about a named tumour. */
  function TumorPrompt(name: string): string {
    TumorPromptHead + name + TumorPromptTail
  }

  const TumorPromptHead: string := "Provide a brief, simple explanation about what a "
  const TumorPromptTail: string :=
    " brain tumor is. Include basic information about its characteristics, common symptoms, and general prognosis. Make it understandable for a general audience in 3-4 sentences."

  const ExplanationFallback: string := "Information about this condition is not available at the moment."

  /** The prompt for a subject; None when the split raised. */
  function PromptFor(subject: Subject): Option<string> {
    match subject
    case NoTumorShown => Some(NoTumorPrompt)
    case TumorNamed(name) => Some(TumorPrompt(name))
    case SplitFailed => None
  }

  /** The model's reply, or the fixed text when it raised. */
  function Explanation(reply: Option<string>): string {
    if reply.Some? then reply.value else ExplanationFallback
  }

  /** What `predict_tumor` returns, or the exception it raises. */
  datatype Prediction =
    | Predicted(result: string, confidence: real, explanation: string)
    | PredictionFailed

  /** `predict_tumor` for the network's scores; `ask` is the language model,
      None when it raises. The label lookup needs a best index that names a
      class. */
  function PredictTumor(scores: seq<real>, ask: string -> Option<string>): Prediction
    requires |scores| > 0 && ArgMax(scores) < |ClassLabels|
  {
    var result := ResultText(ArgMax(scores));
    match PromptFor(SubjectOf(result))
    case None => PredictionFailed
    case Some(prompt) => Predicted(result, Max(scores), Explanation(ask(prompt)))
  }

  /** A prediction never fails: it reports the best-scoring class with
      its score. */
  lemma {:induction false} PredictTumorReportsBest(scores: seq<real>, ask: string -> Option<string>)
    requires |scores| > 0 && ArgMax(scores) < |ClassLabels|
    ensures PredictTumor(scores, ask).Predicted?
    ensures PredictTumor(scores, ask).result == ResultText(ArgMax(scores))
    ensures PredictTumor(scores, ask).confidence == scores[ArgMax(scores)]
    ensures forall j :: 0 <= j < |scores| ==> scores[j] <= PredictTumor(scores, ask).confidence
  {
    var i: ClassIndex := ArgMax(scores);
    var r := ResultText(i);
    SubjectRoundTrip(i);
    ConfidenceOfChosenClass(scores);
    var prompt := PromptFor(SubjectOf(r));
    assert prompt.Some?;
    assert PredictTumor(scores, ask) == Predicted(r, Max(scores), Explanation(ask(prompt.value)));
  }

  /** The explanation answers the prompt about the class reported: the
      fixed prompt for `notumor`, the prompt naming the tumour otherwise. */
  lemma {:induction false} PredictTumorAsksAboutResult(scores: seq<real>, ask: string -> Option<string>)
    requires |scores| > 0 && ArgMax(scores) < |ClassLabels|
    ensures PredictTumor(scores, ask).Predicted?
    ensures ClassLabels[ArgMax(scores)] == "notumor" ==>
      PredictTumor(scores, ask).explanation == Explanation(ask(NoTumorPrompt))
    ensures ClassLabels[ArgMax(scores)] != "notumor" ==>
      PredictTumor(scores, ask).explanation == Explanation(ask(TumorPrompt(Capitalize(ClassLabels[ArgMax(scores)]))))
  {
    var i: ClassIndex := ArgMax(scores);
    var prompt := if ClassLabels[i] == "notumor" then NoTumorPrompt else TumorPrompt(Capitalize(ClassLabels[i]));
    PromptOfClass(i);
    assert PredictTumor(scores, ask) == Predicted(ResultText(i), Max(scores), Explanation(ask(prompt)));
  }

  /** The prompt chosen for the result text of a class. */
  lemma PromptOfClass(i: ClassIndex)
    ensures PromptFor(SubjectOf(ResultText(i))) ==
      Some(if ClassLabels[i] == "notumor" then NoTumorPrompt else TumorPrompt(Capitalize(ClassLabels[i])))
  {
    SubjectRoundTrip(i);
  }

  /** An uploaded file: Werkzeug's FileStorage is falsy when its filename is empty. */
  datatype Upload = Upload(filename: string)

  datatype BrainRequest =
    | GetRequest
    | PostRequest(file: Option<Upload>)   // None when the form has no 'file' part

  /** What the network makes of the saved image: its scores (four, for the
      trained network), or an exception (an unreadable image). */
  datatype Scan = Unreadable | Scores(scores: seq<real>)

  datatype BrainAnswer =
    | Running
    | NoFile
    | Analysed(savedAt: string, result: string, confidence: real, filePath: string, explanation: string)
    | Crashed

  function Status(a: BrainAnswer): nat {
    match a
    case Running => 200
    case NoFile => 400
    case Analysed(_, _, _, _, _) => 200
    case Crashed => 500
  }

  /** The JSON body of the answers whose text is fixed. */
  function FixedBody(a: BrainAnswer): Value
    requires a.Running? || a.NoFile?
  {
    if a.Running? then Obj(map["message" := Str("Brain Tumor Detection API is running. POST an image to analyze.")])
    else Obj(map["error" := Str("No file provided")])
  }

  /** The JSON body of an analysis. The confidence is sent as text, the
      score times 100 with two decimals and a percent sign; that rendering
      is the parameter `confidenceText`. */
  function AnalysedBody(a: BrainAnswer, confidenceText: string): (body: Value)
    requires a.Analysed?
    ensures body.Obj? && body.fields.Keys == {"result", "confidence", "file_path", "explanation"}
    ensures body.fields["result"] == Str(a.result) && body.fields["explanation"] == Str(a.explanation)
    ensures body.fields["file_path"] == Str(a.filePath) && body.fields["confidence"] == Str(confidenceText)
  {
    Obj(map["result" := Str(a.result), "confidence" := Str(confidenceText),
            "file_path" := Str(a.filePath), "explanation" := Str(a.explanation)])
  }

  const UploadFolder: string := "./uploads"

  /** `os.path.join(UPLOAD_FOLDER, filename)`: an absolute name replaces the
      folder, any other name is appended after a slash. */
  function PathJoin(folder: string, name: string): string {
    if StartsWith(name, "/") then name
    else if folder == [] || EndsWith(folder, "/") then folder + name
    else folder + "/" + name
  }

  /** `index`, given how the network reads the saved file and the language model. */
  function Index(request: BrainRequest, scan: string -> Scan, ask: string -> Option<string>): BrainAnswer {
    match request
    case GetRequest => Running
    case PostRequest(file) =>
      if file.None? || file.value.filename == "" then NoFile
      else
        var location := PathJoin(UploadFolder, file.value.filename);
        Answer(location, file.value.filename, Predict(scan(location), ask))
  }

  /** `predict_tumor` on the saved file: a scan that raises, or a best index
      naming no class, raises too. */
  function Predict(s: Scan, ask: string -> Option<string>): Prediction {
    match s
    case Unreadable => PredictionFailed
    case Scores(scores) =>
      if |scores| == 0 || ArgMax(scores) >= |ClassLabels| then PredictionFailed
      else PredictTumor(scores, ask)
  }

  /** The answer for the file saved at `location`: an exception is a crash (500). */
  function Answer(location: string, filename: string, p: Prediction): BrainAnswer {
    match p
    case PredictionFailed => Crashed
    case Predicted(result, confidence, explanation) =>
      Analysed(location, result, confidence, "/uploads/" + filename, explanation)
  }

  /** A GET gets the running message; a POST without a file, or with a file
      whose name is empty, gets the 400; a named file is saved in the upload
      folder and analysed. */
  lemma IndexBranches(request: BrainRequest, scan: string -> Scan, ask: string -> Option<string>)
    ensures request.GetRequest? ==> Index(request, scan, ask) == Running
    ensures request.PostRequest? ==>
      (Index(request, scan, ask) == NoFile <==> request.file.None? || request.file.value.filename == "")
    ensures Index(request, scan, ask).Analysed? ==>
      request.PostRequest? && request.file.Some? &&
      Index(request, scan, ask).filePath == "/uploads/" + request.file.value.filename
  {
  }

  /** A named upload whose scan names a class is answered with the
      prediction for those scores, saved under the upload folder. */
  lemma IndexAnalyses(name: string, scan: string -> Scan, ask: string -> Option<string>)
    requires name != ""
    requires var s := scan(PathJoin(UploadFolder, name));
      s.Scores? && |s.scores| > 0 && ArgMax(s.scores) < |ClassLabels|
    ensures var s := scan(PathJoin(UploadFolder, name));
      var a := Index(PostRequest(Some(Upload(name))), scan, ask);
      && a.Analysed?
      && a.savedAt == PathJoin(UploadFolder, name)
      && a.result == ResultText(ArgMax(s.scores))
      && a.confidence == s.scores[ArgMax(s.scores)]
  {
    var location := PathJoin(UploadFolder, name);
    var s := scan(location);
    var p := Predict(s, ask);
    assert Index(PostRequest(Some(Upload(name))), scan, ask) == Answer(location, name, p);
    assert p == PredictTumor(s.scores, ask);
    PredictTumorReportsBest(s.scores, ask);
  }

  /** The `file_path` returned names the file that was saved, seen from the
      service's directory, exactly when the filename is relative; an
      absolute filename is saved outside the upload folder. */
  lemma SavedWhereReported(name: string)
    ensures !StartsWith(name, "/") ==> PathJoin(UploadFolder, name) == "." + ("/uploads/" + name)
    ensures StartsWith(name, "/") ==> PathJoin(UploadFolder, name) == name
  {
    if !StartsWith(name, "/") {
      assert !EndsWith(UploadFolder, "/") by {
        assert UploadFolder[|UploadFolder| - 1..] == "s";
      }
    }
  }
}
