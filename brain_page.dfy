/** The brain-scan page (client/src/components/Brain.js): choosing or
    dropping an image, submitting it, and clearing it. The object URL of the
    preview is made by the browser; it is a parameter here. */
module BrainPage {
  import opened Json
  import opened Text
  import BrainServer

  /** A file picked in the browser, with its MIME type. */
  datatype ImageFile = ImageFile(name: string, mimeType: string)

  /** `file.type.match('image.*')`: the pattern is not anchored and `.*`
      matches the empty text, so it holds when "image" occurs anywhere in
      the type. */
  predicate IsImage(f: ImageFile) {
    Contains(f.mimeType, "image")
  }

  /** A text without some character of `sub` does not contain `sub`. */
  lemma {:induction false} NotContainedWithoutChar(s: string, sub: string, k: nat)
    requires k < |sub|
    requires forall j :: 0 <= j < |s| ==> s[j] != sub[k]
    ensures !Contains(s, sub)
    decreases |s|
  {
    if |sub| <= |s| {
      assert s[..|sub|][k] != sub[k];
    }
    if s != [] {
      NotContainedWithoutChar(s[1..], sub, k);
    }
  }

  /** The pattern accepts the usual image types. */
  lemma ImageTypesAccepted()
    ensures IsImage(ImageFile("scan.png", "image/png"))
    ensures IsImage(ImageFile("scan.jpg", "image/jpeg"))
  {
    assert StartsWith("image/png", "image");
    assert StartsWith("image/jpeg", "image");
  }

  /** The pattern rejects other types and a file without a type. */
  lemma OtherTypesRejected()
    ensures !IsImage(ImageFile("notes.pdf", "application/pdf"))
    ensures !IsImage(ImageFile("scan", ""))
  {
    NotContainedWithoutChar("application/pdf", "image", 3);
  }

  /** Not being anchored, the pattern also accepts a type that merely
      contains "image". */
  lemma LooseMatchAccepted()
    ensures IsImage(ImageFile("list.txt", "text/x-imagelist"))
  {
    assert OccursAt("text/x-imagelist", "image", 7);
    ContainsAt("text/x-imagelist", "image");
  }

  /** The result card: the three fields of the reply (Null when absent). */
  datatype Diagnosis = Diagnosis(diagnosis: Value, confidence: Value, explanation: Value)

  /** What `await response.json()` and the three property reads make of a
      reply; None when one of them throws (a body that is not JSON, or the
      JSON `null`). The status is not looked at. */
  function Reading(body: Body): (r: Option<Diagnosis>)
    ensures r.None? <==> body.Malformed? || body.json.Null?
    ensures r.Some? ==> r.value == Diagnosis(Member(body.json, "result"), Member(body.json, "confidence"), Member(body.json, "explanation"))
  {
    if body.Malformed? || body.json.Null? then None
    else Some(Diagnosis(Member(body.json, "result"), Member(body.json, "confidence"), Member(body.json, "explanation")))
  }

  /** An analysis from the service is shown as it was sent. */
  lemma ReadingOfAnalysis(a: BrainServer.BrainAnswer, confidenceText: string)
    requires a.Analysed?
    ensures Reading(Parsed(BrainServer.AnalysedBody(a, confidenceText))) ==
      Some(Diagnosis(Str(a.result), Str(confidenceText), Str(a.explanation)))
  {
  }

  /** The service's 400 reply is not recognised as an error: the page shows
      a result card whose three fields are all absent. */
  lemma ReadingOfNoFile()
    ensures Reading(Parsed(BrainServer.FixedBody(BrainServer.NoFile))) == Some(Diagnosis(Null, Null, Null))
  {
  }

  const NoTumorHeading: string := "No Tumor Detected"

  /** The heading of the result card for a diagnosis text. */
  function Heading(diagnosis: string): (h: string)
    ensures diagnosis == BrainServer.NoTumorResult ==> h == NoTumorHeading
    ensures diagnosis != BrainServer.NoTumorResult ==> h == diagnosis + " Detected"
  {
    if diagnosis == BrainServer.NoTumorResult then NoTumorHeading else diagnosis + " Detected"
  }

  /** Over the service's result texts the no-tumour heading shows exactly
      for the `notumor` class; a tumour class shows its name. */
  lemma HeadingOfServiceResult(i: BrainServer.ClassIndex)
    ensures Heading(BrainServer.ResultText(i)) == NoTumorHeading <==> BrainServer.ClassLabels[i] == "notumor"
    ensures BrainServer.ClassLabels[i] != "notumor" ==>
      Heading(BrainServer.ResultText(i)) == "Tumor: " + Capitalize(BrainServer.ClassLabels[i]) + " Detected"
  {
    if BrainServer.ClassLabels[i] != "notumor" {
      TumorHeading(Capitalize(BrainServer.ClassLabels[i]));
    }
  }

  /** A tumour text keeps its name in the heading, which is never the
      no-tumour heading. */
  lemma TumorHeading(name: string)
    ensures Heading("Tumor: " + name) == "Tumor: " + name + " Detected"
    ensures Heading("Tumor: " + name) != NoTumorHeading
  {
    var r := "Tumor: " + name;
    assert r[1] == 'u' && BrainServer.NoTumorResult[1] == 'o';
    assert (r + " Detected")[1] == 'u' && NoTumorHeading[1] == 'o';
  }

  const FileTypeError: string := "Please select an image file"
  const DropTypeError: string := "Please drop an image file"
  const NoFileError: string := "Please select an image to analyze"
  const AnalysisError: string := "Error analyzing image. Please try again."

  class BrainTumorDetection {
    var selectedFile: Option<ImageFile>
    var preview: Option<string>
    var isLoading: bool
    var result: Option<Diagnosis>
    var errorMessage: string

    constructor ()
      ensures selectedFile == None && preview == None && !isLoading && result == None && errorMessage == ""
    {
      selectedFile := None;
      preview := None;
      isLoading := false;
      result := None;
      errorMessage := "";
    }

    /** The submit button is disabled with no file chosen or a request
        under way. */
    predicate SubmitDisabled()
      reads this
    {
      selectedFile.None? || isLoading
    }

    /** Taking a file: it is selected and previewed, and the error and the
        old result are cleared. */
    method Accept(file: ImageFile, url: string)
      modifies this
      ensures selectedFile == Some(file) && preview == Some(url)
      ensures errorMessage == "" && result == None && isLoading == old(isLoading)
    {
      selectedFile := Some(file);
      preview := Some(url);
      errorMessage := "";
      result := None;
    }

    /** `handleFileChange`: no file changes nothing; a file that is not an
        image only sets the error; an image is taken. */
    method HandleFileChange(file: Option<ImageFile>, url: string)
      modifies this
      ensures file.None? ==>
        selectedFile == old(selectedFile) && preview == old(preview) && result == old(result) && errorMessage == old(errorMessage)
      ensures file.Some? && !IsImage(file.value) ==>
        selectedFile == old(selectedFile) && preview == old(preview) && result == old(result) && errorMessage == FileTypeError
      ensures file.Some? && IsImage(file.value) ==>
        selectedFile == file && preview == Some(url) && result == None && errorMessage == ""
      ensures isLoading == old(isLoading)
    {
      if file.Some? {
        if !IsImage(file.value) {
          errorMessage := FileTypeError;
          return;
        }
        Accept(file.value, url);
      }
    }

    /** `handleDrop`: an image is taken; anything else, or nothing, only
        sets the error and keeps an earlier selection. */
    method HandleDrop(file: Option<ImageFile>, url: string)
      modifies this
      ensures file.Some? && IsImage(file.value) ==>
        selectedFile == file && preview == Some(url) && result == None && errorMessage == ""
      ensures !(file.Some? && IsImage(file.value)) ==>
        selectedFile == old(selectedFile) && preview == old(preview) && result == old(result) && errorMessage == DropTypeError
      ensures isLoading == old(isLoading)
    {
      if file.Some? && IsImage(file.value) {
        Accept(file.value, url);
      } else {
        errorMessage := DropTypeError;
      }
    }

    /** `handleSubmit`, given how the request went. Without a file only the
        error is set and nothing is sent. Otherwise the file is sent; a reply
        that reads becomes the result, whatever its status, and leaves the
        error as it was; a failure sets the error and keeps the result.
        Loading ends false. */
    method HandleSubmit(outcome: Fetched) returns (sent: Option<ImageFile>)
      modifies this
      ensures sent == old(selectedFile)
      ensures selectedFile == old(selectedFile) && preview == old(preview)
      ensures old(selectedFile).None? ==>
        errorMessage == NoFileError && result == old(result) && isLoading == old(isLoading)
      ensures old(selectedFile).Some? ==> !isLoading
      ensures old(selectedFile).Some? && outcome.Responded? && Reading(outcome.body).Some? ==>
        result == Reading(outcome.body) && errorMessage == old(errorMessage)
      ensures old(selectedFile).Some? && (outcome.NetworkError? || Reading(outcome.body).None?) ==>
        result == old(result) && errorMessage == AnalysisError
    {
      sent := selectedFile;
      if selectedFile.None? {
        errorMessage := NoFileError;
        return;
      }
      isLoading := true;
      match outcome {
        case NetworkError(_) =>
          errorMessage := AnalysisError;
        case Responded(_, body) =>
          var reading := Reading(body);
          if reading.None? {
            errorMessage := AnalysisError;
          } else {
            result := reading;
          }
      }
      isLoading := false;
    }

    /** `resetImage`: the preview, the file, the result and the error are
        cleared. */
    method ResetImage()
      modifies this
      ensures preview == None && selectedFile == None && result == None && errorMessage == ""
      ensures isLoading == old(isLoading)
    {
      preview := None;
      selectedFile := None;
      result := None;
      errorMessage := "";
    }
  }

  /** The submit button after a submission with a file is enabled, and
      after a submission without one stays disabled. */
  method SubmitThenButton(page: BrainTumorDetection, outcome: Fetched) returns (disabled: bool)
    modifies page
    ensures page.selectedFile == old(page.selectedFile)
    ensures disabled <==> old(page.selectedFile).None?
  {
    var _ := page.HandleSubmit(outcome);
    disabled := page.SubmitDisabled();
  }
}
