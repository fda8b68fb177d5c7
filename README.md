# A verified model of a medical screening web application

The application is a React front end with three Flask services.

- **Lung cancer risk.** A form of fifteen answers is posted to a service. The service checks for the required fields, recodes the answers, runs a small neural network and answers YES or NO with a probability. The page shows this as a risk level.
- **Thyroid.** One page posts sixteen laboratory fields as typed. The service turns each into a number or a missing value, classifies the row, and adds an explanation and a diet, with a fixed diet as the fallback. A second page is a survey of eight symptom sliders. A random forest on the same service decides whether testing is advised.
- **Brain.** A page uploads an MRI image. The service saves it, picks the class with the highest score, and asks a language model to explain the result.
- **Shell and directory.** The application shell checks the stored session token and guards every page behind it. A directory page filters a fixed list of hospitals by specialty.

These parts are modelled without their networks and models:

- the neural network, the random forest and the Keras network;
- the Gemini language model;
- `fetch`, the browser and the file system.

Everything those parts produce is a parameter of the model:

- a fetch outcome (`Json.Fetched`);
- the network's scores or probability;
- a language model reply, `None` when the call raises;
- a classifier result.

Python dictionaries and JavaScript objects are `map<string, Value>`, where `Value` is a JSON value. The one dictionary the lung service changes in place is a `Json.Dict` object. Each React component is a class with one field per `useState` variable. Each handler is a method that states the component's whole new state.

Notable behaviour the proofs make explicit:

- The lung page's "No" radio value is 1. The service reads every non-string truthy value as yes, so 1 and 2 both become 2, "yes" (`LungForm.RadioValuesBothReadAsYes`).
- The brain page does not look at the status. The service's 400 "No file provided" reply is shown as a result card with empty fields (`BrainPage.ReadingOfNoFile`).
- The brain page's image check `type.match('image.*')` is not anchored. It accepts any type containing "image" (`BrainPage.LooseMatchAccepted`).
- An uploaded file's name is used as sent. An absolute name is saved outside the upload folder, and the reported `file_path` then names a different file (`BrainServer.SavedWhereReported`).
- The lung service's `load_model` assigns the global model before it reads the weights. A failed read therefore leaves an untrained model, and later requests are answered by it (`LungServer.LoadModel`).

## Model

| member | source | states |
|---|---|---|
| Text.Capitalize | server/brain.py:63 | Python `str.capitalize`: first character upper case, rest lower case (ASCII) |
| Text.PyStrip | server/thyroid.py:94 | Python `strip`: the result neither begins nor ends with whitespace |
| Text.PyLStrip | server/thyroid.py:94 | `lstrip`: a suffix of the text that does not begin with whitespace |
| Text.PyRStrip | server/thyroid.py:94 | `rstrip`: a prefix of the text that does not end with whitespace |
| Text.PyLStripDropsWhitespace | server/thyroid.py:94 | `lstrip` removes only whitespace |
| Text.PyRStripDropsWhitespace | server/thyroid.py:94 | `rstrip` removes only whitespace |
| Text.StripAround | server/thyroid.py:94 | stripping a text wrapped in whitespace gives back the stripped core |
| Text.Split | server/brain.py:39 | `str.split(sep)` always yields at least one piece |
| Text.JoinSplit | server/brain.py:39 | joining the pieces of `s.split(sep)` with `sep` gives back `s` |
| Text.SplitWithoutSeparator | server/brain.py:39 | a text without the separator splits into itself alone |
| Text.SplitAfterHead | server/brain.py:39 | `(a + sep + b).split(sep)` is `[a]` followed by the pieces of `b` when `a` has no separator |
| Text.ContainsAt | client/src/components/Brain.js:15 | substring search holds exactly when the text occurs at some index |
| Text.DigitsOfNatToString | client/src/components/Lung.js:59 | the decimal text of a number reads back as that number |
| Text.DigitRunOfDigits | server/thyroid.py:132 | the leading run of digits stops at the first non-digit |
| Json.Member | client/src/components/Thyroid.js:57-63 | JavaScript property read: the field when present, undefined otherwise |
| Json.Get | server/thyroid.py:252-259 | Python `dict.get` with a default |
| Json.TruthinessDiffersOnlyOnEmptyContainers | server/lung.py:111 | JavaScript and Python truthiness differ exactly on `[]` and `{}` |
| LungServer.GroupAge | server/lung.py:70-88 | age band 0 below 10, 8 from 80, else the tens digit; never above 8 |
| LungServer.GroupAgeMonotone | server/lung.py:70-88 | an older age never gets a lower band |
| LungServer.RequiredAreGenderAgeAndBinary | server/lung.py:163-166 | the required fields are GENDER, AGE and the thirteen yes/no fields |
| LungServer.BinaryFieldsDistinct | server/lung.py:99-102 | the yes/no fields are distinct |
| LungServer.FirstMissing | server/lung.py:168-170 | none exactly when every listed field is present; otherwise the first absent one in list order |
| LungServer.FindMissingField | server/lung.py:168-170 | the loop over the required fields returns the first missing one |
| LungServer.BinaryCode | server/lung.py:104-111 | a text is 2 exactly when its upper case is YES, Y, TRUE, 1 or 2; any other value is 2 exactly when truthy; always 1 or 2 |
| LungServer.Preprocessed | server/lung.py:90-116 | `preprocess_input`: with PreprocessedRaises and PreprocessedSucceeds it raises exactly on a non-text GENDER or an AGE not comparable with 10; otherwise the Preprocessed* lemmas give each field's new value and the keys |
| LungServer.PreprocessedRaises | server/lung.py:95-116 | preprocessing raises exactly when GENDER is not text, or AGE is not comparable to a number |
| LungServer.PreprocessedSucceeds | server/lung.py:95-116 | text GENDER and a numeric AGE preprocess without error |
| LungServer.PreprocessedUnfolds | server/lung.py:95-116 | a completed preprocessing is gender code, then yes/no codes, then the age band |
| LungServer.PreprocessedGender | server/lung.py:95-96 | GENDER becomes 1 for "M" in any case, else 0 |
| LungServer.PreprocessedBinary | server/lung.py:104-111 | every present yes/no field holds its code |
| LungServer.PreprocessedAge | server/lung.py:114-116 | AGE is replaced by `age_group` holding its band |
| LungServer.PreprocessedKeys | server/lung.py:114-116 | the keys are the input's, with AGE swapped for `age_group` |
| LungServer.PreprocessedOthers | server/lung.py:90-116 | every other key keeps its value |
| LungServer.WithOneMoreBinaryCode | server/lung.py:104-111 | one more loop round recodes one more field |
| LungServer.PreprocessInPlace | server/lung.py:90-116 | the in-place loop leaves the dictionary as `Preprocessed` says, or raises its error with the recodings made before it |
| LungServer.LoadModel | server/lung.py:132-148 | the global is set before the weights load; success means a model; a trained model only from loaded weights |
| LungServer.Decide | server/lung.py:178-184 | NaN counts as 0.5; YES exactly when the probability exceeds 0.5 |
| LungServer.Respond | server/lung.py:160-194 | the answer to a request with a loaded model: by MissingFieldResponse a 400 exactly when a field is missing, naming the first; by Decide a YES exactly above one half |
| LungServer.MissingFieldResponse | server/lung.py:162-170 | a 400 exactly when a required field is missing, whose error text names the first one |
| LungServer.LungService.Predict | server/lung.py:150-194 | a failed lazy load is a 500 "Model could not be loaded" that changes nothing; otherwise the answer is `Respond` for the request, and the dictionary ends as PreprocessInPlace leaves it on every path, including the partial recoding when AGE raises |
| LungForm.JsTrimStart | client/src/components/Lung.js:31 | the result is a suffix of the text that does not begin with JavaScript whitespace |
| LungForm.ParseInt | client/src/components/Lung.js:31 | `parseInt` in base ten: by ParseIntOfNumeral and ParseIntOfNegativeNumeral a numeral, signed or not, before a non-digit reads as its value; by ParseIntWithoutDigits no leading digit is NaN |
| LungForm.JsTrimStartDropsWhitespace | client/src/components/Lung.js:31 | `trimStart` removes only whitespace |
| LungForm.ParseIntOfNumeral | client/src/components/Lung.js:31-39 | `parseInt` of a numeral followed by a non-digit is that number |
| LungForm.ParseIntOfNegativeNumeral | client/src/components/Lung.js:31 | `parseInt` of a signed numeral is its negation |
| LungForm.ParseIntWithoutDigits | client/src/components/Lung.js:31 | `parseInt` of a text without digits is NaN |
| LungForm.InitialFormIsComplete | client/src/components/Lung.js:5-21 | the initial form has exactly the service's required fields, nothing is missing, and every radio is set |
| LungForm.InitialFormPreprocesses | client/src/components/Lung.js:5-21 | the initial form preprocesses without raising |
| LungForm.InitialBinaryField | client/src/components/Lung.js:8-20 | every yes/no field starts at 1 |
| LungForm.RadioValuesBothReadAsYes | client/src/components/Lung.js:140-156 | the service reads both radio values 1 ("No") and 2 ("Yes") as yes |
| LungForm.RadiosAllReadAsYes | client/src/components/Lung.js:140-156 | whatever the radios show, every yes/no field reaches the network as 2 |
| LungForm.InitialDemographicsPreprocessed | client/src/components/Lung.js:6-7 | the initial M and 30 become gender 1 and age band 3 |
| LungForm.RiskLevel | client/src/components/Lung.js:73-77 | Low exactly below 0.3, High exactly from 0.6 |
| LungForm.ProgressBarMatchesRisk | client/src/components/Lung.js:288-290 | the progress bar's class follows the same bands |
| LungForm.RiskLevelMonotone | client/src/components/Lung.js:73-77 | a higher probability never shows a lower risk |
| LungForm.VerdictAgreesWithRisk | client/src/components/Lung.js:252 | a YES is never shown as Low, and High is always YES |
| LungForm.LungPage.HandleChange | client/src/components/Lung.js:27-33 | AGE stores `parseInt` of the input, other keys the text; nothing else changes |
| LungForm.LungPage.HandleBinaryChange | client/src/components/Lung.js:35-41 | stores `parseInt` of the radio value; radios stay set |
| LungForm.ParsedValue | client/src/components/Lung.js:39 | the form value after `parseInt`: the number, or null for NaN; by RadioTextsParse the radio texts "1" and "2" become 1 and 2 |
| LungForm.RadioChangeKeepsRadios | client/src/components/Lung.js:35-41 | storing the parsed text "1" or "2" keeps every yes/no field at 1 or 2 |
| LungForm.StatusMessage | client/src/components/Lung.js:59 | the thrown message: by DigitsOfNatToString the status in it is the decimal text that reads back as the status |
| LungForm.LungPage.HandleSubmit | client/src/components/Lung.js:43-70 | sends the form; an ok parsed reply becomes the prediction; every failure names its cause; loading ends false |
| ThyroidServer.ConvertValue | server/thyroid.py:128-134 | `convert_value`: by ConvertPlainValues numbers stay, booleans are 1 and 0, and "" and None are missing; by the Convert* lemmas below, texts go through `float` |
| ThyroidServer.ParseFloat | server/thyroid.py:132 | `float` of a text: by ConvertNumeral and ConvertDigitsWithFraction padded numerals and whole.fraction literals read as their values; by ConvertWithoutDigits a text with no digit and no n raises |
| ThyroidServer.ConvertPlainValues | server/thyroid.py:128-134 | numbers stay, booleans become 1 or 0, empty text and null are missing |
| ThyroidServer.ConvertNumeral | server/thyroid.py:128-134 | a numeral with surrounding whitespace converts to its value |
| ThyroidServer.ConvertDigitsWithFraction | server/thyroid.py:128-134 | digits, a point and digits convert to the whole digits' value plus the fraction digits' value shifted right by their count |
| ThyroidServer.UnsignedDecimalWithFraction | server/thyroid.py:132 | `float` of whole.fraction digits |
| ThyroidServer.ConvertWithoutDigits | server/thyroid.py:133-134 | a text with no digit and no n converts to missing |
| ThyroidServer.NotSpecialWithoutN | server/thyroid.py:132 | a word without n is not inf, infinity or nan |
| ThyroidServer.UnsignedDecimalOfNumeral | server/thyroid.py:132 | `float` of a numeral is its value |
| ThyroidServer.ConvertUnsignedLiteral | server/thyroid.py:132 | an unsigned literal of digits and a point converts to its decimal value |
| ThyroidServer.Features | server/thyroid.py:137-154 | the feature row has sixteen cells |
| ThyroidServer.FeatureCells | server/thyroid.py:137-154 | each cell converts the request value of its column, missing when absent |
| ThyroidServer.FeaturesIgnoreOtherKeys | server/thyroid.py:137-154 | only the sixteen columns matter |
| ThyroidServer.Unfenced | server/thyroid.py:94-98 | the cleaned diet reply: by UnfencedWithoutFences only stripped without fences, by UnfencedBlock the inside of a ```json block, and by UnfencedIsSlice always a slice of the stripped reply |
| ThyroidServer.CleanReply | server/thyroid.py:94-98 | the cleaning steps compute `Unfenced` |
| ThyroidServer.UnfencedWithoutFences | server/thyroid.py:94-98 | a reply without fences is only stripped |
| ThyroidServer.UnfencedBlock | server/thyroid.py:94-98 | a fenced JSON block yields the JSON inside |
| ThyroidServer.UnfencedIsSlice | server/thyroid.py:94-98 | the cleaned reply is a slice of the stripped reply |
| ThyroidServer.Food | server/thyroid.py:106-117 | an entry has exactly a text name and a text reason |
| ThyroidServer.FallbackDietShape | server/thyroid.py:104-119 | the fallback has include and avoid lists of five name/reason entries |
| ThyroidServer.DietRecommendations | server/thyroid.py:90-119 | the parsed cleaned reply, or the fallback when the model or the parse fails |
| ThyroidServer.SuccessBody | server/thyroid.py:168-173 | the success body's keys and values |
| ThyroidServer.FailureBody | server/thyroid.py:175-180 | the failure body's keys and values |
| ThyroidServer.PredictResponse | server/thyroid.py:121-180 | `predict`: by PredictResponseShape a 200 SuccessBody exactly when the classifier answers, and a 500 FailureBody with its message otherwise |
| ThyroidServer.PredictResponseShape | server/thyroid.py:121-180 | success exactly with status 200, exactly when the classifier answers; the failure is a 500 with its message |
| ThyroidServer.ExtractSymptoms | server/thyroid.py:251-260 | exactly the eight symptom keys |
| ThyroidServer.ExtractSymptomsValues | server/thyroid.py:251-260 | each present value is copied; an absent one is 0; nothing else matters |
| ThyroidServer.SymptomRowOfExtracted | server/thyroid.py:215-224 | each cell of the forest's row is the request value or 0 |
| ThyroidServer.Recommendation | server/thyroid.py:266-270 | one of the two fixed texts, the testing advice exactly when `needs_testing` is true |
| ThyroidServer.RecommendationByNeed | server/thyroid.py:266-270 | the text is determined by, and tells apart, `needs_testing` |
| ThyroidServer.AssessSymptoms | server/thyroid.py:239-277 | the answer is the forest's result plus its recommendation, or a 500 with the error |
| SymptomWizard.SymptomIdsMatchQuestions | client/src/components/TestForm.js:4-59 | the answer keys are the question ids, in order |
| SymptomWizard.WithPersonalField | client/src/components/TestForm.js:75-81 | the named field takes the text; the others keep theirs |
| SymptomWizard.PrevAfterNext | client/src/components/TestForm.js:134-144 | Previous undoes Next before the last question |
| SymptomWizard.NextAfterPrev | client/src/components/TestForm.js:134-144 | Next undoes Previous after the first step |
| SymptomWizard.NextTimesStopsAtLast | client/src/components/TestForm.js:134-138 | Next climbs one step per press and stops at the last question |
| SymptomWizard.SeverityText | client/src/components/TestForm.js:147-154 | always one of the five labels |
| SymptomWizard.SeverityTextIsBandLabel | client/src/components/TestForm.js:147-154 | the label is that of the value's band, each band closed at its top |
| SymptomWizard.SeverityMonotone | client/src/components/TestForm.js:147-154 | a larger value never gets a milder label |
| SymptomWizard.AssessBody | client/src/components/TestForm.js:94-97 | every answer as its slider value, plus `personalInfo` |
| SymptomWizard.SampleBody | client/src/components/TestForm.js:94-97 | the body of a sample submission |
| SymptomWizard.ScreenFor | client/src/components/TestForm.js:221-367 | results win; step 0 is the personal form; step k shows question k and its severity, and submits only on the last |
| SymptomWizard.EachQuestionOnOneStep | client/src/components/TestForm.js:299-301 | no question is shown on two steps |
| SymptomWizard.QuestionOrderMatchesService | client/src/components/TestForm.js:50-59 | the survey's keys are the service's symptom keys, in its order |
| SymptomWizard.ServiceReadsSubmittedSliders | client/src/components/TestForm.js:94-97 | the service extracts exactly the eight submitted slider values and ignores `personalInfo` |
| SymptomWizard.Wizard.HandleSymptomChange | client/src/components/TestForm.js:68-73 | one answer changes; nothing else |
| SymptomWizard.Wizard.HandlePersonalInfoChange | client/src/components/TestForm.js:75-81 | one personal field changes; nothing else |
| SymptomWizard.Wizard.NextStep | client/src/components/TestForm.js:134-138 | forward one step, not past the last question |
| SymptomWizard.Wizard.PrevStep | client/src/components/TestForm.js:140-144 | back one step, not before the first |
| SymptomWizard.Wizard.ResetForm | client/src/components/TestForm.js:114-132 | results cleared, step 0, answers and personal information as at the start |
| SymptomWizard.Wizard.HandleSubmit | client/src/components/TestForm.js:83-112 | posts the body; an ok parsed reply becomes the results, anything else alerts; loading ends false |
| BrainServer.ArgMax | server/brain.py:57 | the first index of a largest score |
| BrainServer.Max | server/brain.py:58 | a score that no other exceeds |
| BrainServer.ConfidenceOfChosenClass | server/brain.py:57-58 | the confidence is the chosen class's score |
| BrainServer.ResultText | server/brain.py:60-63 | the result text: by NoTumorExactlyForNotumor "No Tumor" exactly for notumor, and by SubjectRoundTrip it names its class |
| BrainServer.NoTumorExactlyForNotumor | server/brain.py:60-63 | "No Tumor" exactly for `notumor`; other classes read "Tumor: " and a name |
| BrainServer.LabelsAreLowerCase | server/brain.py:17 | every class label is lower-case letters |
| BrainServer.SubjectOf | server/brain.py:35-39 | the subject of `get_explanation`: by SubjectOfAnyLabel and SubjectRoundTrip the split of any result text recovers its label and never fails |
| BrainServer.SubjectOfAnyLabel | server/brain.py:39-63 | splitting "Tumor: " plus a capitalised label gives the label back |
| BrainServer.SubjectRoundTrip | server/brain.py:34-63 | the explanation is asked about the class predicted, and the split never fails on a result text |
| BrainServer.PromptFor | server/brain.py:34-40 | the prompt: by PromptOfClass the fixed one for notumor and the tumour prompt naming the class otherwise |
| BrainServer.PredictTumor | server/brain.py:50-68 | `predict_tumor`: by PredictTumorReportsBest the ArgMax class with the Max score, and by PredictTumorAsksAboutResult the explanation answers that class's prompt |
| BrainServer.PromptOfClass | server/brain.py:34-63 | the prompt for a class's result text is the fixed one for `notumor` and names the capitalised tumour otherwise |
| BrainServer.PredictTumorReportsBest | server/brain.py:50-65 | a prediction always completes, with the best class and its score |
| BrainServer.PredictTumorAsksAboutResult | server/brain.py:34-65 | the explanation answers the prompt for that class, or is the fixed fallback |
| BrainServer.AnalysedBody | server/brain.py:91-96 | the analysis body's keys and values |
| BrainServer.Index | server/brain.py:71-96 | `index`: by IndexBranches and IndexAnalyses GET is the running message, a POST without a named file the 400, and an upload is saved and answered with the best class |
| BrainServer.IndexBranches | server/brain.py:71-96 | GET is the running message; a POST without a named file is the 400; an analysis reports `/uploads/` and the file name |
| BrainServer.IndexAnalyses | server/brain.py:77-96 | a named file is saved under the upload folder and answered with the best class and its score |
| BrainServer.PathJoin | server/brain.py:79 | `os.path.join`: by SavedWhereReported a relative name is saved at "./uploads/" plus the name, the reported path with a leading dot, and an absolute name replaces the folder |
| BrainServer.SavedWhereReported | server/brain.py:79-89 | the reported path names the saved file exactly when the name is relative |
| BrainPage.IsImage | client/src/components/Brain.js:15 | `file.type.match('image.*')`: by ImageTypesAccepted, OtherTypesRejected and LooseMatchAccepted image types match, others not, and any type containing "image" matches |
| BrainPage.NotContainedWithoutChar | client/src/components/Brain.js:15 | a type lacking a character of "image" does not match |
| BrainPage.ImageTypesAccepted | client/src/components/Brain.js:15 | image/png and image/jpeg match |
| BrainPage.OtherTypesRejected | client/src/components/Brain.js:15 | application/pdf and an empty type do not |
| BrainPage.LooseMatchAccepted | client/src/components/Brain.js:15 | a type merely containing "image" matches |
| BrainPage.Reading | client/src/components/Brain.js:73-79 | the three fields of any readable reply; a failure only for an unreadable body or null |
| BrainPage.ReadingOfAnalysis | client/src/components/Brain.js:75-79 | an analysis is shown as the service sent it |
| BrainPage.ReadingOfNoFile | client/src/components/Brain.js:73-79 | the 400 reply becomes a result with absent fields |
| BrainPage.Heading | client/src/components/Brain.js:177 | "No Tumor Detected" for "No Tumor", else the diagnosis and " Detected" |
| BrainPage.HeadingOfServiceResult | client/src/components/Brain.js:175-177 | over the service's results the no-tumour heading shows exactly for `notumor` |
| BrainPage.TumorHeading | client/src/components/Brain.js:175-177 | a tumour result keeps its name in the heading, which is never the no-tumour heading |
| BrainPage.BrainTumorDetection.Accept | client/src/components/Brain.js:19-22 | the file is selected and previewed, the error is empty and the result cleared, loading kept |
| BrainPage.BrainTumorDetection.HandleFileChange | client/src/components/Brain.js:12-24 | no file: nothing; a non-image: only the error; an image: selected, previewed, error and result cleared |
| BrainPage.BrainTumorDetection.HandleDrop | client/src/components/Brain.js:36-49 | an image is taken; anything else only sets the error and keeps the selection |
| BrainPage.BrainTumorDetection.HandleSubmit | client/src/components/Brain.js:55-86 | without a file only the error, no request and no loading; else a readable reply is the result and a failure the error; loading ends false |
| BrainPage.BrainTumorDetection.ResetImage | client/src/components/Brain.js:88-95 | preview, file, result and error cleared |
| BrainPage.SubmitThenButton | client/src/components/Brain.js:159 | after a submission the button is disabled exactly when no file is chosen |
| ThyroidPage.InitialFormMatchesService | client/src/components/Thyroid.js:4-21 | the sixteen empty fields are the service's columns, in order, and all reach it as missing |
| ThyroidPage.Settled | client/src/components/Thyroid.js:55-66 | success shows the three fields; otherwise the error or the fixed text; an unreadable reply the connection error |
| ThyroidPage.SettledOnSuccess | client/src/components/Thyroid.js:57-60 | a service success shows its class, explanation and diet |
| ThyroidPage.SettledOnFailure | client/src/components/Thyroid.js:61-63 | a service failure shows its message, or the fixed text for an empty one |
| ThyroidPage.ThyroidApp.HandleChange | client/src/components/Thyroid.js:29-36 | the raw text under the name; nothing else changes |
| ThyroidPage.ThyroidApp.HandleSubmit | client/src/components/Thyroid.js:38-70 | everything cleared, the form sent, the panel is `Settled` of the reply or the connection error; loading ends false |
| HospitalDirectory.FilterBySpecialty | client/src/components/Doctor.js:59 | never longer than the list |
| HospitalDirectory.FilterMembers | client/src/components/Doctor.js:59 | exactly the hospitals with the specialty |
| HospitalDirectory.FilterIsSubsequence | client/src/components/Doctor.js:59 | the filter keeps the list's order |
| HospitalDirectory.FilteredHospitals | client/src/components/Doctor.js:57-59 | `filteredHospitals`: by FilteredHospitalsMeaning the whole list for 'all', else exactly the hospitals with that specialty in order; by FilterOverTheData the ids per button |
| HospitalDirectory.FilteredHospitalsMeaning | client/src/components/Doctor.js:57-59 | 'all' is the whole list; anything else exactly the hospitals with it, in order |
| HospitalDirectory.FilterOverTheData | client/src/components/Doctor.js:8-59 | thyroid lists 1, 4 and 5; lung 1, 3 and 5; brain 2 and 5 |
| HospitalDirectory.FullStars | client/src/components/Doctor.js:63 | the floor of the rating |
| HospitalDirectory.HasHalfStar | client/src/components/Doctor.js:64 | exactly when the fractional part is at least one half |
| HospitalDirectory.StarsApproximateRating | client/src/components/Doctor.js:62-74 | the stars never overstate the rating and miss it by less than half a star |
| HospitalDirectory.StarsOverTheData | client/src/components/Doctor.js:15-64 | four full stars each, and a half star for all but hospital 3 |
| HospitalDirectory.SpecialtyTag | client/src/components/Doctor.js:120 | same length, first character upper case, rest kept |
| HospitalDirectory.NoResultsMeaning | client/src/components/Doctor.js:138-142 | the message shows exactly when no hospital offers the selection, so never for a button |
| AppShell.Route | client/src/App.js:61-104 | the shell's view: by ProtectedRoutes, PublicAndUnknownRoutes and SessionGuard the session decides between page and redirect, and by RedirectsLand every redirect target renders |
| AppShell.ProtectedScreen | client/src/App.js:75-102 | a page exactly for the seven protected paths |
| AppShell.ProtectedRoutes | client/src/App.js:75-102 | a protected path renders exactly with a session, else redirects to /login |
| AppShell.PublicAndUnknownRoutes | client/src/App.js:79-103 | /login and /signup show only without a session, else go to /; other paths go to / or /login |
| AppShell.SessionGuard | client/src/App.js:74-104 | without a session only login and signup render; with one, never they |
| AppShell.RedirectsLand | client/src/App.js:74-104 | every redirect lands on a page that renders |
| AppShell.App.CheckAuthStatus | client/src/App.js:22-44 | no token sends nothing; an ok reply signs in; a non-ok one removes the token; other failures change nothing; loading ends false |
| AppShell.App.Login | client/src/App.js:49-53 | the token stored, the user set, signed in |
| AppShell.App.Logout | client/src/App.js:55-59 | the token removed, no user, signed out |
| AppShell.LoginThenLogout | client/src/App.js:49-59 | login then logout leaves no token, and protected pages redirect to /login |
| AppShell.StartWithoutToken | client/src/App.js:22-68 | a start without a token ends on the login page |

## Left out

- The neural network, the random forest, the Keras network and the Gemini model are not modelled. Their results are parameters, and NaN is a separate case of the probability.
- Flask, `fetch` and React rendering are not modelled: routing plumbing, headers, CORS, the order of asynchronous state updates, CSS classes and markup. The file system is left out too: the upload is not written, only its path is computed.
- Dictionary order is not modelled. `map` is unordered, so the order of keys in a JSON body and in the DataFrame columns is not captured; only the row order of the features is modelled.
- Case mapping covers ASCII letters only: `Upper`, `Lower` and `Capitalize` do not model Unicode case rules.
- ThyroidServer.ParseFloat: underscores in numerals, non-ASCII digits, rounding to a double and overflow to infinity are not modelled. Values are exact reals.
- LungForm.ParseInt: only decimal digits are covered. The `0x` prefix read as hexadecimal is left out, and so are integer sizes beyond a double.
- AppShell.Route: React Router's case-insensitive matching and its trailing-slash tolerance are not modelled. Paths match exactly.
- Formatted numbers are not modelled: the brain confidence `{confidence*100:.2f}%` is a parameter of `BrainServer.AnalysedBody`, and the lung `message` field is left out.
- Requests whose JSON body is not an object (`request.json` is `None` or a list) are left out on both services: `LungService.Predict` takes a dictionary. On the lung service a list gets the 400 for the first required name it does not hold, because `field not in data` is then a membership test; only `None`, or a list holding all fifteen names (which fails at `data['GENDER']`), answers 500.
- SymptomWizard.Wizard.HandleSymptomChange requires a known question id. The page only calls it with its own question ids.
- BrainServer.PredictTumor requires a non-empty score list whose best index names a class. `Index` answers the other cases as a crash (500).
- The Navbar and Landing components are not modelled. They only render links.
- Values a handler stores that are not text are left out. `localStorage.setItem` of a non-string token is one such case.
- The hospital ratings and distances are modelled in tenths. That is exact for the one-decimal data; floating-point `% 1` agrees on every rating in the list.
