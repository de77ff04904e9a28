# Call-centre coaching backend: a verified model

This project models the core of a backend that coaches call-centre agents. An agent
uploads the audio of a call. The backend then takes the call through three AI stages:
- **transcribe** turns the audio into text;
- **analyze** scores the call in four areas, with sentiment and CSAT;
- **coach** builds a learning plan with articles, videos, call examples and a quiz.

The agent then works through the plan. Each resource marked done raises the plan's
progress, and quiz submissions are scored until the plan is completed.

The model is written in Dafny and covers these parts:

- **Documents** (`CallModel`, `AnalysisModel`, `CoachingModel`). These are the three
  stored records, with the defaults, ranges and enumerations their schemas enforce on save.
- **AI gateway** (`Gateway`):
  - which provider serves the stages (Ollama, HuggingFace or a built-in mock);
  - the retry loop with exponential back-off against the hosted inference API;
  - the left-to-right fallback over candidate text models.
- **Response interpreter** (`Interpreter`, `Extraction`, `Text`):
  - structured JSON replies are taken over as they are;
  - free-text replies are mined by keyword heuristics for numbers, list items, a
    one-sentence summary and a sentiment;
  - fixed defaults cover every other reply.
- **Rule-based coaching plan** (`CoachingRules`). The mock provider's plan is derived
  from which of the four areas are weak.
- **Coaching progress engine** (`CoachingProgress`). A plan loaded as an object whose
  fields the progress update and the quiz submission change in place.
- **Call lifecycle** (`Pipeline`). A `Backend` object holds:
  - the calls, keyed by id;
  - the analyses, keyed by call id;
  - the coaching plans, keyed by analysis id;
  - the log of socket notifications.

  Each AI stage is a synchronous `Start…` method, which checks its preconditions and
  sets the entry status. A `Finish…` method then records the outcome the background
  work produced. Upload, listing, lookup, deletion, progress updates and quiz
  submissions are further methods on the same object.
- **Upload handling** (`Uploads`). The file-type filter, the stored file name, the size
  limit and how metadata defaults are filled in.
- **Pagination** (`Pagination`). The page arithmetic shared by the listings.
- **Error middleware** (`ErrorHandler`). How any thrown error becomes an HTTP status and
  a message.

Everything outside the process is a parameter:
- HTTP replies of the inference API (a function from attempt number to reply);
- what the optional client library returns;
- the Ollama server's answer;
- how `JSON.parse` reads a text;
- clocks and random numbers.

Waiting is not performed: the retry loop returns the pauses it would take.

Where the code and the intended design of the system part ways, the model follows the
code:
- A transcription can be restarted from any status except `transcribing` as long as
  the call has no transcript, including from `failed` (`Pipeline.Backend.StartTranscription`).
- Starting an analysis never looks at the status. A call already `analyzing` starts
  again while no analysis is stored (`Pipeline.Backend.StartAnalysis`).
- Coaching sets the status `coaching-generated` before the plan is built
  (`Pipeline.Backend.StartCoaching`).
- A failed analysis or coaching stage leaves the transcript in place. So a `failed` call
  may hold a transcript, and a call may be `failed` although an earlier stage succeeded
  (`Pipeline.Backend.FinishAnalysis`).
- With the Ollama provider, transcription always fails with
  "Unsupported provider: ollama". Ollama's analysis reply has bare numbers as scores
  and no overall score, so the Analysis schema refuses it and the stage always ends
  `failed` (`Pipeline.TranscribeWithOllama`, `Pipeline.AnalyzeWithOllama`).
- The hand-written mock coaching plan is never used: the mock provider builds the
  rule-based plan (`Gateway.GenerateCoaching`).
- When a HuggingFace analysis reply is JSON without `scores`, it reaches a helper that
  does not exist. The resulting error yields the default analysis
  (`Interpreter.ParseAnalysis`).
- Deleting a call leaves its analysis and coaching plan stored (`Pipeline.Backend.DeleteCall`).
- Progress marks are not checked against the plan's resources. Marking resources the
  plan does not list pushes the progress above 100, and the save is then refused with a
  500 (`CoachingProgress.UnlistedIdsBreakProgress`, `Pipeline.Backend.UpdateProgress`).
  Marks drawn from the plan's own titles keep it within 0..100
  (`CoachingProgress.ListedResourcesKeepProgressValid`).
- Answers to the same question are each counted, so a quiz score can exceed 100
  (`CoachingProgress.RepeatedAnswersExceed100`).
- A quiz without questions divides 0 by 0. The save fails and nothing is recorded
  (`CoachingProgress.SubmissionScore`, `Pipeline.Backend.SubmitQuiz`).

## Model

| member | source | states |
|---|---|---|
| CallModel.StatusNamesMatchEnum | backend/models/Call.js:37-41 | every status is stored under one of the seven names of the schema's enumeration, and distinct statuses have distinct names |
| CallModel.NewCall | backend/models/Call.js:3-74 | a new call is `uploaded` with no transcript, duration, transcription time or error, keeps the given fields, and passes the schema iff the required strings are non-empty and the call type is inbound or outbound |
| CallModel.DefaultMetadataIsValid | backend/models/Call.js:63-67 | the default call type `inbound` is admitted by the enumeration |
| AnalysisModel.NewAnalysis | backend/routes/analysis.js:227-236 | the stored analysis copies scores, overall score and the three lists, takes version "1.0", and passes the schema iff the provider's result does (areas, overall and CSAT confidence in 0..100, CSAT in 1..5, sentiments and tone from their enumerations) |
| CoachingModel.DefaultsAreAdmitted | backend/models/Coaching.js:77-90 | a missing difficulty reads as "medium", which the enumeration admits; a missing passing score reads as 80 and a missing estimated time as 10 |
| CoachingModel.NewCoaching | backend/routes/coaching.js:116-138 | a new plan copies feedback, resources and quiz, starts with every flag false, progress 0, empty lists, no attempts and best score 0, and passes the schema iff the result does |
| CoachingModel.Stamped | backend/models/Coaching.js:150-153 | a save sets `updatedAt` to the save time and changes nothing else |
| Text.Lower | backend/services/aiService.js:730 | lower-casing keeps the length and maps exactly the ASCII capitals to small letters |
| Text.LowerIdempotent | backend/services/aiService.js:730 | lower-casing twice is lower-casing once |
| Text.Contains | backend/services/aiService.js:731-732 | `includes` holds iff the word occurs at some position |
| Text.Trim | backend/services/aiService.js:714 | the trimmed text is the input with a run of white space removed from each end, neither starts nor ends with white space, and is empty iff the input is all white space |
| Text.NatToStringRoundTrip | backend/routes/calls.js:25-26 | reading back the decimal rendering of a number gives the number |
| Text.IntToString | backend/routes/calls.js:25-26 | the rendering starts with a minus sign exactly for a negative number, and the rest is digits that read back to the magnitude |
| Text.Join | backend/middleware/errorHandler.js:24 | joining no parts gives "", joining one part gives that part |
| Text.JoinAppend | backend/middleware/errorHandler.js:24 | joining one more part appends the separator and the part, so with the two cases above every join is determined |
| Text.FragmentsCoverText | backend/services/aiService.js:722 | the split pieces hold no sentence end and, concatenated, are the text with its sentence ends removed |
| Text.NoSentenceEndIsOnePiece | backend/services/aiService.js:722 | a text without a sentence end splits into itself alone |
| Text.FragmentsCutAtFirstEnd | backend/services/aiService.js:722 | the split cuts at the first sentence end: the text before it is the first piece and the rest is split in turn |
| Extraction.FirstKeywordNumber | backend/services/aiService.js:698-705 | the number found is the one after the first keyword, in list order, whose pattern matches somewhere; nothing iff no keyword's pattern matches |
| Extraction.FirstNumberFrom | backend/services/aiService.js:700-702 | the number is captured by the leftmost match of `keyword[:\s]*digits`; nothing iff no position matches |
| Extraction.ScoreOr | backend/services/aiService.js:634 | `extracted \|\| fallback`: a found non-zero number is kept, nothing or 0 gives the fallback |
| Extraction.TrimmedCaptureIsItem | backend/services/aiService.js:710-714 | a trimmed capture of `[^.\n]+` is a non-empty item without dots, new lines or padding |
| Extraction.LongCaptures | backend/services/aiService.js:710-716 | every capture kept for one keyword is such an item |
| Extraction.ListItemsShape | backend/services/aiService.js:707-719 | the list has one to three items: the leading kept captures (three when there are at least three), or the placeholder alone when there is none |
| Extraction.KeywordCaptures | backend/services/aiService.js:711-716 | the loop over one keyword's matches collects exactly the kept captures, left to right |
| Extraction.ExtractListItems | backend/services/aiService.js:707-719 | the nested loops return exactly the reference list of items |
| Extraction.FirstLongFragment | backend/services/aiService.js:722-723 | the summary is the first piece longer than 10 characters once trimmed, trimmed and closed by a dot; nothing iff there is no such piece |
| Extraction.SummaryIsOneSentence | backend/services/aiService.js:721-724 | a summary is longer than 11 characters, ends with its only sentence end, and is not padded |
| Extraction.ExtractSentiment | backend/services/aiService.js:726-737 | positive iff some positive word and no negative word occurs (case-insensitively), negative in the mirror case, neutral otherwise |
| Extraction.SentimentIgnoresTargetAndCase | backend/services/aiService.js:726-737 | the verdict is the same for agent and customer, and the same for the lower-cased text |
| Interpreter.SentimentAdmitted | backend/models/Analysis.js:37-45 | every sentiment produced is one the Analysis schema admits |
| Interpreter.ReadScore | backend/services/aiService.js:634-662 | a score read from text is the number found when it is non-zero, and the fallback when none is found or it is 0; with a percentage fallback it is a percentage iff the number read is |
| Interpreter.DefaultAnalysis | backend/services/aiService.js:739-777 | the default analysis carries the given provider and passes the Analysis schema |
| Interpreter.ExtractScoresFromText | backend/services/aiService.js:632-661 | the three area scores are read after their keywords with fallbacks 80, 70 and 75, both sentiments agree, and the scores pass the schema iff no number read exceeds 100 |
| Interpreter.ExtractAnalysisFromText | backend/services/aiService.js:630-668 | the extracted analysis is tagged huggingface, its overall score is read with fallback 75, its lists come from the list extractor, and it is storable iff none of the four numbers read exceeds 100 |
| Interpreter.ParseAnalysis | backend/services/aiService.js:539-603 | JSON with scores is taken over with only the provider replaced; non-JSON or `null` text is mined; other JSON gives the storable default |
| Interpreter.StructuredAnalysisValidity | backend/services/aiService.js:545-553 | a structured reply is storable iff the decoded result is |
| Interpreter.OllamaAnalysis | backend/services/aiService.js:803-821 | Ollama's analysis is the flat reply tagged ollama, which cannot be stored as an Analysis |
| Interpreter.OllamaAnalysisIgnoresText | backend/services/aiService.js:801-821 | Ollama's analysis does not depend on what the model said |
| Interpreter.MockAnalysis | backend/services/aiService.js:372-425 | the mock analysis is tagged mock, has overall score 85 and passes the schema |
| Interpreter.Truncated | backend/services/aiService.js:674 | the text up to 500 characters is kept whole; a longer one becomes its first 500 characters followed by "..." |
| Interpreter.ExtractCoachingFromText | backend/services/aiService.js:670-696 | the extracted plan has a non-empty summary, the truncated text as detail, one to three priorities and actions, one article, no quiz questions, passing score 80 and time 5, and is storable iff the text is non-empty |
| Interpreter.DefaultCoaching | backend/services/aiService.js:779-799 | the default plan carries the given provider, has no resources or questions, and is storable |
| Interpreter.ParseCoaching | backend/services/aiService.js:605-627 | JSON with personalised feedback is taken over with only the provider replaced; every other reply is mined, and is storable iff the text is non-empty |
| Interpreter.OllamaCoaching | backend/services/aiService.js:822-842 | Ollama's plan wraps the raw reply as detailed feedback, has no resources or questions, and is storable iff the reply is non-empty |
| CoachingRules.LowAreas | backend/services/aiService.js:855-868 | the weak areas are exactly those scored under 80, or with CSAT under 4 |
| CoachingRules.HighAreas | backend/services/aiService.js:855-868 | the strong areas are exactly the others |
| CoachingRules.AreasPartition | backend/services/aiService.js:855-868 | every area is weak or strong: the two lists hold four areas together |
| CoachingRules.CollectMembers | backend/services/aiService.js:855-868 | collecting the areas of a list keeps exactly the areas whose weakness matches |
| CoachingRules.CollectLength | backend/services/aiService.js:910-1114 | when every area contributes n entries, a collection has n entries per collected area |
| CoachingRules.ActionItems | backend/services/aiService.js:910-938 | two action items per weak area, then the two general items |
| CoachingRules.AreaVideos | backend/services/aiService.js:940-1020 | only issue understanding and customer satisfaction come with a video |
| CoachingRules.AreaExamples | backend/services/aiService.js:940-1020 | only resolution quality comes with a call example |
| CoachingRules.RecommendedResources | backend/services/aiService.js:940-1020 | one article per weak area then the general guide, a video for each weak area that has one, a call example for weak resolution |
| CoachingRules.AreaQuestionAnswerable | backend/services/aiService.js:1022-1114 | every area's question is admitted by the schema and its correct answer is one of its options |
| CoachingRules.CollectAnswerable | backend/services/aiService.js:1022-1114 | every question collected from weak areas is well-formed |
| CoachingRules.CoachingQuiz | backend/services/aiService.js:1022-1114 | one question per weak area then the general one, every question well-formed, passing score 80, time twice the questions and at least 5 |
| CoachingRules.DetailedFeedback | backend/services/aiService.js:887-899 | the feedback opens with its band's sentence (85 and up, 70 and up, below) followed by the score; it names the strong areas from 70 up, the weak areas below 85 or whenever there are some, and "maintaining consistency" for an excellent call without weak areas |
| CoachingRules.ExcellentFeedback | backend/services/aiService.js:891-893 | the excellent-band text opens with "achieved an overall score of" and the score, and names the strong areas and the weak areas or consistency |
| CoachingRules.GoodFeedback | backend/services/aiService.js:894-896 | the good-band text opens with the score and "showed competence in", and names the strong and the weak areas |
| CoachingRules.WeakFeedback | backend/services/aiService.js:897-899 | the weak-band text opens with the score and the priority areas sentence, and names the weak areas |
| CoachingRules.PersonalizedFeedback | backend/services/aiService.js:887-908 | the summary follows the overall score's band (85, 70), priorities are the weak areas or two general themes, and there are two action items per weak area plus two |
| CoachingRules.DetailedCoaching | backend/services/aiService.js:849-885 | the rule-based plan is storable and tagged with the given provider |
| CoachingRules.DetailedCoachingSizes | backend/services/aiService.js:849-885 | the plan has as many questions as articles (weak areas plus one) and twice as many action items |
| CoachingRules.StrongCallGetsMinimalPlan | backend/services/aiService.js:849-885 | a call strong in every area gets the general article, no video, no example and one question |
| Gateway.DetectProvider | backend/services/aiService.js:22-31 | Ollama iff an Ollama address is set; HuggingFace iff only a key is set; mock iff neither |
| Gateway.StepOf | backend/services/aiService.js:155-188 | an attempt returns iff it succeeded, raises iff it failed and was the last, and otherwise pauses for the time its failure calls for |
| Gateway.RequestFromPauses | backend/services/aiService.js:155-191 | from attempt k on, every pause follows a failed attempt and has that attempt's length; a success returns the payload of the attempt after the pauses |
| Gateway.RequestFromSucceeds | backend/services/aiService.js:155-191 | from attempt k on, the request succeeds iff some attempt up to the last succeeds |
| Gateway.RequestOutcome | backend/services/aiService.js:147-192 | with a budget of b retries (4 when unset or 0) at most b + 1 posts are made, success iff one of them succeeds, with the first successful payload; the pauses are 1 s or 2000·2^k ms for loading models and 503/429 |
| Gateway.NegativeBudgetPostsNothing | backend/services/aiService.js:151-191 | with a negative budget nothing is posted and the request fails |
| Gateway.HfRequest | backend/services/aiService.js:147-192 | the retry loop returns exactly the reference outcome and pauses |
| Gateway.FirstText | backend/services/aiService.js:243-331 | the text used is non-empty and comes from a candidate model; nothing iff no candidate produces text |
| Gateway.ModelText | backend/services/aiService.js:253-278 | a model's text is the client's text when the client produced some, else the HTTP payload, else "" when the request threw |
| Gateway.FirstGeneratedText | backend/services/aiService.js:253-279 | the loop over candidate models returns exactly the first text in list order |
| Gateway.AnalyzeWithHuggingFace | backend/services/aiService.js:243-286 | the HuggingFace analysis is the parse of the first generated text, or of the fixed sentence |
| Gateway.CoachingWithHuggingFace | backend/services/aiService.js:288-331 | the HuggingFace plan is the parse of the first generated text, or of the fixed sentence |
| Gateway.NoDigitsNoNumber | backend/services/aiService.js:698-705 | a text without digits yields no number |
| Gateway.SilentModelsGiveFallbackAnalysis | backend/services/aiService.js:253-281 | when no model produces text, the analysis is the one extracted from the fixed sentence |
| Gateway.FallbackTextStorable | backend/services/aiService.js:281 | the analysis extracted from the fixed sentence is storable: the sentence holds no number |
| Gateway.HuggingFaceCoachingStorable | backend/services/aiService.js:288-331 | a HuggingFace plan is storable unless a model answered with JSON whose plan is not |
| Gateway.HuggingFaceTranscription | backend/services/aiService.js:194-241 | the transcript is never empty: the mock transcript for an unreadable file; else the client's text, else a non-empty HTTP payload, tagged with the Whisper model; else the mock transcript |
| Gateway.Transcribe | backend/services/aiService.js:80-98 | transcription fails iff the provider is Ollama, with "Unsupported provider: ollama"; the mock provider gives the mock transcript and HuggingFace its Whisper transcription, never empty |
| Gateway.Analyze | backend/services/aiService.js:100-121 | analysis fails iff Ollama's server fails; the mock provider gives the mock analysis, which is storable, and HuggingFace its model-loop analysis; an Ollama analysis is never storable |
| Gateway.GenerateCoaching | backend/services/aiService.js:123-144 | coaching fails iff Ollama's server fails; the mock provider's plan is the rule-based plan tagged "mock", which is storable; HuggingFace gives its model-loop plan; Ollama's is storable iff it said something |
| ErrorHandler.LastMatch | backend/middleware/errorHandler.js:10-50 | the rule chosen matches and no later rule matches; nothing iff no rule matches |
| ErrorHandler.Respond | backend/middleware/errorHandler.js:52-56 | the response is unsuccessful with a non-empty message; it takes the record's status iff that is set and non-zero (else 500) and its message iff that is set and non-empty (else "Server Error") |
| ErrorHandler.HandleError | backend/middleware/errorHandler.js:3-57 | the chain of overwriting checks answers exactly as the last matching rule prescribes, or with the error's own status and message |
| ErrorHandler.LastMatchUnrolled | backend/middleware/errorHandler.js:10-50 | the last matching rule is found by trying the rules from the last to the first |
| ErrorHandler.ClassifyOverwrites | backend/middleware/errorHandler.js:10-50 | letting each matching check overwrite the answer of the previous ones, in source order, gives the last matching rule's answer |
| ErrorHandler.ResponseShape | backend/middleware/errorHandler.js:52-56 | every status is one a rule assigns, or, with no rule matching, the error's own |
| ErrorHandler.UnrecognisedErrorKeepsItsOwn | backend/middleware/errorHandler.js:4-5 | an error no rule recognises keeps its own non-zero status (else 500) and non-empty message (else "Server Error") |
| ErrorHandler.LaterChecksWin | backend/middleware/errorHandler.js:10-50 | when several rules match the last wins: the AI-service type over all, a file-size code over a name, a name over a duplicate key |
| ErrorHandler.NamedErrors | backend/middleware/errorHandler.js:11-38 | cast errors are 404, validation errors 400 with their messages joined by ", " ("Server Error" when there are none), token errors 401 |
| Uploads.BaseName | backend/routes/calls.js:26 | the base name holds no slash |
| Uploads.ExtName | backend/routes/calls.js:26 | the extension is empty or a dot followed by no dot, holds no slash, and ends the base name |
| Uploads.ExtNameOfStem | backend/routes/calls.js:26 | a plain stem followed by an extension has that extension |
| Uploads.StoredFileName | backend/routes/calls.js:24-27 | the stored name starts with "call-" |
| Uploads.StoredNameKeepsExtension | backend/routes/calls.js:24-27 | the stored name has the original name's extension |
| Uploads.ExtNameAt | backend/routes/calls.js:34 | the extension of a base name is its text from the last dot, when that dot is not the first character |
| Uploads.LeadingDotIsNoExtension | backend/routes/calls.js:34 | a name whose only dot leads it has no extension |
| Uploads.FilterIgnoresCase | backend/routes/calls.js:30-41 | "Support.WAV" is accepted whatever its type; an allowed type is accepted without an extension |
| Uploads.FilterReadsLastExtensionOnly | backend/routes/calls.js:30-41 | "a.wav.txt" and ".wav" are refused unless their type is allowed |
| Uploads.MaxFileSize | backend/routes/calls.js:47 | the limit is the configured size, or 50 MB when it is unset or 0 |
| Uploads.ReceiveAudio | backend/routes/calls.js:20-49 | a file is refused iff the filter rejects it or it is over the limit, with the filter's error first; a received file keeps its name, size and type and is stored under the generated name |
| Uploads.RefusalResponses | backend/routes/calls.js:39 | a refused type answers 500 with the filter's message; an oversize file answers 400 "File too large" |
| Uploads.ReadMetadata | backend/routes/calls.js:87-95 | metadata is unreadable iff the field is set and parses to `null`; an absent field or unparsable text reads as no metadata |
| Uploads.StoredMetadata | backend/routes/calls.js:105-110 | agent falls back to the user's name, call date to now, call type to inbound; customer info is copied |
| Uploads.UploadCall | backend/routes/calls.js:78-148 | no file gives 400; a call is created iff there is a file and the metadata is readable; a created call passes the schema iff its type is allowed (else 500), is `uploaded`, untranscribed, owned by the uploader |
| Uploads.PlainUploadIsStored | backend/routes/calls.js:78-113 | a file uploaded without metadata becomes an inbound call of the uploader |
| Uploads.UnknownCallTypeIsRejected | backend/routes/calls.js:105-113 | a call type outside the enumeration makes the upload fail with 500 |
| Pagination.ParamOr | backend/routes/calls.js:179-180 | `parseInt(p) \|\| d`: a missing, unparsable or zero parameter gives the default |
| Pagination.CeilDiv | backend/routes/calls.js:201 | for a positive limit the page count is the least count of pages holding the total |
| Pagination.Paginate | backend/routes/calls.js:179-202 | the listing fails iff the skip is negative; otherwise the page holds min(\|limit\|, total - skip) items (none past the end), each the item at skip plus its position, with the total, the current page and ceil(total / limit) pages |
| Pagination.DefaultsListFirstTen | backend/routes/analysis.js:346-348 | without parameters page 1 lists the first ten items |
| Pagination.PageHoldsItemsIffInRange | backend/routes/coaching.js:251-270 | a page holds items iff it is one of 1..pages, and a page before the last is full |
| Pagination.EveryItemHasAPage | backend/routes/calls.js:179-202 | every item appears on page i / limit + 1, at position i mod limit, and that page is in range |
| CoachingProgress.AddOnce | backend/routes/coaching.js:333-335 | a resource is appended only when absent: the list gains exactly it, keeps its prefix, and stays duplicate-free |
| CoachingProgress.RoundDiv | backend/routes/coaching.js:363 | rounding p/q to the nearest integer, halves up |
| CoachingProgress.ProgressWithinBounds | backend/routes/coaching.js:350-363 | when no more resources are marked than listed, progress is in 0..100, and 100 when all are done and the quiz was passed |
| CoachingProgress.ProgressExample | backend/routes/coaching.js:350-363 | 7 of 10 resources with best 85 of 80 give 79; no resources with a passed quiz give 30 |
| CoachingProgress.FindQuestion | backend/routes/coaching.js:443 | the question found is the first with the answer's id; nothing iff none has it |
| CoachingProgress.ScoredAnswers | backend/routes/coaching.js:442-452 | one scored answer per answer, in order, carrying its id, answer and correctness |
| CoachingProgress.CorrectCount | backend/routes/coaching.js:441-445 | the count of correct answers is at most the number of answers, and 0 iff none is correct |
| CoachingProgress.ScoreAnswers | backend/routes/coaching.js:441-452 | the scoring loop returns exactly the scored answers and the correct count |
| CoachingProgress.ScoreExamples | backend/routes/coaching.js:454 | 4 of 5 score 80, 5 of 5 score 100, 0 of 5 score 0, 2 of 3 score 67 |
| CoachingProgress.ScoreIsPercentage | backend/routes/coaching.js:441-454 | with no more answers than questions the score is at most 100 |
| CoachingProgress.RepeatedAnswersExceed100 | backend/routes/coaching.js:441-454 | two right answers to a one-question quiz score 200 |
| CoachingProgress.OmittedAnswerMatchesMissingKey | backend/routes/coaching.js:444 | an omitted answer is correct for a question without a correct answer, an empty one is not |
| CoachingProgress.CriteriaAfterUpdate | backend/routes/coaching.js:350-371 | each resource flag holds iff its list is as long as the plan's, progress follows the formula, the quiz flag is kept |
| CoachingProgress.ListedResourcesKeepProgressValid | backend/routes/coaching.js:350-371 | marks that are the plan's own titles keep progress within 0..100 |
| CoachingProgress.UnlistedIdsBreakProgress | backend/routes/coaching.js:350-363 | two marks against a single listed article give progress 140 |
| CoachingProgress.Updated | backend/routes/coaching.js:331-371 | a progress update adds the resource once to the list of its kind, leaves the other lists, attempts, best score and completion alone, and recomputes the flags and progress |
| CoachingProgress.UpdateIsIdempotent | backend/routes/coaching.js:331-371 | marking the same resource twice is marking it once |
| CoachingProgress.UpdateKeepsListsDistinct | backend/routes/coaching.js:331-347 | progress lists stay duplicate-free |
| CoachingProgress.SubmissionScore | backend/routes/coaching.js:454 | a submission has a score iff the quiz has questions |
| CoachingProgress.Submitted | backend/routes/coaching.js:456-480 | a submission appends one attempt, keeps the best score as a maximum, sets the quiz flag from this score alone, completes the plan (progress 100) only when all four flags hold and it was not complete, never undoes completion, and leaves the resource lists alone |
| CoachingProgress.PassingSubmissionCompletes | backend/routes/coaching.js:470-480 | a passing submission after all resources are done completes the plan with progress 100 |
| CoachingProgress.CoachingDocument.constructor | backend/routes/coaching.js:318-321 | a loaded plan's fields are those of the stored record |
| CoachingProgress.CoachingDocument.UpdateProgress | backend/routes/coaching.js:331-371 | updating in place turns the plan into the updated plan |
| CoachingProgress.CoachingDocument.UpdateCriteria | backend/routes/coaching.js:350-371 | the flags and progress are recomputed, every list and the quiz record are untouched |
| CoachingProgress.CoachingDocument.SubmitQuiz | backend/routes/coaching.js:441-480 | the score returned is the submission score; with no questions nothing changes, otherwise the plan becomes the submitted plan |
| Pipeline.Listed | backend/routes/calls.js:183-192 | the listed calls are the user's, with the requested status when one is given, and every such call is listed |
| Pipeline.Backend.constructor | backend/models/Call.js:3-74 | the backend starts with no calls, analyses, plans or events, and its invariant holds |
| Pipeline.Backend.Upload | backend/routes/calls.js:78-148 | a created call is stored under a fresh id, appended to the upload order and announced to its user; a rejected upload changes nothing |
| Pipeline.Backend.GetCall | backend/routes/calls.js:234-259 | a call is returned iff the user owns it, otherwise "Call not found" |
| Pipeline.Backend.ListCalls | backend/routes/calls.js:177-212 | the listing is the page of the user's calls with the requested status (failing for a negative skip); every listed call belongs to the user and has that status, and the total counts all of them |
| Pipeline.Backend.DeleteCall | backend/routes/calls.js:281-316 | an owned call is removed, and its analysis and plan stay; otherwise 404 and nothing changes |
| Pipeline.Backend.StartTranscription | backend/routes/analysis.js:30-85 | 404, 400 while transcribing, 200 when already transcribed, none changing anything; otherwise status `transcribing` from any other status and one `transcription-started` event |
| Pipeline.Backend.Fail | backend/routes/analysis.js:115-133 | a failing stage sets `failed` with the error's message, time and step, and emits its failure event |
| Pipeline.Backend.FinishTranscription | backend/routes/analysis.js:90-134 | success stores the text as transcript, leaves the duration unknown, sets `transcribed` and the time; failure sets `failed` at step transcription |
| Pipeline.Backend.StartAnalysis | backend/routes/analysis.js:156-213 | 404, 400 without a transcript, 200 with a stored analysis, none changing anything; otherwise `analyzing` whatever the status |
| Pipeline.Backend.FinishAnalysis | backend/routes/analysis.js:218-272 | a storable result becomes the call's one analysis under a fresh id and the call is `analyzed`; anything else (provider error, schema refusal, duplicate) leaves the analyses alone and fails the call at step analysis; the transcript is kept |
| Pipeline.Backend.StoreAnalysis | backend/routes/analysis.js:238-250 | a saved analysis is stored under its call with a fresh id, the call becomes `analyzed`, `analysis-completed` is announced, and the invariant holds |
| Pipeline.AnalysisStoredStep | backend/routes/analysis.js:238-243 | storing a call's first analysis under a fresh id and marking the call `analyzed` keeps every stored record valid and every id issued and distinct |
| Pipeline.Backend.StartCoaching | backend/routes/coaching.js:32-96 | 404, 400 without an analysis, 200 with an existing plan unless force is exactly "true" (then the old plan is deleted); the call becomes `coaching-generated` before any plan exists |
| Pipeline.Backend.FinishCoaching | backend/routes/coaching.js:101-174 | a storable result becomes the analysis's one plan in its initial state and the call stays `coaching-generated`; anything else leaves the plans alone and fails the call at step coaching |
| Pipeline.Backend.PlanOf | backend/routes/coaching.js:318-321 | a plan found by call belongs to the user |
| Pipeline.Backend.PlanLookupIsExact | backend/routes/coaching.js:318-321 | the lookup by call and user finds every plan of that call and user, and only a plan of that call |
| Pipeline.Backend.UpdateProgress | backend/routes/coaching.js:314-388 | 404 without a plan; otherwise the updated, stamped plan is saved iff the schema admits it (200), else 500 and the stored plan is kept |
| Pipeline.Backend.SubmitQuiz | backend/routes/coaching.js:424-500 | 404 without a plan; 500 and nothing saved for a quiz without questions; otherwise the submitted, stamped plan is saved and its score returned |
| Pipeline.PlanSavedStep | backend/routes/coaching.js:373 | saving a valid plan over the stored one, for the same analysis and call, keeps every stored record valid |
| Pipeline.SubmittedPlanIsValid | backend/routes/coaching.js:476-482 | a submission never makes a stored plan unstorable |
| Pipeline.TranscribeWithOllama | backend/services/aiService.js:80-98 | with Ollama a started transcription always ends `failed` at step transcription with "Unsupported provider: ollama" |
| Pipeline.AnalyzeWithOllama | backend/routes/analysis.js:218-272 | with Ollama a started analysis always ends `failed` at step analysis with no analysis stored, while the transcript remains |

## Left out

- Network, file and socket I/O is not modelled. The inference API, the client library, the Ollama server, reading the audio file and deleting it are parameters or left out. Socket emits become entries of an event log.
- Waiting is not modelled: `setTimeout` and the mock delays become returned pause lengths, or are dropped.
- Concurrency is not modelled: each stage is a `Start…` call followed, later, by a `Finish…` call. Races between two triggers of the same call, and a call deleted while its stage runs, are out of scope. The background tasks save the in-memory copy of the call they were given; the model applies the outcome to the stored call.
- The database is in-memory maps. Queries, `populate`, projections and sorting by `uploadedAt` are not modelled; listing walks the upload order from the newest, which agrees with `uploadedAt` descending as long as the clock does not go back.
- The analysis and coaching-plan listings (`backend/routes/analysis.js:344-364`, `backend/routes/coaching.js:249-282`) and the single-record reads are modelled only through their shared page arithmetic, `Pagination.Paginate`.
- Authentication, request validation, the user model, the prompt templates and logging are not part of this model.
- Regular expressions are replaced by keyword matchers on ASCII lower-cased text. Captures of one character that backtracking could produce are not modelled, since the callers drop captures of three characters or fewer.
- `parseFloat` keeps only the integer part of a number found after a keyword.
- `JSON.parse` is abstracted as four readings: not JSON, `null`, JSON without the expected field, and JSON with it, decoded.
- Floating-point arithmetic is replaced by integer rounding (`RoundDiv`); ties at exactly .5 round up as `Math.round` does, but float error near such ties is not modelled.
- Schema validation messages are replaced by fixed texts; only whether a save is refused is modelled.
- Mongoose `required` on strings is modelled as non-empty; numeric and id fields are always present in the model.
- The response bodies' extra fields (the stored transcript, the record returned with a 200, the page of analyses) are not modelled, only the status and message.
- `Math.random` and `Date.now` are parameters.
- Pipeline.Listed: states which calls are listed, not that they come newest first.
- Pipeline.Backend.GetCall: returns the whole call, where the handler omits the file path from the reply.
- Pipeline.Backend.FinishAnalysis: for a schema refusal or a duplicate analysis the stored error message is a fixed text rather than the database's own.
- Pipeline.Backend.FinishCoaching: for a schema refusal or a duplicate plan the stored error message is a fixed text rather than the database's own.
- CoachingProgress.OverallProgress: states its bounds only when no more resources are marked than listed; with unlisted marks it exceeds 100, as shown by `UnlistedIdsBreakProgress`.
- Text.Trim: and the other text helpers treat only ASCII white space and letters; Unicode case folding and white space are not modelled.
