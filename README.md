# ExamViz grading core in Dafny

ExamViz is an exam viewer. It loads an exam paper (sections of questions of seven
types), lets a candidate answer, grades the objective questions locally and sends the
open-ended ones to an AI grading server. This project models the logic behind that flow
and proves what it promises:

- `grading.dfy`: the scoring engine. It covers answer emptiness, the three
  normalisations, `clampScore`, `scoreToState`, `gradeQuestion` branch by branch, and
  `calculateExamStats` as a loop.
- `validate_exam_paper.dfy`: the exam-schema validator. It walks an untyped JSON value
  and accumulates issues in document order, with early exits. It also models
  `assertExamPaper` and `formatExamPaperIssues`.
- `exam_store.dfy`: the exam store as a class `ExamState`. Its methods update the
  fields in place: paper, answers, indices, submitted flag, answered count, and AI
  status and error. The pure selection and merge parts of `gradeWithAI` are functions
  beside it.
- `ai_server.dfy`: the `/api/ai/grade` and `/api/ai/health` handlers of the AI grading
  server. It covers model choice and configuration check, item validation into
  `maxScoreById`, the single `response_format` retry, the error-status mapping,
  `parseJsonFromModel` with its brace fallback, and result sanitisation.
- `ai_grading_api.dfy`: how the client reads the server's replies, and round-trip
  lemmas from server reply to client result.
- `fill_in_blank.dfy` and `question_card.dfy`: blank counting and the blank-array update
  of the fill-in input, and the reference-answer line of the question card.
- `js_strings.dfy`, `json_value.dfy`, `exam_types.dfy`, `grade_wire.dfy`, `wrappers.dfy`:
  shared vocabulary.
  - The JavaScript string operations used (`trim`, ASCII case mapping, `split`/`join`,
    `indexOf`).
  - JSON values: objects are maps over the property names the core reads, and a number
    is finite or not.
  - The records of `src/types/exam.ts`.
  - The graded-entry shape both sides of the AI exchange use.

Modelling conventions:

- Scores are `real`. `Math.round(x * 100) / 100` is `Round2(x) = floor(x * 100 + 0.5) / 100`.
- `WholeCents(x)` says `x` is a whole number of hundredths. The clamp's upper bound
  `score <= maxScore` holds only for such maxima: `Grading.ClampScoreOvershoot`
  exhibits `clampScore(0.005, 0.005) = 0.01`.
- `JSON.parse` is a parameter `parse: string -> Result<Json, string>`.
  - The network exchanges become inputs: the upstream reply of the model provider,
    the client's `fetch` result, and the health and grade responses the store
    receives.
  - The timestamp `gradedAt` and the environment (`AI_BASE_URL`, `AI_API_KEY`,
    `AI_MODEL`) are parameters too.
- A JavaScript array hole (`undefined` in a sparse array) is modelled as `""`.
- Multiple choice de-duplicates the selected labels but not the reference list, so
  the denominator of the proportional score is the reference list's length, repeated
  labels included (src/utils/grading.ts:72-96).

## Model

| member | source | states |
|---|---|---|
| JsStrings.TrimEmptyIff | src/utils/grading.ts:21-27 | a string trims to empty exactly when every character is white space |
| JsStrings.HasNonSpaceIff | src/utils/validateExamPaper.ts:22-24 | `isNonEmptyString`'s test (some non-space character) is the same as "trims to something non-empty" |
| JsStrings.TrimIdempotent | src/utils/grading.ts:11-12 | trimming twice is trimming once, so normalised keys are stable |
| JsStrings.IndexOf | server/index.js:32 | `indexOf` gives -1 when the character is absent, otherwise the first position holding it |
| JsStrings.LastIndexOf | server/index.js:33 | `lastIndexOf` gives -1 when absent, otherwise the last position holding it |
| JsStrings.SplitCount | src/components/AnswerInputs/FillInBlank.tsx:14 | `split(sep)` yields one more part than there are non-overlapping occurrences of `sep` |
| JsStrings.JoinSplit | src/components/AnswerInputs/FillInBlank.tsx:14 | joining the parts of a split with the separator gives the original string back |
| JsStrings.OccurrencesContains | src/components/AnswerInputs/FillInBlank.tsx:14 | there is at least one occurrence exactly when the string contains the separator |
| ExamTypes.ParseType | src/utils/validateExamPaper.ts:30-38 | a name is accepted exactly when it is one of the seven type names, and the type returned carries that name |
| ExamTypes.AllQuestionsMembership | src/store/examStore.ts:32-34 | a question is in the flattened list exactly when some section holds it |
| Grading.NormalizeKey | src/utils/grading.ts:11 | a label trimmed and upper-cased; `NormalizeKeyIdempotent` states that a normalised label is already normal |
| Grading.NormalizeKeyIdempotent | src/utils/grading.ts:11 | normalising a label twice gives the same as normalising it once |
| Grading.NormalizeText | src/utils/grading.ts:12 | a blank trimmed and lower-cased; `NormalizeTextIdempotent` states that a normalised blank is already normal |
| Grading.NormalizeTextIdempotent | src/utils/grading.ts:12 | normalising a blank twice gives the same as normalising it once |
| Grading.NormalizeCode | src/utils/grading.ts:13-19 | code with CRLF turned into LF, each line's trailing white space removed and the whole trimmed; `NormalizeCodeByLines` and `NormalizeCodeTrimEnds` state what it ignores |
| Grading.NormalizeCodeByLines | src/utils/grading.ts:13-19 | normalising code is the same as splitting on `\n`, trimming each line's end, joining and trimming: CRLF needs no separate step, because the `\r` is trailing white space |
| Grading.CrLfIsTrailingSpace | src/utils/grading.ts:14-15 | replacing CRLF by LF changes the lines only in trailing white space |
| Grading.IsEmptyAnswer | src/utils/grading.ts:21-27 | an absent answer, a blank string or an array of blank strings; `EmptyAnswerByTrim` states it in terms of `trim` |
| Grading.EmptyAnswerByTrim | src/utils/grading.ts:21-27 | a string answer is empty when it trims to empty; an array answer is empty when all its elements do (so the empty array is empty) |
| Grading.Round2Facts | src/utils/grading.ts:37 | rounding gives a whole number of hundredths, leaves such a number unchanged and keeps non-negative values non-negative |
| Grading.Round2Monotonic | src/utils/grading.ts:37 | rounding to hundredths is monotonic |
| Grading.ClampScore | src/utils/grading.ts:33-38 | a non-finite or negative score gives 0, a score above the maximum gives the maximum, any other is rounded to hundredths; `ClampScoreRange` states its range and `ClampScoreOvershoot` the limit of that range |
| Grading.ClampScoreRange | src/utils/grading.ts:33-38 | for a maximum of whole hundredths the clamped score lies in [0, maxScore], is whole hundredths, and clamping it again changes nothing |
| Grading.ClampScoreOvershoot | src/utils/grading.ts:33-38 | without whole hundredths the bound fails: `clampScore(0.005, 0.005)` is `0.01` |
| Grading.ScoreToState | src/utils/grading.ts:40-45 | the state is correct, wrong or partial, and for a positive maximum and an in-range score it is correct exactly at full marks, wrong exactly at 0 and partial strictly between |
| Grading.GradeDeferred | src/utils/grading.ts:56-64 | an open-ended answer is pending with 0 exactly when there is no numeric AI score, and is never unanswered |
| Grading.AiDeferredGrade | src/utils/grading.ts:56-64 | with an AI score the result is the clamped score and its state; without one it is pending with 0 |
| Grading.ExactChoiceGrade | src/utils/grading.ts:65-71 | single choice and true/false give full marks and correct exactly when the trimmed, upper-cased answer equals the reference, otherwise wrong with 0; answers equal after normalising grade alike |
| Grading.GradeExact | src/utils/grading.ts:65-71 | exact-match grading is never partial or pending |
| Grading.NonEmpty | src/utils/grading.ts:80-82 | the filtered labels are exactly the non-empty ones |
| Grading.Dedup | src/utils/grading.ts:84 | the de-duplicated labels are distinct and are the same set as the input |
| Grading.CountIn | src/utils/grading.ts:89 | counting the selected labels found in the reference never exceeds the selection, and counts all of them when all are found |
| Grading.SelectedLabelsNonEmpty | src/utils/grading.ts:80-90 | a non-empty multiple-choice answer selects at least one label |
| Grading.DistinctWithinLength | src/utils/grading.ts:84-95 | a distinct selection drawn from the reference list is no longer than it |
| Grading.ProportionalRange | src/utils/grading.ts:92-94 | for a non-negative maxScore of whole hundredths the proportional score lies in [0, maxScore], and it is maxScore when every label is matched |
| Grading.MultipleChoiceGrade | src/utils/grading.ts:72-96 | one wrong pick gives wrong with 0; otherwise the score is the proportion of distinct picks over the reference length, correct exactly when they are equal in number, partial otherwise; for a non-negative maxScore of whole hundredths the score lies within [0, maxScore] |
| Grading.GradeMultipleChoice | src/utils/grading.ts:72-96 | multiple-choice grading is never pending |
| Grading.BlankResults | src/utils/grading.ts:102-111 | there is one verdict per expected blank, true exactly when the user's blank is non-empty and equal after trim and lower-casing |
| Grading.CountTrueBounds | src/utils/grading.ts:106-111 | the number of matched blanks is at most the number of blanks, and equals it exactly when every blank matches |
| Grading.CountCorrectBlanks | src/utils/grading.ts:106-111 | the counting loop returns the number of matched blanks |
| Grading.FillInBlankGrade | src/utils/grading.ts:97-117 | correct exactly when every blank matches (so no blanks gives correct with 0); otherwise the score is the matched proportion, partial exactly when it is positive; for a non-negative maxScore of whole hundredths the score lies within [0, maxScore] |
| Grading.GradeFillInBlank | src/utils/grading.ts:97-117 | fill-in grading is correct, partial or wrong, never pending |
| Grading.GradeFillInBlankQuestion | src/utils/grading.ts:97-117 | the imperative fill-in branch computes the same result as the grading function |
| Grading.GradeCoding | src/utils/grading.ts:118-132 | with a reference the result is all or nothing; pending only without a reference and without an AI score |
| Grading.SameCodeSameNormal | src/utils/grading.ts:13-19 | code that agrees line by line up to trailing white space normalises alike |
| Grading.CodingGradesAlike | src/utils/grading.ts:118-132 | two submissions that differ only in line endings and trailing white space get the same grade |
| Grading.NormalizeCodeTrimEnds | src/utils/grading.ts:13-19 | white space before or after the code, line breaks included, does not change the normalised code (the final trim) |
| Grading.CodingIgnoresSurroundingSpace | src/utils/grading.ts:118-132 | with a reference solution, a submission padded before or after with white space or blank lines gets the same grade as without |
| Grading.GradeQuestion | src/utils/grading.ts:47-136 | maxScore is the question's score; an empty answer is unanswered with 0 whatever the type; pending has 0 and occurs only for AI-deferred types without an AI score |
| Grading.AnsweredNeverUnanswered | src/utils/grading.ts:47-136 | a non-empty answer is never unanswered |
| Grading.GradeScoreRange | src/utils/grading.ts:47-136 | for a maximum of whole hundredths every grade lies in [0, maxScore] |
| Grading.PendingPartition | src/utils/grading.ts:155-160 | pending and non-pending questions together are all questions |
| Grading.AnsweredCountBounds | src/utils/grading.ts:162 | the answered count is at most the number of stored answers, and equals it when none is empty |
| Grading.CalculateExamStats | src/utils/grading.ts:146-171 | the loop returns the question count, the answered count, the rounded sum of scores, the sum of non-pending maxima and the pending count |
| Grading.StatsBounds | src/utils/grading.ts:146-171 | the score sum lies between 0 and the auto-gradable total, which is whole hundredths; when every question is pending both are 0 |
| Grading.CurrentScoreWithinAutoTotal | src/utils/grading.ts:164-170 | when every question's score is a non-negative whole number of hundredths, the reported current score is non-negative and never exceeds the reported auto-gradable total |
| ValidateExamPaper.ExamPaperIssues | src/utils/validateExamPaper.ts:40-170 | the issue list of a document, in the order the walk reports them; the loops of `ValidateExamPaper` are proved to compute it and the lemmas below state its early exits, accumulation, order and per-field rules |
| ValidateExamPaper.ValidateExamPaper | src/utils/validateExamPaper.ts:40-170 | the walk returns exactly the issue list of the document, and `ok` is true exactly when it is empty |
| ValidateExamPaper.CheckSections | src/utils/validateExamPaper.ts:67-83 | the section loop collects the issues of each section in index order |
| ValidateExamPaper.CheckSection | src/utils/validateExamPaper.ts:67-83 | one section's issues, stopping early for a non-object section or a non-array question list |
| ValidateExamPaper.CheckQuestions | src/utils/validateExamPaper.ts:85-166 | the question loop collects the issues of each question in index order |
| ValidateExamPaper.CheckQuestion | src/utils/validateExamPaper.ts:85-100 | one question's issues, stopping early for a non-object question or an unknown type |
| ValidateExamPaper.CheckQuestionBody | src/utils/validateExamPaper.ts:102-165 | the content, options, reference-answer and LaTeX checks of a question of known type |
| ValidateExamPaper.CheckOptions | src/utils/validateExamPaper.ts:110-123 | the option loop collects the issues of each option in index order |
| ValidateExamPaper.AssertExamPaper | src/utils/validateExamPaper.ts:172-178 | succeeds exactly when there are no issues and then returns its input unchanged; otherwise the error carries the same issues and the formatted message |
| ValidateExamPaper.FormatExamPaperIssues | src/utils/validateExamPaper.ts:180-185 | `OK` for no issues, otherwise the header, the first `max` issues one per line and a tail counting the rest; `FormatReport` states this line by line |
| ValidateExamPaper.FormatReport | src/utils/validateExamPaper.ts:180-185 | the report is `OK` exactly for no issues; otherwise it shows the first `max` issues in order after the header, with a tail naming how many more only when there are more |
| ValidateExamPaper.Render | src/utils/validateExamPaper.ts:41-42 | every rendered issue path starts with `$` |
| ValidateExamPaper.DocumentEarlyExits | src/utils/validateExamPaper.ts:44-65 | a non-object document gives exactly one issue at `$`; a non-array `sections` ends the walk with that issue after the examMeta checks, with no section issue |
| ValidateExamPaper.SectionEarlyExits | src/utils/validateExamPaper.ts:67-83 | a non-object section gives exactly one issue; a non-array `questions` ends that section's issues with it |
| ValidateExamPaper.QuestionEarlyExits | src/utils/validateExamPaper.ts:87-100 | a non-object question gives exactly one issue; an unknown type ends that question after at most its id, idx and score issues |
| ValidateExamPaper.IssuesAccumulate | src/utils/validateExamPaper.ts:67-166 | every issue of every section and question of the document is in the document's issue list; one problem does not hide another |
| ValidateExamPaper.IssuesInDocumentOrder | src/utils/validateExamPaper.ts:41-166 | issues come in document order: top level and examMeta, then sections by index, then questions by index |
| ValidateExamPaper.MetaFieldRules | src/utils/validateExamPaper.ts:49-59 | each examMeta field gets its issue exactly when its own rule fails, independently of the others |
| ValidateExamPaper.QuestionHeadRules | src/utils/validateExamPaper.ts:92-94 | the id, idx and score issues appear exactly when their rules fail: blank id, non-positive or non-finite idx, negative or non-finite score |
| ValidateExamPaper.OptionRules | src/utils/validateExamPaper.ts:105-124 | single and multiple choice need at least 2 options; true/false options, when an array, must number exactly 2 |
| ValidateExamPaper.EveryOptionChecked | src/utils/validateExamPaper.ts:110-123 | every option of a choice question is checked, and an issue on an option's path appears exactly when that option breaks the rule: the non-object issue exactly for a non-object option, and each label or value issue exactly when its rule fails |
| ValidateExamPaper.DeepIssuesAreOptionIssues | src/utils/validateExamPaper.ts:85-166 | the only issues of a question below its own fields are those of its options, which only a choice question with at least two options has |
| ValidateExamPaper.OptionListFrom | src/utils/validateExamPaper.ts:110-123 | each issue of the option loop comes from the option whose index its path names |
| ValidateExamPaper.PlaceholderRule | src/utils/validateExamPaper.ts:138-142 | a fill-in question gets the `.content` issue exactly when its reference is not an array and its content lacks `___` |
| ValidateExamPaper.FieldRule | src/utils/validateExamPaper.ts:41-42 | a table of field checks reports a field's issue exactly when its rule fails |
| ValidateExamPaper.AnswerProblems | src/utils/validateExamPaper.ts:126-161 | reference-answer checks report only reference-answer problems |
| ValidateExamPaper.ChoiceProblems | src/utils/validateExamPaper.ts:105-124 | the too-few-options issue appears exactly for a missing or short options array |
| ExamStore.NextPosition | src/store/examStore.ts:87-103 | the section of the next position stays in the paper and is at most one section forward; the move is undefined only for a section index outside the paper (the question index can leave the paper when the next section is empty) |
| ExamStore.PrevPosition | src/store/examStore.ts:105-124 | from a section of the paper the section of the previous position stays in the paper; within the same section it is one question back, or the start (the question index can be -1 when the previous section is empty) |
| ExamStore.NavigationStaysInPaper | src/store/examStore.ts:87-124 | when no section is empty, both moves from a position in the paper give a position in the paper |
| ExamStore.PrevUndoesNext | src/store/examStore.ts:87-124 | stepping back after a step forward returns to the same question, unless the forward step did not move (the last question of the last section) |
| ExamStore.NextUndoesPrev | src/store/examStore.ts:87-124 | stepping forward after a step back returns to the same question, except at the start |
| ExamStore.NavigationEnds | src/store/examStore.ts:87-124 | next at the last question and previous at the first question stay put |
| ExamStore.IsCandidate | src/store/examStore.ts:153-160 | a question with a non-empty stored answer whose type is graded by the AI; `Candidates` states the list it selects |
| ExamStore.Candidates | src/store/examStore.ts:153-160 | candidates are exactly the answered short-answer and calculation questions and the answered coding questions without reference |
| ExamStore.PendingOnly | src/store/examStore.ts:162-164 | the regrade-free filter keeps exactly the questions whose grade is pending |
| ExamStore.ToGrade | src/store/examStore.ts:162-164 | every candidate when regrading, otherwise the pending ones; `ToGradeWithoutRegrade` states the latter as the candidates without an AI grade |
| ExamStore.ToGradeWithoutRegrade | src/store/examStore.ts:153-164 | without regrade the targets are exactly the candidates with no AI grade yet |
| ExamStore.ResultById | src/store/examStore.ts:195 | the results keyed by question id; `ResultByIdKeys` and `ResultByIdLastWins` state its keys and which result a repeated id keeps |
| ExamStore.ResultByIdKeys | src/store/examStore.ts:195 | the result map holds exactly the ids of the returned results |
| ExamStore.ResultByIdLastWins | src/store/examStore.ts:195 | with duplicate ids the last result wins |
| ExamStore.Merge | src/store/examStore.ts:197-216 | the merged answers and graded count; `MergeEntries`, `MergeKeepsAnswers` and `MergeCount` state them |
| ExamStore.MergeEntries | src/store/examStore.ts:197-216 | the merge keeps the answer keys and attaches a grade to exactly the targeted answers that have a result; the others are unchanged |
| ExamStore.MergeCount | src/store/examStore.ts:197-216 | `graded` is the number of targeted questions that have both an answer and a result |
| ExamStore.MergeResults | src/store/examStore.ts:197-216 | the merge loop computes the merged answers and count |
| ExamStore.AiOutcome | src/store/examStore.ts:170-191 | the run succeeds exactly when the health check reports a configuration and the grade request succeeds; a health failure or a missing configuration is the thrown message |
| ExamStore.AnswersAfterSet | src/store/examStore.ts:60-77 | the stored answers after `setAnswer`; `SetAnswerEffect` states which entry changes and how |
| ExamStore.SetAnswerEffect | src/store/examStore.ts:60-77 | with no paper, after submission or for an unknown id nothing changes; otherwise an empty answer deletes the entry and another stores a fresh entry without AI grade; no other entry changes |
| ExamStore.AnsweredCountOfWellKeyed | src/store/examStore.ts:75 | the stored answers are all non-empty, so the answered count is their number |
| ExamStore.GradeRun | src/store/examStore.ts:147-229 | a finished run never leaves the status at grading unless it was already |
| ExamStore.GradeRunNoOp | src/store/examStore.ts:150-166 | with no paper, before submission or with nothing to grade the run returns 0 and changes nothing |
| ExamStore.GradeRunStarted | src/store/examStore.ts:168-228 | with targets, a failure sets error status and the message and rethrows; success stores the merged answers with done status and no error |
| ExamStore.MergeKeepsAnswers | src/store/examStore.ts:206-214 | merging keeps every answer's id and answer value, and the key set |
| ExamStore.GradeRunEffect | src/store/examStore.ts:147-229 | a run keeps answer ids and values; once it has targets it ends done or error, error exactly when it throws |
| ExamStore.ExamState.constructor | src/store/examStore.ts:37-45 | the initial store: no paper, no answers, indices 0, not submitted, idle |
| ExamStore.ExamState.SetExamPaper | src/store/examStore.ts:47-58 | loading a paper clears answers, counts, indices, submission, status and error |
| ExamStore.ExamState.SetAnswer | src/store/examStore.ts:60-77 | the answers become those described by `AnswersAfterSet`, the count follows them, and nothing else changes |
| ExamStore.ExamState.SetCurrentQuestion | src/store/examStore.ts:83-85 | sets the indices as given and nothing else |
| ExamStore.ExamState.NextQuestion | src/store/examStore.ts:87-103 | moves to the next position; a section index outside the paper is the thrown index error |
| ExamStore.ExamState.PrevQuestion | src/store/examStore.ts:105-124 | moves to the previous position; stepping back into a section index the paper does not have is the thrown index error |
| ExamStore.ExamState.Submit | src/store/examStore.ts:126-130 | marks the exam submitted when a paper is loaded, and nothing else |
| ExamStore.ExamState.Reset | src/store/examStore.ts:132-145 | with a paper it clears the answering state and keeps the paper; without one it does nothing |
| ExamStore.ExamState.CurrentQuestion | src/store/examStore.ts:236-240 | there is a current question exactly when the indices are inside the paper, and it is one of the paper's questions |
| ExamStore.ExamState.GradeWithAI | src/store/examStore.ts:147-229 | the new answers, count, status, error and thrown message are those of the grading run, and the paper, indices and submission are unchanged |
| AiServer.ClampScore | server/index.js:9-16 | a non-finite value or maximum gives 0; otherwise it agrees with the client's clamp |
| AiServer.ClampScoreRange | server/index.js:9-16 | for a maximum of whole hundredths the result lies in [0, max], and a value above it gives exactly the maximum |
| AiServer.BraceSlice | server/index.js:32-35 | a slice exists exactly when there is a `{` and a later `}` |
| AiServer.BraceSliceBounds | server/index.js:32-35 | the slice runs from the first `{` to the last `}` inclusive |
| AiServer.NoBraceSlice | server/index.js:32-38 | text without `{` or without `}` has no slice |
| AiServer.ParseJsonFromModel | server/index.js:25-26 | a missing or non-string content is the "empty content" error |
| AiServer.ParseOrder | server/index.js:27-39 | the trimmed text is parsed first; only on failure is the brace slice parsed, and without a slice it is the "cannot parse" error |
| AiServer.SelectModel | server/index.js:51 | a non-blank requested model is used trimmed; otherwise the configured one |
| AiServer.HealthImpliesConfigured | server/index.js:42-57 | when health reports a configuration, the grade handler passes its configuration check |
| AiServer.ItemProblem | server/index.js:65-74 | an item has no problem exactly when it is an object with a non-blank id and a finite, non-negative `maxScore` |
| AiServer.MaxScores | server/index.js:64-76 | the map of maxima by id, or the first invalid item's message; `MaxScoresOutcome`, `MaxScoresKeys` and `MaxScoresLastValue` state its outcome, keys and values |
| AiServer.BuildMaxScoreById | server/index.js:64-76 | the loop computes the map of maxima, or the first item's problem |
| AiServer.MaxScoresOutcome | server/index.js:64-76 | the map is built exactly when every item is valid; otherwise the error is the problem of the first invalid item |
| AiServer.MaxScoresFailurePersists | server/index.js:65-74 | once an item fails, the later items do not matter |
| AiServer.MaxScoresKeys | server/index.js:64-76 | the map's keys are exactly the items' ids |
| AiServer.MaxScoresLastValue | server/index.js:75 | an id maps to the maximum of its last item |
| AiServer.MaxScoresLastWins | server/index.js:64-76 | a built map implies every item was valid, its keys are the ids, and duplicates take the last item's maximum |
| AiServer.ShouldRetry | server/index.js:140 | a refused reply with status 400 whose body mentions `response_format`; `Exchange` states that exactly this triggers the second request |
| AiServer.Exchange | server/index.js:136-143 | at most two upstream requests; a second only when the first was refused with 400 naming `response_format`, and then its reply is the one used |
| AiServer.Sanitized | server/index.js:159-171 | never more results than items; `SanitizedIsClampedKept` states that it is the client's filter followed by the clamp |
| AiServer.SanitizeResults | server/index.js:159-171 | the loop computes the sanitised results |
| AiServer.SanitizedIsClampedKept | server/index.js:159-171 | sanitising is the client's filter followed by clamping each score against its id's maximum (0 when unknown), in order |
| AiServer.SanitizedScoresInRange | server/index.js:165-168 | every sanitised score lies between 0 and the maximum for its id |
| AiServer.SanitizedIdsNonBlank | server/index.js:162 | every sanitised result has a non-blank id |
| AiServer.ClientReadsServerResults | server/index.js:159-173 | the client's filter keeps every result the server sends, unchanged |
| AiServer.HealthJson | server/index.js:42-45 | the health body's `hasConfig` is true exactly when base URL, key and model are all set |
| AiServer.UpstreamReply | server/index.js:145-181 | the status is 200, 500 or 502, 200 exactly with results; an upstream refusal is 502 with the truncated body; a thrown error is 500 with its message |
| AiServer.FirstChoiceContent | server/index.js:152 | the content of the first choice's message, absent when `choices` is not a non-empty array or a link of the chain is missing; `UpstreamReplyAccepted` states that an absent content is the empty-content error |
| AiServer.UpstreamReplyAccepted | server/index.js:151-173 | for an accepted upstream reply: an unparseable body or model answer is 500, a model answer without `results` array is 502, otherwise 200 with the sanitised results |
| AiServer.GradeReply | server/index.js:47-185 | missing configuration is 500 before items are checked; missing, empty or invalid items are 400, and only they are; 200 exactly with results |
| AiServer.HandleGrade | server/index.js:47-185 | the handler replies as `GradeReply` describes |
| AiServer.HandleUpstream | server/index.js:136-181 | the upstream part of the handler replies as `UpstreamReply` describes |
| GradeWire.EncodeRoundTrip | src/utils/aiGradingApi.ts:102-113 | an encoded entry is read back as itself exactly when its id is not blank |
| GradeWire.KeptEncodeAll | src/utils/aiGradingApi.ts:102-113 | a list of entries with non-blank ids survives encoding and filtering unchanged |
| GradeWire.KeptIdsNonBlank | src/utils/aiGradingApi.ts:106 | every kept entry has a non-blank id |
| GradeWire.Usable | src/utils/aiGradingApi.ts:104-106 | an object whose `questionId` is a string that does not trim to empty and whose `score` is a finite number |
| GradeWire.Kept | src/utils/aiGradingApi.ts:102-113 | never more entries than items; `KeptExactly` states which it keeps |
| GradeWire.KeptExactly | src/utils/aiGradingApi.ts:102-113 | the filter keeps exactly the usable items: records with a non-blank string id and a finite numeric score |
| GradeWire.FeedbackOf | src/utils/aiGradingApi.ts:111 | feedback is kept exactly when it is a string |
| AiGradingApi.ErrorField | src/utils/aiGradingApi.ts:91-94 | the body's `error` is used exactly when the body is an object with a string `error` |
| AiGradingApi.GradeFailure | src/utils/aiGradingApi.ts:87-96 | a 5xx reply with a blank body means the server is not running; otherwise the body's `error` is reported when present |
| AiGradingApi.ModelOf | src/utils/aiGradingApi.ts:115-118 | `model` is kept exactly when it is a string |
| AiGradingApi.GradesOf | src/utils/aiGradingApi.ts:67-119 | a fetch error propagates; a refused reply fails with `GradeFailure`; an accepted reply that is not an object with a `results` array is the bad-format error; success returns the body's string `model` and the usable entries |
| AiGradingApi.FilterResults | src/utils/aiGradingApi.ts:102-113 | the filter loop returns the usable entries in order, scores unchanged |
| AiGradingApi.RequestAiGrades | src/utils/aiGradingApi.ts:78-118 | the client computes what `GradesOf` describes |
| AiGradingApi.ReplyRoundTrip | src/utils/aiGradingApi.ts:78-118 | a server reply is read back as sent: model and results on 200, the `error` message otherwise |
| AiGradingApi.GradeRoundTrip | src/utils/aiGradingApi.ts:67-119 | whatever the grade endpoint replies, the client reports it faithfully |
| AiGradingApi.ConnectionRefused | src/utils/aiGradingApi.ts:53-55 | the body mentions `ECONNREFUSED` or `socket hang up` in any ASCII letter case; `HealthOf` states that a refused check whose body matches is the cannot-connect message |
| AiGradingApi.HealthOf | src/utils/aiGradingApi.ts:32-65 | an unreachable server fails with its message; a refused reply is cannot-connect when it is 5xx with a blank body or mentions a refused connection, and otherwise fails with the body's `error` or the HTTP-status message; success is exactly an ok reply, and `hasConfig` is true exactly when the body's flag is the boolean true |
| AiGradingApi.HealthRoundTrip | src/utils/aiGradingApi.ts:63-64 | the client's `hasConfig` is the server's |
| FillInBlank.BlankCount | src/components/AnswerInputs/FillInBlank.tsx:12-14 | an array reference gives its length; a scalar gives the number of `___` occurrences in the content |
| FillInBlank.ScalarBlanks | src/components/AnswerInputs/FillInBlank.tsx:14 | for a scalar the count is positive exactly when the content contains `___`, is one less than the number of split parts, and the parts join back to the content |
| FillInBlank.HandleChange | src/components/AnswerInputs/FillInBlank.tsx:16-20 | the new array starts from the value, or blank strings when the value is empty; its length is max(base length, index + 1), position `index` holds the input, and every other position keeps its prior value (`""` past the end) |
| QuestionCard.LabelToValue | src/components/QuestionCard.tsx:13-15 | option values by normalised label; `LabelToValueLastWins` states its keys and values |
| QuestionCard.LabelToValueLastWins | src/components/QuestionCard.tsx:13-15 | the lookup has exactly the normalised option labels, each mapped to the value of the last option with that label |
| QuestionCard.FormatLabel | src/components/QuestionCard.tsx:19-21 | the part starts with the original label, and differs from it exactly when the normalised label has an option with a non-empty value |
| QuestionCard.FormattedPartsSpec | src/components/QuestionCard.tsx:12-24 | each part is the label followed by the value of the last matching option, or the label alone when none matches or the value is empty |
| QuestionCard.FormattedParts | src/components/QuestionCard.tsx:17-22 | one part per input label |
| QuestionCard.FormatChoiceLabels | src/components/QuestionCard.tsx:12-24 | the formatted parts joined by `, `; `FormattedPartsSpec` and `NoOptionsNoChange` state what each part is |
| QuestionCard.NoOptionsNoChange | src/components/QuestionCard.tsx:12-24 | without options the labels are shown as given, joined by `, ` |
| QuestionCard.CorrectAnswerText | src/components/QuestionCard.tsx:121-133 | single choice and true/false format the stringified reference; multiple choice formats each element, or the scalar as one label; other types join arrays with a spaced vertical bar or show the string |
| QuestionCard.ChoiceTextStartsWithLabel | src/components/QuestionCard.tsx:121-133 | the reference line of a single-choice or true/false question starts with the reference label as written |

## Left out

- Network, process and timing plumbing of the server: `fetch`, `AbortController` and the timeout timer, express routing, `app.listen`, logging, `getEnv` (the environment is a parameter) and `joinUrl`, which relies on `new URL`. A timeout is an error variant of the upstream exchange.
- The prompt text sent to the model (server/index.js:78-106) and the request payloads built by `requestAiGrades` and `gradeWithAI` (src/utils/aiGradingApi.ts:67-76, src/store/examStore.ts:175-191): the model does not depend on what is sent, only on the replies.
- The `找不到题目` throw inside `gradeWithAI`'s payload builder (src/store/examStore.ts:178-180) cannot fire, because every target was selected for having an answer.
- The `AI 批改失败` fallback for a thrown value that is not an `Error` (src/store/examStore.ts:225): every failure in the model is a message.
- JSON lexing and printing: `JSON.parse` is an uninterpreted parameter, and `JSON.stringify` is modelled only by the objects it writes.
- IEEE floating point: scores are exact reals, and `Math.round` ties and float error are not modelled.
- UTF-16: strings are sequences of Unicode scalar values, not UTF-16 code units, so `text.slice(0, 2000)` (server/index.js:147) cuts a body holding characters outside the Basic Multilingual Plane at a different place than `Prefix(text, 2000)` in `AiServer.UpstreamError` does, and it can split a surrogate pair where the model cannot.
- Unicode case mapping: `toUpperCase`/`toLowerCase` change only the ASCII letters. White space for `trim` is the full ECMAScript set.
- Asynchrony and the store's subscription mechanics: `gradeWithAI` is one step taking the health result, the grade response and the timestamp as inputs. The intermediate `grading` status is visible only as a precondition of the run.
- `setViewMode`/`viewMode` and `getAllQuestions` (src/store/examStore.ts:79-81, 231-234), which only store or forward values; the flattening itself is `ExamTypes.AllQuestions`.
- `isAutoGradableType` (src/utils/grading.ts:29-31), which the modelled code does not call.
- Persistence (src/utils/persistence.ts) and all React rendering.
- The health reply's constant `ok` field. The `isCorrect` and `score` fields of a stored answer, which the core never writes.
- `ExamPaperValidationError` as a class: it is a value carrying the issues and the message.
- Grading.ClampScoreRange: the bound `score <= maxScore` is proved only for a maximum that is a whole number of hundredths, because rounding can exceed other maxima (see `Grading.ClampScoreOvershoot`).
- AiServer.ClampScoreRange: proved for maxima of whole hundredths only, for the same reason.
- AiServer.SanitizedScoresInRange: requires every maximum in the map to be whole hundredths, for the same reason.
- Grading.GradeScoreRange: requires the question's score to be whole hundredths, for the same reason.
- Grading.ProportionalRange: requires maxScore to be non-negative whole hundredths, because rounding can exceed other maxima (`Proportional(1, 1, 0.005)` is `0.01`).
- Grading.CurrentScoreWithinAutoTotal: requires every question's score to be non-negative whole hundredths, for the same reason (a question worth 0.005 with an AI score of 0.005 gives a current score of 0.01 against a total of 0.005).
- Grading.StatsBounds: requires every question's score to be non-negative whole hundredths.
- ExamStore.MergeCount: the count is proved as the size of an intersection only for targets with distinct question ids; with duplicates the loop counts a repeated id twice.
