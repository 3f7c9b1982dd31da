# intelliview — a Dafny model of the interview and English-practice core

intelliview runs adaptive technical interviews. A candidate configures a session on the setup
page: a role, a topic list or an uploaded resume, a difficulty, and a question count or a time
limit. The server asks the Gemini model for one question at a time. It does not repeat a
question already asked in the session, and it may focus on topics where the candidate scored
under 6. Each answer is scored by the model and stored together with its evaluation. At the end
a report is built once from the scored main questions: the overall score, per-topic means sorted
from worst to best, strengths, weaknesses and improvement tips. The report is stored, and the
session is marked completed.

An English-conversation practice mode follows the same pattern. Each user message is corrected,
and a running fluency mean is kept. The English report route serves a stored report together
with the user/AI message pairs.

The model covers these parts:

- **Wrappers, Text**: `Option`, the request-field states `Field` (absent / `null` / present), the
  route reply `Reply` (a value or an HTTP status with its message), and the JavaScript string
  operations the routes rely on:
  - `trim`;
  - `slice`;
  - ASCII `toLowerCase`/`toUpperCase`;
  - `[...new Set(xs)]`;
  - `String(n)`;
  - `padStart(2, "0")`;
  - rounding of a mean to tenths.
- **Schemas**: the four response shapes of the AI model, as zod checks them, each with a
  parse/render round trip.
- **Generation**: `generateJSON`. It cleans markdown fences from the reply and retries a bounded
  number of times. The model call is a parameter.
- **ResumeParser**: the clean-up chain of `extractPdfText`, which the upload route repeats.
- **Prompts**: the resume, next-question and evaluation prompt builders, modelled as templates
  assembled from pieces.
- **Config**: the interview create route's request schema and its mode-specific checks.
- **Scoring**:
  - the per-topic score map;
  - the weak-topic rule of the next-question route;
  - the report computation of the report route;
  - the stable sort by rounded mean.
- **Interview**: the interview tables (sessions, questions, answers with evaluations, reports,
  resumes) as the class `InterviewStore`, whose methods are these routes:
  - `create`;
  - `next-question`;
  - `submit-answer`;
  - `report`;
  - `resume/upload`.

  Each route is also a function on a database value. The session view is a read-only function.
- **English**: the English tables as the class `EnglishStore`, whose methods are the routes
  `english/create`, `english/message` and `english/report`.
- **Setup, TopicTags, Countdown, ExpiryModal**:
  - the setup page's submit handler and request body;
  - the topic tag input;
  - the countdown clock;
  - the time's-up modal.

  Each is a class whose fields are the component's state.

Every AI call is a function parameter: `generate`, `evaluate`, `analyse`, `coach` and `opening`.
So are `JSON.stringify` of a profile (`stringify`), the PDF text extraction (`extracted`), and
whether the session-status write of the report route fails (`statusUpdateFails`). Request bodies
are records of optional fields. A missing or `null` id is `None`. An id the route only tests for
truth (`!sessionId`) is also `None` when empty. An id the route stores (`resumeId` on create,
`parentQuestionId` on next-question) is an `IdText`: `Blank` for the empty string, `Named(k)` otherwise. Database ids are
positions in append-only tables. Means and rounded scores are integers in tenths.

## Model

| member | source | states |
|---|---|---|
| Text.Trim | src/app/api/interview/submit-answer/route.ts:36-43 | `trim()` removes exactly the leading and trailing white space and leaves a string with no white space at either end |
| Text.TrimEmptyIffAllSpace | src/app/api/interview/create/route.ts:48 | a value is blank under `!x?.trim()` exactly when it is made only of white space |
| Text.Prefix | src/app/api/resume/upload/route.ts:85 | `slice(0, n)` is the first `min(n, length)` elements |
| Text.Utf16Length | src/app/api/interview/submit-answer/route.ts:43 | a string's JavaScript `length`, in UTF-16 code units, lies between its number of characters and twice that, and is 0 only for the empty string |
| Text.Utf16PrefixSpec | src/app/api/interview/next-question/route.ts:157 | `slice(0, n)` cut at a character boundary is the longest prefix of at most `n` code units |
| Text.Utf16PrefixCommon | src/lib/ai/prompts.ts:179 | two strings that agree on a common beginning of at least `n` code units have the same cut at `n` |
| Text.Utf16LengthBmp | src/app/api/resume/upload/route.ts:63 | for text without characters beyond U+FFFF, code units and characters count the same |
| Text.Utf16PrefixBmp | src/app/api/resume/upload/route.ts:85 | for text without characters beyond U+FFFF, the code-unit cut is the character cut |
| Text.Suffix | src/app/api/interview/next-question/route.ts:124 | `slice(-n)` is the last `min(n, length)` elements |
| Text.Distinct | src/app/api/interview/report/route.ts:112-113 | `[...new Set(xs)]` has no duplicates and exactly the elements of `xs` |
| Text.DistinctFirstSeenOrder | src/app/api/interview/report/route.ts:112-113 | the distinct elements come out in the order of their first occurrence |
| Text.NatToStringRoundTrip | src/components/interview/CountdownTimer.tsx:52 | `String(n)` read back as decimal digits is `n` |
| Text.PadTwo | src/components/interview/CountdownTimer.tsx:52 | `padStart(2, "0")` pads to two characters with leading zeros and leaves longer strings alone |
| Text.RoundedTenths | src/app/api/interview/report/route.ts:95 | `Math.round(mean * 10)` in tenths is the unique `t` with `t - 0.5 <= 10 * mean < t + 0.5`, with halves rounded up |
| Text.RoundedMeanBounds | src/app/api/interview/report/route.ts:127 | the rounded mean of values in `[lo, hi]` lies in `[10 lo, 10 hi]` tenths |
| Text.TrimTemplate | src/lib/ai/prompts.ts:108-145 | trimming a template that starts and ends with a newline removes only those two newlines when the inner text has no white space at its edges |
| Schemas.ParseConfidence | src/lib/ai/schemas.ts:45 | exactly "low", "medium" and "high" are accepted, and each renders back to itself |
| Schemas.ParseLevel | src/lib/ai/schemas.ts:30 | exactly "easy", "medium" and "hard" are accepted, and each renders back to itself |
| Schemas.ParseLevelCode | src/app/api/interview/create/route.ts:11 | exactly "EASY", "MEDIUM" and "HARD" are accepted, and each renders back to itself |
| Schemas.ParseExperience | src/lib/ai/schemas.ts:21 | exactly "junior", "mid" and "senior" are accepted, and each renders back to itself |
| Schemas.ParseQuestion | src/lib/ai/schemas.ts:27-34 | a question is accepted exactly when its text has at least 10 UTF-16 code units, its difficulty is known, it has 2..8 expected points and 1..4 follow-up triggers; an accepted question renders back to its input |
| Schemas.QuestionRoundTrip | src/lib/ai/schemas.ts:27-34 | every valid question survives render then parse unchanged |
| Schemas.ParseEvaluation | src/lib/ai/schemas.ts:39-46 | an evaluation is accepted exactly when its score is an integer in 0..10, its feedback has at least 10 UTF-16 code units, `nextFocusTopic` is a string or null and its confidence is known; an accepted one renders back to its input |
| Schemas.EvaluationRoundTrip | src/lib/ai/schemas.ts:39-46 | every valid evaluation survives render then parse unchanged |
| Schemas.ParseProfile | src/lib/ai/schemas.ts:4-22 | a resume profile is accepted exactly when its `name` key is present (a string or null), it has at least one target role, 1..10 focus topics and an experience level of junior, mid or senior; an accepted one renders back to its input |
| Schemas.ProfileRoundTrip | src/lib/ai/schemas.ts:4-22 | every valid profile survives render then parse unchanged |
| Schemas.ParseEnglishResponse | src/lib/ai/schemas.ts:51-73 | a coach response is accepted exactly when its reply is non-empty, its fluency score is an integer in 0..10, and the `rephrasedVersion` and `toneIssue` keys are both present (each a string or null); an accepted one renders back to its input |
| Schemas.EnglishResponseRoundTrip | src/lib/ai/schemas.ts:51-73 | every valid coach response survives render then parse unchanged |
| Schemas.ParseOpening | src/app/api/english/create/route.ts:15-17 | an opening message is accepted exactly when it is non-empty |
| Generation.Clean | src/lib/ai/gemini.ts:26-30 | the cleaned reply has no white space at either end |
| Generation.StripCloseFenceAtMatch | src/lib/ai/gemini.ts:29 | where the closing-fence pattern matches, everything from the match on is removed |
| Generation.StripCloseFenceNoMatch | src/lib/ai/gemini.ts:29 | where the closing-fence pattern matches nowhere, nothing is removed |
| Generation.CleanPlainText | src/lib/ai/gemini.ts:26-30 | a reply without fences is only trimmed |
| Generation.CleanFencedReply | src/lib/ai/gemini.ts:26-30 | a reply wrapped in a fence tagged json (in any letter case) with white-space padding is cleaned to exactly its body |
| Generation.CleanUntaggedFence | src/lib/ai/gemini.ts:26-30 | a JSON object or array wrapped in a bare fence with white-space padding is cleaned to exactly its body |
| Generation.GenerateJson | src/lib/ai/gemini.ts:15-43 | the retry loop returns the outcome of the first attempt that parses and passes the schema, and counts the calls it made |
| Generation.RetryFromOutcome | src/lib/ai/gemini.ts:20-42 | the loop makes between 1 and `retries + 1` calls, every call before the last failed, the result is the last call's, and a failure means that every call was made |
| Generation.GenerateJsonDefault | src/lib/ai/gemini.ts:18 | the default of one retry makes one or two calls and fails exactly when both attempts fail |
| ResumeParser.CollapseSpace | src/lib/resume/parser.ts:6 | every run of white space becomes one space: the result has no white space other than single spaces between other characters |
| ResumeParser.CollapseKeepsText | src/lib/resume/parser.ts:6 | the collapse keeps every character that is not white space, in order |
| ResumeParser.FilterAscii | src/lib/resume/parser.ts:7 | only printable ASCII and newline survive, taken from the input |
| ResumeParser.FilterAppend | src/lib/resume/parser.ts:7 | the filter works character by character: it distributes over concatenation |
| ResumeParser.CleanText | src/lib/resume/parser.ts:5-8 | the cleaned text is no longer than its input, printable and trimmed |
| ResumeParser.CleanTextFixpoint | src/lib/resume/parser.ts:5-8 | text that is printable, trimmed and has no double space is left unchanged |
| ResumeParser.CleanTextCodeUnits | src/lib/resume/parser.ts:5-8 | cleaned text is ASCII, so its `length` and its `slice` cuts count characters |
| ResumeParser.CleanTextNotIdempotent | src/lib/resume/parser.ts:5-8 | cleaning is not idempotent: a non-ASCII character between two spaces leaves a double space that a second pass would collapse |
| Prompts.BuildResumeProfilePrompt | src/lib/ai/prompts.ts:6-49 | the prompt is the template's pieces joined, the trim removing only the template's own newlines |
| Prompts.ResumePromptEmbedsText | src/lib/ai/prompts.ts:14 | the first 6000 characters of the resume text occur in the prompt (the text is cleaned ASCII, so characters are code units) |
| Prompts.ResumePromptTruncation | src/lib/ai/prompts.ts:14 | resume texts that agree on their first 6000 characters give the same prompt |
| Prompts.ContextBlock | src/lib/ai/prompts.ts:69-77 | the context holds the profile for a RESUME session that has one, the role for ROLE, and the topic list otherwise (RESUME without a profile included) |
| Prompts.WeaknessBlock | src/lib/ai/prompts.ts:80-86 | the weakness block is present exactly when weak areas are focused and some topic is weak, and it names every weak topic |
| Prompts.FollowUpBlock | src/lib/ai/prompts.ts:89-98 | the follow-up block is present exactly for a follow-up and quotes the parent text ("undefined" when there is none) |
| Prompts.DedupBlock | src/lib/ai/prompts.ts:101-106 | the dedup block is empty exactly when nothing was asked, and otherwise lists every earlier fingerprint quoted and numbered from 1 |
| Prompts.BuildNextQuestionPrompt | src/lib/ai/prompts.ts:108-145 | the prompt is the fixed text and the four blocks in order, with the progress line and the difficulty in upper case |
| Prompts.UpperLevelName | src/lib/ai/prompts.ts:118 | upper-casing a difficulty name gives its database code |
| Prompts.PerformanceBlock | src/lib/ai/prompts.ts:159-163 | the performance block is the first-question sentence exactly when there are no earlier scores, and otherwise shows each as `- topic: score/10` |
| Prompts.PointsBlock | src/lib/ai/prompts.ts:175 | every expected point appears, numbered from 1 in order |
| Prompts.BuildEvaluationPrompt | src/lib/ai/prompts.ts:165-215 | the prompt is the template's pieces joined, with the answer cut to 2000 UTF-16 code units |
| Prompts.EvaluationPromptTruncation | src/lib/ai/prompts.ts:179 | answers that agree on a common beginning of at least 2000 UTF-16 code units give the same prompt |
| Prompts.StatedConfidence | src/lib/ai/prompts.ts:192-195 | the stated confidence rule: low exactly for a score of at most 4 or an answer under 50 characters, high exactly for a score of at least 8 and an answer of at least 50 characters, medium otherwise |
| Prompts.ConfidenceRuleNotEnforced | src/lib/ai/schemas.ts:45 | the schema accepts an evaluation whose confidence contradicts the stated rule |
| Config.ParseMode | src/app/api/interview/create/route.ts:9 | exactly "ROLE", "TOPICS" and "RESUME" are modes |
| Config.ParseCreate | src/app/api/interview/create/route.ts:8-18 | the body passes the schema exactly when the mode is present and one of ROLE, TOPICS or RESUME; topics, difficulty, noRepeats and focusWeakAreas are absent or given but never null; a given difficulty is EASY, MEDIUM or HARD; and a given question count is in 1..30 and a given time limit in 5..120, either of which may be null; the parsed data fills in the defaults MEDIUM, noRepeats and no focus |
| Config.CheckCreate | src/app/api/interview/create/route.ts:37-73 | a body is accepted exactly when it parses, its mode's input is present (a non-blank role, a topic, a non-empty resume id) and a question count or time limit is given; an accepted body yields the parsed data |
| Config.BothLimitsAccepted | src/app/api/interview/create/route.ts:67-73 | a body with both a question count and a time limit is accepted |
| Scoring.ScoresOfEmpty | src/app/api/interview/next-question/route.ts:98-102 | a topic has scores in the map exactly when some evaluation is on that topic |
| Scoring.Groups | src/app/api/interview/report/route.ts:84-89 | the map has one entry per distinct topic, in first-seen order, holding that topic's scores in order |
| Scoring.GroupsSnoc | src/app/api/interview/report/route.ts:86-88 | one more evaluation extends its topic's entry, or appends a new entry when the topic is new |
| Scoring.GroupScores | src/app/api/interview/report/route.ts:84-89 | the map-building loop computes exactly the entries above |
| Scoring.GroupsCount | src/app/api/interview/report/route.ts:84-89 | every evaluation lands in exactly one entry: the entry sizes add up to the number of evaluations |
| Scoring.WeakTopicsSpec | src/app/api/interview/next-question/route.ts:104-108 | a topic is weak exactly when it was scored and its mean is below 6; the weak list has no duplicates |
| Scoring.CollectWeakTopics | src/app/api/interview/next-question/route.ts:98-108 | the route's two loops compute exactly the weak topics |
| Scoring.TotalOfTopicScores | src/app/api/interview/report/route.ts:91-99 | the question counts of the topic scores add up to the scores in the map |
| Scoring.SortByAvgSorted | src/app/api/interview/report/route.ts:102 | the topic scores come out ordered from lowest to highest rounded mean |
| Scoring.SortByAvgKeeps | src/app/api/interview/report/route.ts:102 | the sort is a permutation of the topic scores |
| Scoring.SortByAvgStable | src/app/api/interview/report/route.ts:102 | the sort is stable: entries with the same rounded mean keep their order |
| Scoring.FirstSixSpec | src/app/api/interview/report/route.ts:105-113 | exactly the first `min(6, n)` of the `n` distinct entries: none twice, each from some evaluation's list, in first-seen order, no entry first seen before a kept one dropped, and all of them when there are at most six |
| Scoring.Tip | src/app/api/interview/report/route.ts:117-121 | each tip names its topic |
| Scoring.WeakEntriesSpec | src/app/api/interview/report/route.ts:116 | exactly the entries whose rounded mean is under 6.0 are weak |
| Scoring.ReportScoreBounds | src/app/api/interview/report/route.ts:79-99 | the overall score and every topic mean lie in 0.0..10.0 |
| Scoring.ReportTopicOrder | src/app/api/interview/report/route.ts:84-102 | the topic scores are sorted by mean, one per distinct topic, and their counts add up to the number of scored questions |
| Scoring.ReportTopicEntries | src/app/api/interview/report/route.ts:91-99 | each topic entry is a scored topic with its count and its rounded mean |
| Scoring.ReportTips | src/app/api/interview/report/route.ts:116-121 | one tip per topic under 6.0, in sorted order, each naming its topic, and no tip at all when no topic is under 6.0 |
| Scoring.FirstSeenKept | src/app/api/interview/report/route.ts:112-113 | in a first-seen listing of distinct entries, an entry first seen before one of the first `n` listed is itself among them |
| Scoring.ReportStrengths | src/app/api/interview/report/route.ts:105-113 | strengths and weaknesses are each the first `min(6, n)` distinct entries of the scored evaluations' lists, in first-seen order, with none first seen before a kept one dropped, each from some scored evaluation, and all of them when there are at most six |
| Scoring.WeakThresholdsDiffer | src/app/api/interview/report/route.ts:116 | the report's threshold (rounded mean under 6.0) differs from the next-question route's (mean under 6): a mean of 5.95 is weak for one and not for the other |
| Interview.SessionQuestions | src/app/api/interview/next-question/route.ts:43-50 | a session's questions are exactly its rows, in creation order |
| Interview.Fingerprints | src/app/api/interview/next-question/route.ts:86-88 | `askedQuestions` holds exactly the stored fingerprints of the session's questions |
| Interview.AnswerOf | src/app/api/interview/submit-answer/route.ts:69-71 | the answer found belongs to the question, and none is found only when the question has none |
| Interview.AnsweredMainIsScored | src/app/api/interview/session/route.ts:54-56 | the answered main count equals the number of scored main questions, since an answer is never stored without its evaluation |
| Interview.TotalQuestions | src/app/api/interview/next-question/route.ts:78 | the question limit is `numQuestions`, or 10 when none is set, even in a time-limited session |
| Interview.CreateBlankResume | src/app/api/interview/create/route.ts:60-95 | an empty `resumeId` is refused with 400 in RESUME mode; in another mode an otherwise valid body stores it and fails the foreign key with 500; nothing is written either way |
| Interview.CreateStepSpec | src/app/api/interview/create/route.ts:37-104 | a rejected body gives 400 and a `resumeId` naming no resume, the empty one included, gives 500 (the session's foreign key fails), and neither writes; otherwise one session in progress is appended, owned by the caller, holding the parsed configuration |
| Interview.CreateKeepsValid | src/app/api/interview/create/route.ts:76-100 | creation keeps the tables valid, including that every session's resume exists |
| Interview.Fingerprint | src/app/api/interview/next-question/route.ts:154-157 | the fingerprint is a prefix of the lower-cased, trimmed text of at most 120 UTF-16 code units |
| Interview.FingerprintNormalises | src/app/api/interview/next-question/route.ts:154-157 | texts that differ only in ASCII letter case and white-space padding have the same fingerprint |
| Interview.DedupSpec | src/app/api/interview/next-question/route.ts:131-171 | a fresh question comes from the first attempt, or from the second after the first collided, and its fingerprint was never asked; a duplicate means both attempts collided |
| Interview.GenerateUnique | src/app/api/interview/next-question/route.ts:131-171 | the dedup loop computes exactly that outcome |
| Interview.BuildQuestionParams | src/app/api/interview/next-question/route.ts:91-149 | the prompt arguments are assembled from the session, with the weak topics collected by the route's loop |
| Interview.QuestionParamsWeakTopics | src/app/api/interview/next-question/route.ts:91-108 | the prompt's weak topics are those whose mean over all evaluated questions of the session, follow-ups included, is below 6, and there are none unless `focusWeakAreas` is set |
| Interview.NextQuestionGuards | src/app/api/interview/next-question/route.ts:30-67 | a missing, unknown, foreign or finished session is refused with 400, 403 or 404, whatever the model would generate, and nothing is written |
| Interview.NextQuestionDone | src/app/api/interview/next-question/route.ts:72-83 | a main-question request answers `done` with nothing written exactly when the answered main questions reach the limit; a follow-up request never does |
| Interview.NextQuestionBlankParent | src/app/api/interview/next-question/route.ts:112-184 | a follow-up with an empty `parentQuestionId` gets no parent text in its prompt, never has a question saved (409 or 500), and writes nothing |
| Interview.NextQuestionAppends | src/app/api/interview/next-question/route.ts:181-207 | only a new question writes: one row with the next order index, a fingerprint of its text not yet in the session, the follow-up flag as asked, and a parent only for a follow-up, an existing question (an empty or unknown parent fails the insert with 500); its number is the answered main count plus one |
| Interview.SaveQuestionAppends | src/app/api/interview/next-question/route.ts:165-207 | the insert writes only for a fresh question whose follow-up parent, when one is sent, is an existing question, and then appends exactly the new row as question number `number` |
| Interview.AppendQuestionKeepsValid | src/app/api/interview/next-question/route.ts:181-197 | appending a question with the next order index, a new fingerprint and an existing parent keeps the tables valid |
| Interview.NextQuestionKeepsValid | src/app/api/interview/next-question/route.ts:20-207 | the route keeps the tables valid |
| Interview.DenseOrder | src/app/api/interview/next-question/route.ts:195 | the order indexes of a session's questions are exactly 0, 1, ..., n-1 in creation order |
| Interview.OrderFollowsCreation | src/app/api/interview/next-question/route.ts:195 | of two questions of one session, the one created first has the smaller order index |
| Interview.PreviousScoresSpec | src/app/api/interview/submit-answer/route.ts:80-98 | the evaluator sees `min(3, n)` previous scores, newest first: the k-th is the topic and score of the (k+1)-th newest answer of the session named in the body |
| Interview.SubmitGuards | src/app/api/interview/submit-answer/route.ts:29-77 | a malformed request, an unknown or foreign question and an already answered question are refused with 400, 403, 404 or 409, whatever the evaluator says, and nothing is written |
| Interview.SubmitWritesOnce | src/app/api/interview/submit-answer/route.ts:101-138 | only a success writes: one answer row with the trimmed text (1..5000 UTF-16 code units) and the evaluator's verdict, for a question that had none; an answer is never overwritten |
| Interview.SubmitKeepsValid | src/app/api/interview/submit-answer/route.ts:117-136 | submission keeps the tables valid |
| Interview.FirstFollowUp | src/app/api/interview/report/route.ts:169 | `followUps[0]` is the first question naming this one as parent, and there is none only when no question does |
| Interview.MainQuestions | src/app/api/interview/report/route.ts:155-166 | the transcript's questions are exactly the session's main questions, in creation order |
| Interview.TranscriptOrder | src/app/api/interview/report/route.ts:165 | the transcript lists the main questions in increasing order index |
| Interview.TranscriptCovers | src/app/api/interview/report/route.ts:155-168 | every main question of the session has an item in the transcript |
| Interview.TranscriptEntries | src/app/api/interview/report/route.ts:168-217 | each item is a main question of the session; its evaluation is missing exactly when it has no answer, and its follow-up exactly when no question names it as parent |
| Interview.ReportStepSpec | src/app/api/interview/report/route.ts:47-143 | a stored report is returned unchanged; no scored main question gives 400; otherwise the report of the scored main questions is stored, then the session is marked completed, and when that second write fails the report stays stored |
| Interview.ReportKeepsValid | src/app/api/interview/report/route.ts:124-139 | the report route keeps the tables valid |
| Interview.ReadSessionSpec | src/app/api/interview/session/route.ts:54-67 | the view echoes the status and configuration, and its answered count is the scored main count; once that count reaches the limit, a main-question request answers `done` |
| Interview.UploadStepSpec | src/app/api/resume/upload/route.ts:30-93 | only a success writes: one resume row for a PDF of at most 5 MiB whose cleaned text has at least 100 characters, stored cut to 20000 characters, with the analysed profile; a refused file never reaches the analysis |
| Interview.UploadSizeLimit | src/app/api/resume/upload/route.ts:43-48 | a file of exactly 5 MiB passes the size check and one byte more does not |
| Interview.UploadKeepsValid | src/app/api/resume/upload/route.ts:81-88 | an upload keeps the tables valid |
| Interview.InterviewStore.constructor | src/app/api/interview/create/route.ts:76-100 | the store starts with empty tables, which are valid |
| Interview.InterviewStore.Create | src/app/api/interview/create/route.ts:20-112 | the create route on the store: the reply and the new tables are those of `CreateStep`, and the tables stay valid |
| Interview.InterviewStore.NextQuestion | src/app/api/interview/next-question/route.ts:20-207 | the next-question route on the store, with its dedup and weak-topic loops: reply and tables as `NextQuestionStep`, and the tables stay valid |
| Interview.InterviewStore.Ask | src/app/api/interview/next-question/route.ts:86-207 | the route past its session checks and count: prompt arguments, dedup loop and insert give the reply and tables of `AskQuestion` |
| Interview.InterviewStore.Save | src/app/api/interview/next-question/route.ts:165-207 | the end of the route: the reply to the dedup outcome and, for a fresh question with a resolvable parent, the one inserted row, as `SaveQuestion` |
| Interview.InterviewStore.SubmitAnswer | src/app/api/interview/submit-answer/route.ts:25-138 | the submit-answer route on the store: reply and tables as `SubmitStep`, and the tables stay valid |
| Interview.InterviewStore.GetReport | src/app/api/interview/report/route.ts:26-143 | the report route on the store, building the topic map by its loop: reply and tables as `ReportStep`, and the tables stay valid |
| Interview.InterviewStore.UploadResume | src/app/api/resume/upload/route.ts:27-93 | the upload route on the store: reply and tables as `UploadStep`, and the tables stay valid |
| English.ParseMode | src/app/api/english/create/route.ts:11 | exactly "FREE" and "SCENARIO" are modes |
| English.ParseTone | src/app/api/english/create/route.ts:12 | exactly "CASUAL" and "PROFESSIONAL" are levels |
| English.ParseCreate | src/app/api/english/create/route.ts:36-44 | the body is accepted exactly when both fields are present and valid |
| English.SessionMessages | src/app/api/english/report/route.ts:59-63 | a session's log holds only that session's messages |
| English.CreateStepSpec | src/app/api/english/create/route.ts:36-77 | an invalid body gives 400 and a failed generation writes nothing; otherwise one new session in progress, owned by the caller, whose log is exactly the non-empty AI opening at index 0, with every other log unchanged |
| English.AddSessionKeepsValid | src/app/api/english/create/route.ts:53-72 | adding a session with its AI opening at index 0 keeps every log dense |
| English.CreateKeepsValid | src/app/api/english/create/route.ts:53-72 | creation keeps the tables valid |
| English.History | src/app/api/english/message/route.ts:67-78 | the history is the 6 latest messages, oldest first, with role and content |
| English.FirstAi | src/app/api/english/message/route.ts:83-87 | the scenario is the content of the first AI message, and there is none only when the log has no AI message |
| English.MessageGuards | src/app/api/english/message/route.ts:29-64 | a refused request gives the same reply whatever the coach would say, and no failure writes anything |
| English.CoachRequestSpec | src/app/api/english/message/route.ts:66-103 | the coach sees the 6 latest messages oldest first and the trimmed message; in SCENARIO mode also the opening message, in FREE mode no scenario |
| English.MessageAppends | src/app/api/english/message/route.ts:108-142 | a success appends exactly the session's next two messages: the trimmed USER message (1..2000 UTF-16 code units) with its correction at index n, and the AI reply at n+1; every other log is unchanged |
| English.MessageKeepsValid | src/app/api/english/message/route.ts:108-142 | a message keeps the tables valid |
| English.RunningFluencySpec | src/app/api/english/message/route.ts:145-157 | `runningFluency` is the mean of all of the session's fluency scores, the new one included, rounded half up to tenths, and lies in 0..100 tenths |
| English.UserPositions | src/app/api/english/report/route.ts:67-69 | the USER messages' positions, ascending, and all of them |
| English.PairsFromSpec | src/app/api/english/report/route.ts:67-88 | the transcript has one pair per USER message, in log order |
| English.TranscriptSpec | src/app/api/english/report/route.ts:67-88 | in a session log each pair has its USER message's order index (never 0), text and correction, and as reply the next message when that is an AI message and "" otherwise; pairs are in increasing order index |
| English.PairTranscript | src/app/api/english/report/route.ts:66-88 | the transcript loop computes exactly those pairs |
| English.ReportOfSpec | src/app/api/english/report/route.ts:26-90 | a report is returned exactly for the caller's own session with a stored report, and it is the stored one; every other outcome is a 400, 403 or 404 |
| English.EnglishStore.constructor | src/app/api/english/create/route.ts:53-72 | the store starts with empty tables, which are valid |
| English.EnglishStore.Create | src/app/api/english/create/route.ts:19-77 | the create route on the store: reply and tables as `CreateStep`, and the tables stay valid |
| English.EnglishStore.PostMessage | src/app/api/english/message/route.ts:25-163 | the message route on the store: reply and tables as `MessageStep`, and the tables stay valid |
| English.EnglishStore.GetReport | src/app/api/english/report/route.ts:22-90 | the report route reads the store without changing it, building the transcript by its loop |
| Setup.DefaultFormValid | src/app/setup/page.tsx:56-63 | the defaults pass the schema: MEDIUM, a question limit of 10 (30 minutes if switched), no repeats, no weak-area focus |
| Setup.MissingInput | src/app/setup/page.tsx:73-84 | a toast is shown exactly when the mode's input is missing: a blank role, no topic, or no resume |
| Setup.RequestBodyShape | src/app/setup/page.tsx:91-102 | the body never carries both limits, nor the input of another mode |
| Setup.RequestBodyAccepted | src/app/setup/page.tsx:91-102 | a valid form with its mode input and its selected limit passes every check of the create route, which stores exactly the form's choices |
| Setup.EmptyLimitRefused | src/app/setup/page.tsx:96-98 | a selected limit left empty reaches the route without any limit and is refused there |
| Setup.SetupPage.constructor | src/app/setup/page.tsx:43-46 | the page starts in ROLE mode with no topics, no resume and nothing sent |
| Setup.SetupPage.OnSubmit | src/app/setup/page.tsx:71-118 | a missing mode input shows its toast and sends nothing; otherwise exactly one request is sent while `submitting` is set, success navigates to the session, a failure shows its message, and `submitting` is clear afterwards |
| TopicTags.Without | src/components/setup/TopicTagInput.tsx:27 | the filter keeps exactly the entries different from the topic |
| TopicTags.WithoutAppend | src/components/setup/TopicTagInput.tsx:27 | the filter keeps the order: it distributes over concatenation |
| TopicTags.WithoutAbsent | src/components/setup/TopicTagInput.tsx:27 | removing a topic that is not there changes nothing |
| TopicTags.WithoutLast | src/components/setup/TopicTagInput.tsx:35-36 | in a list without duplicates, removing its last entry drops exactly that entry |
| TopicTags.WithoutGood | src/components/setup/TopicTagInput.tsx:26-28 | removing keeps the tags distinct, trimmed and non-blank |
| TopicTags.TopicTagInput.constructor | src/components/setup/TopicTagInput.tsx:17 | the input starts empty over the given tags |
| TopicTags.TopicTagInput.SetInput | src/components/setup/TopicTagInput.tsx:61 | typing changes only the field |
| TopicTags.TopicTagInput.AddTopic | src/components/setup/TopicTagInput.tsx:19-24 | a blank or already present topic changes nothing; any other is trimmed and appended at the end, and the field is cleared; the tags stay distinct, trimmed and non-blank |
| TopicTags.TopicTagInput.RemoveTopic | src/components/setup/TopicTagInput.tsx:26-28 | every entry equal to the topic goes and the rest keep their order |
| TopicTags.TopicTagInput.KeyDown | src/components/setup/TopicTagInput.tsx:30-38 | Enter or comma adds the typed text; Backspace in an empty field removes exactly the last tag; other keys change nothing |
| TopicTags.TopicTagInput.Blur | src/components/setup/TopicTagInput.tsx:63 | leaving the field adds the typed text |
| Countdown.NextSecond | src/components/interview/CountdownTimer.tsx:27-33 | one tick never goes below 0, always decreases a positive value, and reaches 0 exactly from 1 or less |
| Countdown.AfterTicks | src/components/interview/CountdownTimer.tsx:26-34 | `n` ticks from `s` leave `max(s - n, 0)`: the clock reaches 0 after exactly `s` ticks |
| Countdown.ClockSpec | src/components/interview/CountdownTimer.tsx:39-52 | the clock shows at least two minute digits, a colon and two second digits, which read back as minutes and seconds recombining to the seconds left |
| Countdown.UrgentIffLastMinute | src/components/interview/CountdownTimer.tsx:41 | the clock is urgent exactly when it shows 01:00 or less |
| Countdown.CountdownTimer.constructor | src/components/interview/CountdownTimer.tsx:15-25 | the timer starts at `totalMins * 60`, and a zero start calls `onExpire` at once |
| Countdown.CountdownTimer.Effect | src/components/interview/CountdownTimer.tsx:21-37 | at 0 the effect calls `onExpire` and schedules nothing; otherwise it starts an interval |
| Countdown.CountdownTimer.Tick | src/components/interview/CountdownTimer.tsx:26-37 | a tick follows `NextSecond`, and `onExpire` is called once, on the tick that reaches 0 |
| ExpiryModal.TimerExpiredModal.constructor | src/components/interview/TimerExpiredModal.tsx:25 | the modal starts with 30 seconds |
| ExpiryModal.TimerExpiredModal.SetOpen | src/components/interview/TimerExpiredModal.tsx:27-45 | closing resets to 30 seconds and stops the interval; opening starts it from 30 |
| ExpiryModal.TimerExpiredModal.Tick | src/components/interview/TimerExpiredModal.tsx:33-42 | a tick follows `NextSecond`, and the tick reaching 0 stops the interval and calls `onForceEnd` once |
| ExpiryModal.TimerExpiredModal.SubmitNow | src/components/interview/TimerExpiredModal.tsx:68-74 | "Submit Now" can be clicked only above 0 and calls `onSubmitNow` once |
| ExpiryModal.TimerExpiredModal.EndSession | src/components/interview/TimerExpiredModal.tsx:75-79 | "End Session" calls `onForceEnd` at once, whatever the countdown shows |
| ExpiryModal.GraceTicks | src/components/interview/TimerExpiredModal.tsx:33-42 | left open, the modal reaches 0 on its 30th tick and not before |

## Left out

- Authentication: `auth()` and the user lookup (401 and 404 "User not found") are left out. The caller's user id is a parameter of every route.
- Storage failures: database errors other than the report route's status write end in the generic 500 replies ("Something went wrong" and similar). They are not modelled. The report route's second write is the `statusUpdateFails` parameter.
- Concurrency: concurrent requests are not modelled. Every route runs on one consistent database value. Two racing submissions or next-question calls are not modelled.
- JSON values of the wrong type (a number where a string is expected, a non-integer count) are not modelled. Request fields are typed options.
- Text.Lower, Text.Upper: they map only ASCII letters. JavaScript's full Unicode case mapping is not modelled.
- Numbers: floating-point means become integer tenths rounded half up. This agrees with `Math.round(x * 10) / 10` except where binary floating point misrepresents a half.
- `JSON.stringify` of a resume profile is the `stringify` parameter. Only its result is placed in the prompt.
- PDF extraction: `pdf-parse` is the `extracted` parameter. A `None` stands for an extraction that throws.
- The English opening and coaching prompt builders are not part of this model. Their text is not in the prompt file modelled here. The English routes receive the AI reply through the `opening` and `coach` parameters, whose inputs (mode and level; history, scenario and message) are modelled.
- The `english/messages` route and the `english/[sessionId]/end` route are not part of this model. The end route is the one that writes the English reports, so English reports are only read here.
- Presentation: the components' markup, styles and toasts other than those named in the table are left out. So are `InterviewProgress`, `AnswerInput` and the interview page that drives the timers.
- Countdown.CountdownTimer, ExpiryModal.TimerExpiredModal: ticks are method calls. The one-second interval, its clearing on unmount, and `useCallback` identity are not modelled.
- Interview.AnswerRow: an answer and its evaluation are one row, because they are written in one transaction. Their timestamps (`submittedAt`, `createdAt`) are not modelled, and "latest" means last appended.
- English.Message: a USER message's correction is stored on the message row, because both are written in the same transaction.
- The `: aiResult.correction.fluencyScore` fallback of the running fluency is not modelled. It cannot be reached, because the correction just written is always counted; English.RunningFluencySpec states the mean with that score included.
- Foreign keys: the database schema is not part of this model. Its relations are taken to be enforced foreign keys. `ValidDb` states those the interview routes depend on: a session's resume, a question's session and parent, an answer's question (at most one per question), and a report's session. `ValidEnglish` states a message's session and a report's session. An insert that would break one fails with the route's 500 (`Interview.CreateStepSpec`, `Interview.NextQuestionAppends`). Users are not modelled, so the foreign keys to users are not stated.
- Interview.Fingerprint, Prompts.BuildEvaluationPrompt: JavaScript's `slice` can cut between the two halves of a surrogate pair and keep the lone high half. The model cuts before that character instead, because a Dafny `char` cannot hold half a pair. Every other length check counts UTF-16 code units exactly (`Text.Utf16Length`). The resume text is ASCII after cleaning, so its cuts are exact (`ResumeParser.CleanTextCodeUnits`).
- Interview.FirstFollowUp: `followUps` is read without an `orderBy`, so the database's order is unspecified. The model takes "first" to mean first created, by choice.
- Scoring.SortByAvg: `Array.prototype.sort` works in place on an array. It is modelled on values as a stable insertion sort, because the JavaScript sort is stable. The in-place update is not modelled.
- Prompts: the fixed instruction text of the templates is kept as constants. The properties proved are about the blocks and the cut-offs, not about the wording.

### Behaviour of the code worth noting

- Weak topics in the next-question route count follow-up questions as well as main questions (`Interview.QuestionParamsWeakTopics`).
- The report emits no tip at all when no topic is under 6.0 (`Scoring.ReportTips`).
- The next-question route does not check that a follow-up's parent belongs to the session or is a main question. Only the foreign key requires that it exists. Several follow-ups may name the same parent, and the transcript shows the first.
- The report route stores the report and then marks the session completed in a separate write, not in one transaction (`Interview.ReportStepSpec`). The session's end is set again whenever a report is built.
- A time-limited session still ends after `numQuestions ?? 10` answered main questions (`Interview.TotalQuestions`). A body with both a question count and a time limit is accepted (`Config.BothLimitsAccepted`).
- `noRepeats` is stored but never used.
- `previousScores` in submit-answer comes from the `sessionId` in the body, not from the question's session.
- The two weak-topic thresholds differ (`Scoring.WeakThresholdsDiffer`).
