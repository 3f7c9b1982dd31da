/**
 * The shapes the generative model's JSON must have (src/lib/ai/schemas.ts), and the
 * opening-message shape of the English practice route.
 *
 * Each schema is modelled twice: a raw record (what `JSON.parse` produced, with enum
 * values still as strings and nullable keys as `Field`s) and a typed record (what
 * `schema.parse` hands back). `ParseX` is the schema check and conversion, `RenderX`
 * its inverse; the two round-trip lemmas tie them together.
 */
module Schemas {
  import opened Wrappers
  import opened Text

  /** An evaluation score: `z.number().int().min(0).max(10)`. */
  type Score = x: int | 0 <= x <= 10

  /** A fluency score has the same range. */
  type Fluency = x: int | 0 <= x <= 10

  datatype Confidence = Low | Medium | High

  /** Question difficulty; the model writes it in lower case, the database in upper case. */
  datatype Level = Easy | Moderate | Hard

  datatype Experience = Junior | Mid | Senior

  function ConfidenceName(c: Confidence): string {
    match c
    case Low => "low"
    case Medium => "medium"
    case High => "high"
  }

  function ParseConfidence(s: string): (r: Option<Confidence>)
    ensures r.Some? <==> s in {"low", "medium", "high"}
    ensures r.Some? ==> ConfidenceName(r.value) == s
  {
    if s == "low" then Some(Low) else if s == "medium" then Some(Medium)
    else if s == "high" then Some(High) else None
  }

  /** The lower-case spelling used in prompts and by the model. */
  function LevelName(l: Level): string {
    match l
    case Easy => "easy"
    case Moderate => "medium"
    case Hard => "hard"
  }

  /** The upper-case spelling stored in the database. */
  function LevelCode(l: Level): string {
    match l
    case Easy => "EASY"
    case Moderate => "MEDIUM"
    case Hard => "HARD"
  }

  function ParseLevel(s: string): (r: Option<Level>)
    ensures r.Some? <==> s in {"easy", "medium", "hard"}
    ensures r.Some? ==> LevelName(r.value) == s
  {
    if s == "easy" then Some(Easy) else if s == "medium" then Some(Moderate)
    else if s == "hard" then Some(Hard) else None
  }

  function ParseLevelCode(s: string): (r: Option<Level>)
    ensures r.Some? <==> s in {"EASY", "MEDIUM", "HARD"}
    ensures r.Some? ==> LevelCode(r.value) == s
  {
    if s == "EASY" then Some(Easy) else if s == "MEDIUM" then Some(Moderate)
    else if s == "HARD" then Some(Hard) else None
  }

  function ExperienceName(e: Experience): string {
    match e
    case Junior => "junior"
    case Mid => "mid"
    case Senior => "senior"
  }

  function ParseExperience(s: string): (r: Option<Experience>)
    ensures r.Some? <==> s in {"junior", "mid", "senior"}
    ensures r.Some? ==> ExperienceName(r.value) == s
  {
    if s == "junior" then Some(Junior) else if s == "mid" then Some(Mid)
    else if s == "senior" then Some(Senior) else None
  }

  // ----- NextQuestionSchema -----

  datatype RawQuestion = RawQuestion(
    questionText: string, topic: string, difficulty: string,
    expectedPoints: seq<string>, followUpTriggers: seq<string>, rationale: string)

  datatype Question = Question(
    questionText: string, topic: string, difficulty: Level,
    expectedPoints: seq<string>, followUpTriggers: seq<string>, rationale: string)

  /** What the schema demands beyond the field types; `topic` is unconstrained. */
  predicate ValidQuestion(q: Question) {
    Utf16Length(q.questionText) >= 10 && 2 <= |q.expectedPoints| <= 8 && 1 <= |q.followUpTriggers| <= 4
  }

  /** A generated question that passed the schema. */
  type CheckedQuestion = q: Question | ValidQuestion(q)
    witness Question("0123456789", "", Easy, ["", ""], [""], "")

  function RenderQuestion(q: Question): RawQuestion {
    RawQuestion(q.questionText, q.topic, LevelName(q.difficulty), q.expectedPoints, q.followUpTriggers, q.rationale)
  }

  function ParseQuestion(raw: RawQuestion): (r: Option<CheckedQuestion>)
    ensures r.Some? <==>
      Utf16Length(raw.questionText) >= 10 && raw.difficulty in {"easy", "medium", "hard"} &&
      2 <= |raw.expectedPoints| <= 8 && 1 <= |raw.followUpTriggers| <= 4
    ensures r.Some? ==> RenderQuestion(r.value) == raw
  {
    match ParseLevel(raw.difficulty)
    case None => None
    case Some(level) =>
      var q := Question(raw.questionText, raw.topic, level, raw.expectedPoints, raw.followUpTriggers, raw.rationale);
      if ValidQuestion(q) then Some(q) else None
  }

  /** Every question that satisfies the schema survives a render and a re-parse unchanged. */
  lemma QuestionRoundTrip(q: CheckedQuestion)
    ensures ParseQuestion(RenderQuestion(q)) == Some(q)
  {
    match q.difficulty
    case Easy =>
    case Moderate =>
    case Hard =>
  }

  // ----- EvaluationSchema -----

  datatype RawEvaluation = RawEvaluation(
    score: int, strengths: seq<string>, missingPoints: seq<string>, feedback: string,
    nextFocusTopic: Field<string>, confidenceInAnswer: string)

  datatype Evaluation = Evaluation(
    score: Score, strengths: seq<string>, missingPoints: seq<string>, feedback: string,
    nextFocusTopic: Option<string>, confidence: Confidence)

  predicate ValidEvaluation(e: Evaluation) {
    Utf16Length(e.feedback) >= 10
  }

  /** An evaluation that passed the schema. */
  type CheckedEvaluation = e: Evaluation | ValidEvaluation(e)
    witness Evaluation(0, [], [], "0123456789", None, Low)

  function RenderEvaluation(e: Evaluation): RawEvaluation {
    RawEvaluation(e.score, e.strengths, e.missingPoints, e.feedback,
                  if e.nextFocusTopic.Some? then Present(e.nextFocusTopic.value) else Null,
                  ConfidenceName(e.confidence))
  }

  /**
   * `nextFocusTopic` is `nullable()` but not `optional()`: an explicit `null` passes,
   * a missing key does not. Its content is unconstrained, so "" passes.
   */
  function ParseEvaluation(raw: RawEvaluation): (r: Option<CheckedEvaluation>)
    ensures r.Some? <==>
      0 <= raw.score <= 10 && Utf16Length(raw.feedback) >= 10 && !raw.nextFocusTopic.Absent? &&
      raw.confidenceInAnswer in {"low", "medium", "high"}
    ensures r.Some? ==> RenderEvaluation(r.value) == raw
  {
    match ParseConfidence(raw.confidenceInAnswer)
    case None => None
    case Some(c) =>
      if 0 <= raw.score <= 10 && Utf16Length(raw.feedback) >= 10 && !raw.nextFocusTopic.Absent? then
        Some(Evaluation(raw.score, raw.strengths, raw.missingPoints, raw.feedback, raw.nextFocusTopic.ToOption(), c))
      else None
  }

  lemma EvaluationRoundTrip(e: CheckedEvaluation)
    ensures ParseEvaluation(RenderEvaluation(e)) == Some(e)
  {
    match e.confidence
    case Low =>
    case Medium =>
    case High =>
  }

  // ----- ResumeProfileSchema -----

  datatype Project = Project(name: string, techStack: seq<string>, keyAchievements: seq<string>)

  datatype RawProfile = RawProfile(
    name: Field<string>, targetRoles: seq<string>,
    technical: seq<string>, tools: seq<string>, soft: seq<string>,
    projects: seq<Project>, focusTopics: seq<string>, redFlags: seq<string>,
    experienceLevel: string)

  datatype Profile = Profile(
    name: Option<string>, targetRoles: seq<string>,
    technical: seq<string>, tools: seq<string>, soft: seq<string>,
    projects: seq<Project>, focusTopics: seq<string>, redFlags: seq<string>,
    experienceLevel: Experience)

  predicate ValidProfile(p: Profile) {
    |p.targetRoles| >= 1 && 1 <= |p.focusTopics| <= 10
  }

  type CheckedProfile = p: Profile | ValidProfile(p)
    witness Profile(None, [""], [], [], [], [], [""], [], Junior)

  function RenderProfile(p: Profile): RawProfile {
    RawProfile(if p.name.Some? then Present(p.name.value) else Null, p.targetRoles,
               p.technical, p.tools, p.soft, p.projects, p.focusTopics, p.redFlags,
               ExperienceName(p.experienceLevel))
  }

  function ParseProfile(raw: RawProfile): (r: Option<CheckedProfile>)
    ensures r.Some? <==>
      !raw.name.Absent? && |raw.targetRoles| >= 1 && 1 <= |raw.focusTopics| <= 10 &&
      raw.experienceLevel in {"junior", "mid", "senior"}
    ensures r.Some? ==> RenderProfile(r.value) == raw
  {
    match ParseExperience(raw.experienceLevel)
    case None => None
    case Some(x) =>
      var p := Profile(raw.name.ToOption(), raw.targetRoles, raw.technical, raw.tools, raw.soft,
                       raw.projects, raw.focusTopics, raw.redFlags, x);
      if !raw.name.Absent? && ValidProfile(p) then Some(p) else None
  }

  lemma ProfileRoundTrip(p: CheckedProfile)
    ensures ParseProfile(RenderProfile(p)) == Some(p)
  {
    match p.experienceLevel
    case Junior =>
    case Mid =>
    case Senior =>
  }

  // ----- EnglishResponseSchema -----

  datatype GrammarError = GrammarError(error: string, explanation: string)
  datatype VocabularySuggestion = VocabularySuggestion(original: string, suggested: string, reason: string)

  datatype RawCorrection = RawCorrection(
    originalText: string, correctedText: string,
    grammarErrors: seq<GrammarError>, vocabularySuggestions: seq<VocabularySuggestion>,
    rephrasedVersion: Field<string>, toneIssue: Field<string>, fluencyScore: int)

  datatype Correction = Correction(
    originalText: string, correctedText: string,
    grammarErrors: seq<GrammarError>, vocabularySuggestions: seq<VocabularySuggestion>,
    rephrasedVersion: Option<string>, toneIssue: Option<string>, fluencyScore: Fluency)

  datatype RawEnglishResponse = RawEnglishResponse(aiResponse: string, correction: RawCorrection)
  datatype EnglishResponse = EnglishResponse(aiResponse: string, correction: Correction)

  type CheckedEnglishResponse = r: EnglishResponse | r.aiResponse != []
    witness EnglishResponse("a", Correction("", "", [], [], None, None, 0))

  function RenderCorrection(c: Correction): RawCorrection {
    RawCorrection(c.originalText, c.correctedText, c.grammarErrors, c.vocabularySuggestions,
                  if c.rephrasedVersion.Some? then Present(c.rephrasedVersion.value) else Null,
                  if c.toneIssue.Some? then Present(c.toneIssue.value) else Null,
                  c.fluencyScore)
  }

  function RenderEnglishResponse(r: EnglishResponse): RawEnglishResponse {
    RawEnglishResponse(r.aiResponse, RenderCorrection(r.correction))
  }

  function ParseEnglishResponse(raw: RawEnglishResponse): (r: Option<CheckedEnglishResponse>)
    ensures r.Some? <==>
      raw.aiResponse != [] && 0 <= raw.correction.fluencyScore <= 10 &&
      !raw.correction.rephrasedVersion.Absent? && !raw.correction.toneIssue.Absent?
    ensures r.Some? ==> RenderEnglishResponse(r.value) == raw
  {
    var c := raw.correction;
    if raw.aiResponse != [] && 0 <= c.fluencyScore <= 10 &&
       !c.rephrasedVersion.Absent? && !c.toneIssue.Absent? then
      Some(EnglishResponse(raw.aiResponse,
        Correction(c.originalText, c.correctedText, c.grammarErrors, c.vocabularySuggestions,
                   c.rephrasedVersion.ToOption(), c.toneIssue.ToOption(), c.fluencyScore)))
    else None
  }

  lemma EnglishResponseRoundTrip(r: CheckedEnglishResponse)
    ensures ParseEnglishResponse(RenderEnglishResponse(r)) == Some(r)
  {
  }

  // ----- OpeningMessageSchema (src/app/api/english/create/route.ts) -----

  /** An opening message that passed `z.string().min(1)`. */
  type OpeningMessage = s: string | s != [] witness "a"

  function ParseOpening(message: string): (r: Option<OpeningMessage>)
    ensures r.Some? <==> message != []
    ensures r.Some? ==> r.value == message
  {
    if message != [] then Some(message) else None
  }
}
