/**
 * The three interview prompt builders (src/lib/ai/prompts.ts). Each prompt is a template
 * with a leading and a trailing newline that `.trim()` removes; in between, fixed text
 * alternates with blocks chosen from the parameters. The template text is kept verbatim
 * in the constants at the end of the module.
 */
module Prompts {
  import opened Wrappers
  import opened Text
  import opened Schemas
  import opened Config

  // ----- Prompt A: resume text to profile -----

  /** The pieces of the resume template: only the first 6000 characters of the text. */
  function ResumeParts(rawText: string): seq<string> {
    [ResumeHead, Prefix(rawText, 6000), ResumeTail]
  }

  /**
   * `buildResumeProfilePrompt(rawText)`: the trim removes nothing but the template's own
   * newlines, whatever the resume text is.
   */
  function BuildResumeProfilePrompt(rawText: string): (r: string)
    ensures r == Concat(ResumeParts(rawText))
  {
    TemplateEdges();
    TrimTemplate(ResumeParts(rawText));
    Trim("\n" + Concat(ResumeParts(rawText)) + "\n")
  }

  /** The first 6000 characters of the resume text occur in the prompt. */
  lemma ResumePromptEmbedsText(rawText: string)
    ensures Infix(Prefix(rawText, 6000), BuildResumeProfilePrompt(rawText))
  {
    ConcatInfix(ResumeParts(rawText), 1);
  }

  /** Two resume texts that agree on their first 6000 characters give the same prompt. */
  lemma ResumePromptTruncation(a: string, b: string)
    requires |a| >= 6000 && |b| >= 6000 && a[..6000] == b[..6000]
    ensures BuildResumeProfilePrompt(a) == BuildResumeProfilePrompt(b)
  {
    assert ResumeParts(a) == ResumeParts(b);
  }

  /** The template constants start and end with visible characters. */
  lemma TemplateEdges()
    ensures ResumeHead != [] && ResumeHead[0] == 'Y'
    ensures ResumeTail != [] && ResumeTail[|ResumeTail| - 1] == '}'
    ensures QuestionIntro != [] && QuestionIntro[0] == 'Y'
    ensures QuestionOutro != [] && QuestionOutro[|QuestionOutro| - 1] == '}'
    ensures EvaluationIntro != [] && EvaluationIntro[0] == 'Y'
    ensures EvaluationOutro != [] && EvaluationOutro[|EvaluationOutro| - 1] == '}'
  {
  }

  // ----- Prompt B: next question -----

  /** The parameters of `buildNextQuestionPrompt`; the profile enters as its JSON text. */
  datatype NextQuestionParams = NextQuestionParams(
    mode: Mode, role: Option<string>, topics: seq<string>, difficulty: Level,
    resumeProfile: Option<string>, askedQuestions: seq<string>, weakTopics: seq<string>,
    focusWeakAreas: bool, questionNumber: nat, totalQuestions: nat,
    isFollowUp: bool, parentQuestionText: Option<string>)

  /** A nullable string interpolated into a template: `null` prints as "null". */
  function NullableText(s: Option<string>): string {
    if s.Some? then s.value else "null"
  }

  /** An optional string interpolated into a template: `undefined` prints as "undefined". */
  function OptionalText(s: Option<string>): string {
    if s.Some? then s.value else "undefined"
  }

  /**
   * The context block: the profile for a `RESUME` session that has one, the role for a
   * `ROLE` session, and the topic list otherwise (a `RESUME` session without a profile
   * included).
   */
  function ContextBlock(p: NextQuestionParams): (r: string)
    ensures p.mode == Resume && p.resumeProfile.Some? ==>
      r == ProfileHeading + p.resumeProfile.value
    ensures p.mode == Role ==>
      Infix("TARGET ROLE: " + NullableText(p.role), r)
    ensures p.mode == Topics || (p.mode == Resume && p.resumeProfile.None?) ==>
      Infix("INTERVIEW TOPICS: " + Join(p.topics, ", "), r)
  {
    if p.mode == Resume && p.resumeProfile.Some? then
      ProfileHeading + p.resumeProfile.value
    else if p.mode == Role then
      var role := NullableText(p.role);
      InfixOfConcat([], "TARGET ROLE: " + role, RoleRequest + role + ".");
      assert [] + ("TARGET ROLE: " + role) + (RoleRequest + role + ".") ==
        "TARGET ROLE: " + role + RoleRequest + role + ".";
      "TARGET ROLE: " + role + RoleRequest + role + "."
    else
      var topics := "INTERVIEW TOPICS: " + Join(p.topics, ", ");
      InfixOfConcat([], topics, TopicsRequest);
      assert [] + topics + TopicsRequest == topics + TopicsRequest;
      topics + TopicsRequest
  }

  const ProfileHeading: string := "CANDIDATE PROFILE (extracted from resume):\n"
  const RoleRequest: string := "\nGenerate questions testing core skills and knowledge required for a "
  const TopicsRequest: string := "\nGenerate questions specifically about these topics only."

  /**
   * The weakness block: present exactly when weak areas are to be focused on and there
   * is at least one weak topic, and then it lists every weak topic.
   */
  function WeaknessBlock(p: NextQuestionParams): (r: string)
    ensures r != [] <==> p.focusWeakAreas && p.weakTopics != []
    ensures r != [] ==> forall k :: 0 <= k < |p.weakTopics| ==> Infix(p.weakTopics[k], r)
  {
    if p.focusWeakAreas && |p.weakTopics| > 0 then
      var list := Join(p.weakTopics, ", ");
      var r := WeaknessHeading + list + WeaknessRequest;
      forall k | 0 <= k < |p.weakTopics| ensures Infix(p.weakTopics[k], r) {
        JoinInfix(p.weakTopics, ", ", k);
        InfixOfConcat(WeaknessHeading, list, WeaknessRequest);
        InfixTrans(p.weakTopics[k], list, r);
      }
      r
    else ""
  }

  const WeaknessHeading: string :=
    "\nWEAKNESS ADAPTATION (IMPORTANT):\nThe candidate has scored below 6/10 on these topics: "
  const WeaknessRequest: string :=
    ".\nPrioritize these weak topics. Ask a question that tests fundamentals if score was very low."

  /** The follow-up block: present exactly for a follow-up, and it quotes the parent text. */
  function FollowUpBlock(p: NextQuestionParams): (r: string)
    ensures r != [] <==> p.isFollowUp
    ensures p.isFollowUp ==> Infix("\"" + OptionalText(p.parentQuestionText) + "\"", r)
  {
    if p.isFollowUp then
      var quoted := "\"" + OptionalText(p.parentQuestionText) + "\"";
      InfixOfConcat(FollowUpHeading, quoted, "\n" + FollowUpRules);
      FollowUpHeading + quoted + ("\n" + FollowUpRules)
    else ""
  }

  const FollowUpHeading: string :=
    "\nFOLLOW-UP MODE (IMPORTANT):\nThis is a follow-up question to probe deeper into a weak answer.\nParent question was: "

  /** `xs.map((x, i) => `${i + 1}. ${x}`)`, counting from `start`. */
  function Numbered(xs: seq<string>, start: nat): (r: seq<string>)
    ensures |r| == |xs|
    ensures forall k :: 0 <= k < |xs| ==> r[k] == NatToString(start + k) + ". " + xs[k]
  {
    if xs == [] then []
    else [NatToString(start) + ". " + xs[0]] + Numbered(xs[1..], start + 1)
  }

  /** Each entry wrapped in double quotes. */
  function Quoted(xs: seq<string>): (r: seq<string>)
    ensures |r| == |xs|
    ensures forall k :: 0 <= k < |xs| ==> r[k] == "\"" + xs[k] + "\""
  {
    if xs == [] then [] else ["\"" + xs[0] + "\""] + Quoted(xs[1..])
  }

  /**
   * The dedup block: empty exactly when nothing was asked yet; otherwise every earlier
   * fingerprint appears, quoted and numbered from 1 in input order.
   */
  function DedupBlock(p: NextQuestionParams): (r: string)
    ensures r == [] <==> p.askedQuestions == []
    ensures forall k :: 0 <= k < |p.askedQuestions| ==>
      Infix(NatToString(k + 1) + ". \"" + p.askedQuestions[k] + "\"", r)
  {
    if |p.askedQuestions| > 0 then
      var lines := Numbered(Quoted(p.askedQuestions), 1);
      var list := Join(lines, "\n");
      var r := DedupHeading + list;
      forall k | 0 <= k < |p.askedQuestions|
        ensures Infix(NatToString(k + 1) + ". \"" + p.askedQuestions[k] + "\"", r)
      {
        assert lines[k] == NatToString(1 + k) + ". " + ("\"" + p.askedQuestions[k] + "\"");
        assert lines[k] == NatToString(k + 1) + ". \"" + p.askedQuestions[k] + "\"";
        JoinInfix(lines, "\n", k);
        InfixOfConcat(DedupHeading, list, []);
        assert DedupHeading + list + [] == r;
        InfixTrans(lines[k], list, r);
      }
      r
    else ""
  }

  const DedupHeading: string := "\nALREADY ASKED \U{2014} DO NOT REPEAT OR PARAPHRASE ANY OF THESE:\n"

  /** "Question N of M". */
  function Progress(p: NextQuestionParams): string {
    "Question " + NatToString(p.questionNumber) + " of " + NatToString(p.totalQuestions)
  }

  function DifficultyLine(l: Level): string {
    "REQUIRED DIFFICULTY: " + Upper(LevelName(l))
  }

  /** The pieces of the next-question template, fixed text and blocks in order. */
  function QuestionParts(p: NextQuestionParams): seq<string> {
    [QuestionIntro, ContextBlock(p), "\n", WeaknessBlock(p), "\n", FollowUpBlock(p),
     "\n\nINTERVIEW PROGRESS: ", Progress(p), "\n", DifficultyLine(p.difficulty),
     QuestionRules, DedupBlock(p), QuestionOutro]
  }

  /** `buildNextQuestionPrompt(params)`: the trim removes only the template's own newlines. */
  function BuildNextQuestionPrompt(p: NextQuestionParams): (r: string)
    ensures r == Concat(QuestionParts(p))
  {
    TemplateEdges();
    TrimTemplate(QuestionParts(p));
    Trim("\n" + Concat(QuestionParts(p)) + "\n")
  }

  /** The difficulty is stated in upper case, as the database spells it. */
  lemma UpperLevelName(l: Level)
    ensures Upper(LevelName(l)) == LevelCode(l)
  {
    match l
    case Easy => assert Upper("easy") == "EASY";
    case Moderate => assert Upper("medium") == "MEDIUM";
    case Hard => assert Upper("hard") == "HARD";
  }

  // ----- Prompt C: answer evaluation -----

  /** One earlier evaluation handed to the evaluator: its topic and its score. */
  datatype PreviousScore = PreviousScore(topic: string, score: Score)

  datatype EvaluationParams = EvaluationParams(
    questionText: string, topic: string, difficulty: Level, expectedPoints: seq<string>,
    answerText: string, previousScores: seq<PreviousScore>)

  /** `- ${s.topic}: ${s.score}/10` for each earlier evaluation. */
  function ScoreLines(xs: seq<PreviousScore>): (r: seq<string>)
    ensures |r| == |xs|
    ensures forall k :: 0 <= k < |xs| ==>
      r[k] == "- " + xs[k].topic + ": " + NatToString(xs[k].score) + "/10"
  {
    if xs == [] then []
    else ["- " + xs[0].topic + ": " + NatToString(xs[0].score) + "/10"] + ScoreLines(xs[1..])
  }

  /**
   * The performance block: one line per earlier score, or the first-question sentence
   * when there is none.
   */
  function PerformanceBlock(scores: seq<PreviousScore>): (r: string)
    ensures scores == [] <==> r == FirstQuestionNote
    ensures forall k :: 0 <= k < |scores| ==>
      Infix("- " + scores[k].topic + ": " + NatToString(scores[k].score) + "/10", r)
  {
    if |scores| > 0 then
      var lines := ScoreLines(scores);
      var list := Join(lines, "\n");
      var r := PerformanceHeading + list;
      assert |r| > |FirstQuestionNote| || r != FirstQuestionNote by {
        assert r[0] == 'C' && FirstQuestionNote[0] == 'T';
      }
      forall k | 0 <= k < |scores|
        ensures Infix("- " + scores[k].topic + ": " + NatToString(scores[k].score) + "/10", r)
      {
        JoinInfix(lines, "\n", k);
        InfixOfConcat(PerformanceHeading, list, []);
        assert PerformanceHeading + list + [] == r;
        InfixTrans(lines[k], list, r);
      }
      r
    else FirstQuestionNote
  }

  const PerformanceHeading: string := "CANDIDATE'S RECENT PERFORMANCE:\n"
  const FirstQuestionNote: string := "This is the first question in this session."

  /** The expected points, one per line, numbered from 1 in order. */
  function PointsBlock(points: seq<string>): (r: string)
    ensures forall k :: 0 <= k < |points| ==> Infix(NatToString(k + 1) + ". " + points[k], r)
  {
    var lines := Numbered(points, 1);
    forall k | 0 <= k < |points| ensures Infix(NatToString(k + 1) + ". " + points[k], Join(lines, "\n")) {
      JoinInfix(lines, "\n", k);
    }
    Join(lines, "\n")
  }

  /**
   * The pieces of the evaluation template: the answer cut to its first 2000 UTF-16 code
   * units (`slice(0, 2000)`).
   */
  function EvaluationParts(p: EvaluationParams): seq<string> {
    [EvaluationIntro, "QUESTION: \"", p.questionText, "\"\nTOPIC: ", p.topic,
     "\nDIFFICULTY: ", Upper(LevelName(p.difficulty)),
     "\n\nEXPECTED POINTS (ideal answer should cover most of these):\n",
     PointsBlock(p.expectedPoints),
     "\n\nCANDIDATE'S ANSWER:\n\"\"\"\n", Utf16Prefix(p.answerText, 2000), "\n\"\"\"\n\n",
     PerformanceBlock(p.previousScores), EvaluationOutro]
  }

  /** `buildEvaluationPrompt(params)`: the trim removes only the template's own newlines. */
  function BuildEvaluationPrompt(p: EvaluationParams): (r: string)
    ensures r == Concat(EvaluationParts(p))
  {
    TemplateEdges();
    TrimTemplate(EvaluationParts(p));
    Trim("\n" + Concat(EvaluationParts(p)) + "\n")
  }

  /**
   * Answers that agree on a common beginning of at least 2000 code units give the same
   * evaluation prompt.
   */
  lemma EvaluationPromptTruncation(p: EvaluationParams, answer: string, k: nat)
    requires k <= |p.answerText| && k <= |answer| && p.answerText[..k] == answer[..k]
    requires Utf16Length(p.answerText[..k]) >= 2000
    ensures BuildEvaluationPrompt(p) == BuildEvaluationPrompt(p.(answerText := answer))
  {
    var q := p.(answerText := answer);
    Utf16PrefixCommon(p.answerText, answer, k, 2000);
    assert Utf16Prefix(p.answerText, 2000) == Utf16Prefix(q.answerText, 2000);
    assert EvaluationParts(p) == EvaluationParts(q);
  }

  /**
   * The confidence rule the evaluation prompt states: low for a score of at most 4 or an
   * answer under 50 characters, high for a score of at least 8, medium otherwise.
   */
  function StatedConfidence(score: Score, answerLength: nat): (c: Confidence)
    ensures c == High <==> score >= 8 && answerLength >= 50
    ensures c == Low <==> score <= 4 || answerLength < 50
  {
    if score <= 4 || answerLength < 50 then Low else if score >= 8 then High else Medium
  }

  /**
   * The rule is a request to the model only: the schema accepts an evaluation whose
   * confidence contradicts it.
   */
  lemma ConfidenceRuleNotEnforced()
    ensures ParseEvaluation(RawEvaluation(10, [], [], "0123456789", Null, "low")).Some?
    ensures StatedConfidence(10, 100) == High
  {
  }

  // ----- Template text -----

  /** The resume prompt up to the embedded text. */
  const ResumeHead: string :=
"You are" + @" a senior technical recruiter with 15 years of experience evaluating resumes.
Analyze the resume below and extract a compact structured profile for use in a
technical interview system.

RESUME TEXT:
""""""
"

  /** The resume prompt after the embedded text. */
  const ResumeTail: string :=
@"
""""""

STRICT RULES:
- focusTopics must be SPECIFIC (e.g. ""SQL window functions"" not just ""SQL"")
- experienceLevel: judge by project depth + years, NOT by job title
- redFlags: gaps > 6 months, job-hopping < 1 year, skill mismatch, vague achievements
- targetRoles: 2–4 most suitable roles based on the FULL resume content
- All arrays: maximum 8 items each
- projects: only include projects with clear technical detail
- If a field has no data, return an empty array [] not null

You MUST return ONLY valid JSON matching this exact schema.
No explanation. No markdown. No code fences. No extra text.

{
  ""name"": string | null,
  ""targetRoles"": string[],
  ""skills"": {
    ""technical"": string[],
    ""tools"": string[],
    ""soft"": string[]
  },
  ""projects"": [
    {
      ""name"": string,
      ""techStack"": string[],
      ""keyAchievements"": string[]
    }
  ],
  ""focusTopics"": string[],
  ""redFlags"": string[],
  ""experienceLevel"": ""junior"" | ""mid"" | ""senior""
}"

  /** The opening of the next-question prompt, before the context block. */
  const QuestionIntro: string :=
"You are" + @" a world-class senior technical interviewer conducting a structured interview.
Your questions reveal true depth of understanding — never surface-level definitions.
You probe for application, trade-offs, real-world reasoning, and edge cases.

"

  /** The difficulty guidelines and question rules of the next-question prompt. */
  const QuestionRules: string :=
@"

DIFFICULTY GUIDELINES:
- EASY: test working knowledge and basic application of concepts
- MEDIUM: test problem-solving, trade-offs, and real-world scenarios
- HARD: test system design thinking, edge cases, optimization, expert-level nuance

QUESTION RULES:
- Never start with ""Can you explain..."" — use scenario-based or direct probe phrasing
- Never ask for simple definitions
- expectedPoints: 3–7 specific concepts, terms, or insights the IDEAL answer must include
- followUpTriggers: 2–3 short phrases that, if said by candidate, suggest shallow understanding
- rationale: one sentence explaining why you chose this question (for internal use only)

"

  /** The closing JSON-shape instructions of the next-question prompt. */
  const QuestionOutro: string :=
@"

You MUST return ONLY valid JSON matching this exact schema.
No explanation. No markdown. No code fences. No extra text.

{
  ""questionText"": string,
  ""topic"": string,
  ""difficulty"": ""easy"" | ""medium"" | ""hard"",
  ""expectedPoints"": string[],
  ""followUpTriggers"": string[],
  ""rationale"": string
}"

  /** The instructions that end the follow-up block. */
  const FollowUpRules: string :=
@"- Reference the parent question explicitly
- Dig deeper into a specific gap or concept from that question
- Do NOT introduce a completely new topic
- Make this question more targeted and specific"

  /** The opening of the evaluation prompt. */
  const EvaluationIntro: string :=
"You are" + @" a strict but fair senior technical interviewer evaluating a candidate's answer.
You score based on SUBSTANCE, ACCURACY, and COMPLETENESS — not verbosity.
A long answer that misses key points scores lower than a short answer that nails them.

"

  /** The rubric, confidence rules and JSON shape that close the evaluation prompt. */
  const EvaluationOutro: string :=
@"

SCORING RUBRIC (follow this exactly):
- 10:   Every expected point covered with expert-level depth and clarity
- 8–9:  Most expected points covered, minor gaps, demonstrates clear understanding
- 6–7:  Several points covered but meaningful gaps remain
- 4–5:  Partial understanding, significant gaps, some correct points
- 2–3:  Mostly incorrect or very shallow, minimal correct content
- 0–1:  Wrong answer, ""I don't know"", irrelevant, or fewer than 20 words

CONFIDENCE RULES (you must follow these deterministically):
- Return ""low"" if score <= 4 OR answer has fewer than 50 characters
- Return ""high"" if score >= 8
- Return ""medium"" for everything else

OUTPUT RULES:
- strengths: specific things the candidate said that were CORRECT
- missingPoints: specific expected points the candidate did NOT cover
- feedback: exactly 2–3 sentences, constructive and actionable
- nextFocusTopic: suggest ONE specific topic to focus on next based on gaps,
  or null if performance was strong (score >= 7)

You MUST return ONLY valid JSON matching this exact schema.
No explanation. No markdown. No code fences. No extra text.

{
  ""score"": number (0–10 integer only),
  ""strengths"": string[],
  ""missingPoints"": string[],
  ""feedback"": string,
  ""nextFocusTopic"": string | null,
  ""confidenceInAnswer"": ""low"" | ""medium"" | ""high""
}"
}
