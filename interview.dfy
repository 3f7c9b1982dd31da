/**
 * The adaptive interview engine: the rows the interview routes read and write, and one
 * step function per route (create, next-question, submit-answer, report, session) plus the
 * resume upload whose rows RESUME-mode sessions point to. Each step takes the database
 * before the request and gives the reply and the database after it; `InterviewStore`
 * holds the tables and runs the routes' loops, proved equal to the steps.
 *
 * Row ids are positions in their table. The caller is the id of the signed-in user;
 * sign-in itself is not modelled. A request id that is missing or `null` is `None`; an id
 * only tested for truth (`!sessionId`) is also `None` when empty, and one the route
 * stores (`resumeId`, `parentQuestionId`) is an `IdText`, where the empty string is `Blank`. The AI calls are function parameters: `generate(params, k)` is the outcome of
 * the `generateJSON` call on dedup attempt `k` for the prompt built from `params`,
 * `evaluate(params)` that of the evaluation call, `analyse(text)` that of the resume
 * analysis; `None` stands for `AI_GENERATION_FAILED`.
 */
module Interview {
  import opened Wrappers
  import opened Text
  import opened Schemas
  import opened Config
  import opened Prompts
  import opened Scoring
  import opened ResumeParser

  datatype Status = InProgress | Completed

  /** An `InterviewSession` with its `InterviewConfig`; `ended` stands for a set `endedAt`. */
  datatype Session = Session(owner: nat, config: CreateData, status: Status, ended: bool)

  datatype QuestionRow = QuestionRow(
    sessionId: nat, parentId: Option<nat>, isFollowUp: bool, questionText: string,
    fingerprint: string, topic: string, difficulty: Level, expectedPoints: seq<string>,
    followUpTriggers: seq<string>, orderIndex: nat)

  /** An `Answer` with the `Evaluation` written in the same transaction. */
  datatype AnswerRow = AnswerRow(questionId: nat, answerText: string, evaluation: Evaluation)

  datatype ResumeRow = ResumeRow(owner: nat, fileName: string, rawText: string, profile: Profile)

  /** The tables; answers in creation order, reports by session id. */
  datatype Db = Db(
    sessions: seq<Session>, questions: seq<QuestionRow>, answers: seq<AnswerRow>,
    reports: map<nat, Report>, resumes: seq<ResumeRow>)

  /** The ids of session `sid`'s questions among `qs`, in creation order. */
  function SessionQuestions(qs: seq<QuestionRow>, sid: nat): (r: seq<nat>)
    ensures forall k :: 0 <= k < |r| ==> r[k] < |qs| && qs[r[k]].sessionId == sid
    ensures forall i :: 0 <= i < |qs| && qs[i].sessionId == sid ==> i in r
    ensures forall k, l :: 0 <= k < l < |r| ==> r[k] < r[l]
  {
    if qs == [] then []
    else SessionQuestions(qs[..|qs| - 1], sid) + (if qs[|qs| - 1].sessionId == sid then [|qs| - 1] else [])
  }

  /** `askedQuestions`: the stored fingerprints of session `sid`, in `orderIndex` order. */
  function Fingerprints(qs: seq<QuestionRow>, sid: nat): (r: seq<string>)
    ensures forall h :: h in r <==> exists i :: 0 <= i < |qs| && qs[i].sessionId == sid && qs[i].fingerprint == h
  {
    var ids := SessionQuestions(qs, sid);
    var r := seq(|ids|, k requires 0 <= k < |ids| => qs[ids[k]].fingerprint);
    forall h | h in r ensures exists i :: 0 <= i < |qs| && qs[i].sessionId == sid && qs[i].fingerprint == h {
      var k :| 0 <= k < |r| && r[k] == h;
      assert qs[ids[k]].fingerprint == h;
    }
    forall i | 0 <= i < |qs| && qs[i].sessionId == sid ensures qs[i].fingerprint in r {
      var k :| 0 <= k < |ids| && ids[k] == i;
      assert r[k] == qs[i].fingerprint;
    }
    r
  }

  /** The configuration as the create route stores it: limits inside the schema's ranges. */
  predicate ValidConfig(c: CreateData) {
    (c.numQuestions.Some? ==> 1 <= c.numQuestions.value <= 30) &&
    (c.timeLimitMins.Some? ==> 5 <= c.timeLimitMins.value <= 120)
  }

  /** Every stored configuration has its limits in range. */
  predicate ConfigsValid(sessions: seq<Session>) {
    forall s :: 0 <= s < |sessions| ==> ValidConfig(sessions[s].config)
  }

  /**
   * Every question belongs to one of `n` sessions and has as `orderIndex` the number of
   * questions its session had before it; no two questions of a session share a fingerprint.
   */
  predicate QuestionsValid(qs: seq<QuestionRow>, n: nat) {
    && (forall i :: 0 <= i < |qs| ==>
          qs[i].sessionId < n && qs[i].orderIndex == |SessionQuestions(qs[..i], qs[i].sessionId)|)
    && (forall i, j :: 0 <= i < j < |qs| && qs[i].sessionId == qs[j].sessionId ==>
          qs[i].fingerprint != qs[j].fingerprint)
  }

  /** Every answer belongs to one of `n` questions, and no question has two answers. */
  predicate AnswersValid(answers: seq<AnswerRow>, n: nat) {
    && (forall k :: 0 <= k < |answers| ==> answers[k].questionId < n)
    && (forall k, l :: 0 <= k < l < |answers| ==> answers[k].questionId != answers[l].questionId)
  }

  /** The configuration names no resume, or one of the `n` stored resumes. */
  predicate ResumeKnown(c: CreateData, n: nat) {
    c.resumeId.Some? ==> NamesRow(c.resumeId, n)
  }

  /** Every session's resume is one of `n` stored resumes. */
  predicate ResumesKnown(sessions: seq<Session>, n: nat) {
    forall s :: 0 <= s < |sessions| ==> ResumeKnown(sessions[s].config, n)
  }

  /** A follow-up's parent is a question created before it. */
  predicate ParentsPrecede(qs: seq<QuestionRow>) {
    forall i :: 0 <= i < |qs| && qs[i].parentId.Some? ==> qs[i].parentId.value < i
  }

  /**
   * What the routes keep true of the tables: the foreign keys resolve (a session's resume,
   * a question's session and parent, an answer's question, a report's session), and no
   * question has two answers.
   */
  predicate ValidDb(db: Db) {
    && ConfigsValid(db.sessions)
    && ResumesKnown(db.sessions, |db.resumes|)
    && QuestionsValid(db.questions, |db.sessions|)
    && ParentsPrecede(db.questions)
    && AnswersValid(db.answers, |db.questions|)
    && (forall s :: s in db.reports ==> s < |db.sessions|)
  }

  lemma QuestionsValidMore(qs: seq<QuestionRow>, n: nat, m: nat)
    requires QuestionsValid(qs, n) && n <= m
    ensures QuestionsValid(qs, m)
  {
  }

  lemma AnswersValidMore(answers: seq<AnswerRow>, n: nat, m: nat)
    requires AnswersValid(answers, n) && n <= m
    ensures AnswersValid(answers, m)
  {
  }

  /** The answer row of question `qid`, if any. */
  function AnswerOf(answers: seq<AnswerRow>, qid: nat): (r: Option<AnswerRow>)
    ensures r.Some? ==> r.value in answers && r.value.questionId == qid
    ensures r.None? ==> forall k :: 0 <= k < |answers| ==> answers[k].questionId != qid
  {
    if answers == [] then None
    else if answers[0].questionId == qid then Some(answers[0])
    else
      var r := AnswerOf(answers[1..], qid);
      assert r.None? ==> forall k :: 1 <= k < |answers| ==> answers[1..][k - 1] == answers[k];
      r
  }

  /**
   * `{topic, evaluation}` for every question of session `sid` that has an evaluation, in
   * `orderIndex` order; only main questions when `mainOnly`.
   */
  function EvaluatedIn(qs: seq<QuestionRow>, answers: seq<AnswerRow>, sid: nat, mainOnly: bool): seq<Graded> {
    if qs == [] then []
    else
      var i := |qs| - 1;
      var a := AnswerOf(answers, i);
      EvaluatedIn(qs[..i], answers, sid, mainOnly)
        + (if qs[i].sessionId == sid && (!mainOnly || !qs[i].isFollowUp) && a.Some?
           then [Graded(qs[i].topic, a.value.evaluation)] else [])
  }

  /** The number of main questions of session `sid` that have an answer. */
  function AnsweredMain(qs: seq<QuestionRow>, answers: seq<AnswerRow>, sid: nat): nat {
    if qs == [] then 0
    else
      var i := |qs| - 1;
      AnsweredMain(qs[..i], answers, sid)
        + (if qs[i].sessionId == sid && !qs[i].isFollowUp && AnswerOf(answers, i).Some? then 1 else 0)
  }

  /**
   * The answered count of the session view and the next-question route is the number of
   * questions the report scores: an answer never exists without its evaluation.
   */
  lemma {:induction false} AnsweredMainIsScored(qs: seq<QuestionRow>, answers: seq<AnswerRow>, sid: nat)
    ensures AnsweredMain(qs, answers, sid) == |EvaluatedIn(qs, answers, sid, true)|
  {
    if qs != [] {
      AnsweredMainIsScored(qs[..|qs| - 1], answers, sid);
    }
  }

  /** `numQuestions ?? 10`, used whether or not the session has a time limit. */
  function TotalQuestions(c: CreateData): (n: nat)
    requires ValidConfig(c)
    ensures c.numQuestions.None? ==> n == 10
    ensures c.numQuestions.Some? ==> n == c.numQuestions.value && 1 <= n <= 30
  {
    c.numQuestions.GetOr(10)
  }

  // ----- create -----

  function CreateMessage(e: CreateError): string {
    match e
    case InvalidRequest => "Invalid request"
    case RoleRequired => "Role name is required for ROLE mode"
    case TopicRequired => "At least one topic is required for TOPICS mode"
    case ResumeRequired => "Resume is required for RESUME mode"
    case LimitRequired => "Either question count or time limit is required"
  }

  /**
   * The create route: validation, then the config and the session in one transaction. A
   * `resumeId` that names no resume, the empty one included, breaks the session's foreign
   * key, and the transaction fails as a whole.
   */
  function CreateStep(db: Db, caller: nat, body: CreateBody): (Reply<nat>, Db) {
    match CheckCreate(body)
    case Rejected(e) => (Error(400, CreateMessage(e)), db)
    case Accepted(data) =>
      if !ResumeKnown(data, |db.resumes|) then (Error(500, "Failed to create interview session"), db)
      else (Ok(|db.sessions|), db.(sessions := db.sessions + [Session(caller, data, InProgress, false)]))
  }

  /**
   * A rejected request is answered 400 and one naming an unknown resume 500, and neither
   * writes; any other adds exactly one session, in progress, owned by the caller, holding
   * the parsed configuration with its defaults.
   */
  lemma CreateStepSpec(db: Db, caller: nat, body: CreateBody)
    ensures var (r, db') := CreateStep(db, caller, body);
      && (r.Ok? <==> CheckCreate(body).Accepted? && ResumeKnown(ParseCreate(body).value, |db.resumes|))
      && (r.Error? ==> db' == db)
      && (r.Error? ==> (r.status == 400 <==> CheckCreate(body).Rejected?))
      && (r.Error? && r.status != 400 ==> r.status == 500)
      && (r.Ok? ==>
            && r.value == |db.sessions|
            && db' == db.(sessions := db.sessions + [Session(caller, ParseCreate(body).value, InProgress, false)]))
  {
  }

  /**
   * An empty `resumeId` fails `!data.resumeId` in RESUME mode and is answered 400; in the
   * other modes it passes validation, is stored as `""` and breaks the foreign key, so the
   * answer is 500. Either way nothing is written.
   */
  lemma CreateBlankResume(db: Db, caller: nat, body: CreateBody)
    requires body.resumeId == Present(Blank)
    ensures var (r, db') := CreateStep(db, caller, body);
      && db' == db && r.Error?
      && (ParseCreate(body).Some? && ParseCreate(body).value.mode == Resume ==>
            r == Error(400, "Resume is required for RESUME mode"))
      && (CheckCreate(body).Accepted? ==> r == Error(500, "Failed to create interview session"))
  {
  }

  lemma CreateKeepsValid(db: Db, caller: nat, body: CreateBody)
    requires ValidDb(db)
    ensures ValidDb(CreateStep(db, caller, body).1)
  {
    var db' := CreateStep(db, caller, body).1;
    if CheckCreate(body).Accepted? {
      assert ValidConfig(ParseCreate(body).value);
      QuestionsValidMore(db.questions, |db.sessions|, |db'.sessions|);
    }
  }

  // ----- next question -----

  /**
   * The dedup fingerprint: lower-cased, then trimmed, then cut to 120 UTF-16 code units
   * (a JavaScript `slice`).
   */
  function Fingerprint(text: string): (r: string)
    ensures Utf16Length(r) <= 120
    ensures |r| <= |Trim(Lower(text))| && r == Trim(Lower(text))[..|r|]
  {
    Utf16PrefixSpec(Trim(Lower(text)), 120);
    Utf16Prefix(Trim(Lower(text)), 120)
  }

  lemma LowerKeepsSpace(c: char)
    ensures IsSpace(LowerChar(c)) <==> IsSpace(c)
  {
  }

  /**
   * Two texts that differ only in ASCII letter case and white-space padding have the same
   * fingerprint.
   */
  lemma FingerprintNormalises(t: string, p: string, q: string)
    requires t != [] && Trimmed(t) && AllSpace(p) && AllSpace(q)
    ensures Fingerprint(p + Upper(t) + q) == Fingerprint(t)
  {
    var u := Upper(t);
    var lt := Lower(t);
    assert Lower(p + u + q) == p + lt + q by {
      forall i | 0 <= i < |p + u + q| ensures Lower(p + u + q)[i] == (p + lt + q)[i] {
        if i < |p| {
          assert (p + u + q)[i] == p[i];
        } else if i < |p + u| {
          assert (p + u + q)[i] == u[i - |p|];
        } else {
          assert (p + u + q)[i] == q[i - |p + u|];
        }
      }
    }
    LowerKeepsSpace(t[0]);
    LowerKeepsSpace(t[|t| - 1]);
    assert Trimmed(lt);
    TrimPadded(p, lt, q);
    TrimPadded([], lt, []);
    assert [] + lt + [] == lt;
  }

  /** The outcome of the two-attempt dedup loop. */
  datatype Generated = AiFailed | Duplicate | Fresh(question: CheckedQuestion, fingerprint: string)

  /**
   * Attempt 0, then attempt 1 only if the first fingerprint was already asked: the first
   * fresh question wins; a second collision is `DUPLICATE_QUESTION`.
   */
  function Dedup(generate: (NextQuestionParams, nat) -> Option<CheckedQuestion>, params: NextQuestionParams,
                 asked: seq<string>): Generated
  {
    match generate(params, 0)
    case None => AiFailed
    case Some(q0) =>
      if Fingerprint(q0.questionText) !in asked then Fresh(q0, Fingerprint(q0.questionText))
      else match generate(params, 1)
        case None => AiFailed
        case Some(q1) =>
          if Fingerprint(q1.questionText) !in asked then Fresh(q1, Fingerprint(q1.questionText)) else Duplicate
  }

  /**
   * A fresh question's fingerprint is its text's and was never asked in the session; it
   * comes from the first attempt, or from the second after the first collided. Duplicate
   * means both attempts produced asked fingerprints.
   */
  lemma DedupSpec(generate: (NextQuestionParams, nat) -> Option<CheckedQuestion>, params: NextQuestionParams,
                  asked: seq<string>)
    ensures var g := Dedup(generate, params, asked);
      && (g.Fresh? ==>
            && g.fingerprint == Fingerprint(g.question.questionText) && g.fingerprint !in asked
            && (generate(params, 0) == Some(g.question)
                || (generate(params, 0).Some? && Fingerprint(generate(params, 0).value.questionText) in asked
                    && generate(params, 1) == Some(g.question))))
      && (g.Duplicate? <==>
            && generate(params, 0).Some? && Fingerprint(generate(params, 0).value.questionText) in asked
            && generate(params, 1).Some? && Fingerprint(generate(params, 1).value.questionText) in asked)
  {
  }

  /**
   * The dedup loop (lines 131-171): at most two generations, stopping at the first
   * fingerprint not already asked.
   */
  method GenerateUnique(generate: (NextQuestionParams, nat) -> Option<CheckedQuestion>,
                        params: NextQuestionParams, asked: seq<string>)
    returns (g: Generated)
    ensures g == Dedup(generate, params, asked)
  {
    var attempt := 0;
    while attempt <= 1
      invariant attempt <= 1
      invariant attempt == 1 ==>
        generate(params, 0).Some? && Fingerprint(generate(params, 0).value.questionText) in asked
      decreases 2 - attempt
    {
      var generated := generate(params, attempt);
      if generated.None? {
        return AiFailed;
      }
      var hash := Fingerprint(generated.value.questionText);
      var isDuplicate := hash in asked;
      if !isDuplicate {
        return Fresh(generated.value, hash);
      }
      if attempt == 1 {
        return Duplicate;
      }
      attempt := attempt + 1;
    }
    assert false;
  }

  /** The text of the requested parent, when it is a question of the same session. */
  function ParentText(qs: seq<QuestionRow>, sid: nat, followUp: bool, parentId: Option<IdText>): Option<string> {
    if followUp && NamesRow(parentId, |qs|) && qs[parentId.value.row].sessionId == sid
    then Some(qs[parentId.value.row].questionText) else None
  }

  /** The session's resume profile, rendered by `stringify`, when the session has a resume. */
  function ResumeProfileText(db: Db, c: CreateData, stringify: Profile -> string): Option<string>
    requires ResumeKnown(c, |db.resumes|)
  {
    if c.resumeId.Some? then Some(stringify(db.resumes[c.resumeId.value.row].profile)) else None
  }

  /** The arguments of `buildNextQuestionPrompt` for session `sid`. */
  function QuestionParams(db: Db, sid: nat, followUp: bool, parentId: Option<IdText>, stringify: Profile -> string): NextQuestionParams
    requires sid < |db.sessions| && ValidConfig(db.sessions[sid].config)
    requires ResumeKnown(db.sessions[sid].config, |db.resumes|)
  {
    var c := db.sessions[sid].config;
    var weak := WeakTopics(EvaluatedIn(db.questions, db.answers, sid, false));
    NextQuestionParams(
      c.mode, c.role, c.topics, c.difficulty, ResumeProfileText(db, c, stringify),
      Fingerprints(db.questions, sid), if c.focusWeakAreas then weak else [], c.focusWeakAreas,
      AnsweredMain(db.questions, db.answers, sid) + 1, TotalQuestions(c),
      followUp, ParentText(db.questions, sid, followUp, parentId))
  }

  /** Assembles the prompt arguments, collecting the weak topics with the route's loop. */
  method BuildQuestionParams(db: Db, sid: nat, followUp: bool, parentId: Option<IdText>, stringify: Profile -> string)
    returns (params: NextQuestionParams)
    requires sid < |db.sessions| && ValidConfig(db.sessions[sid].config)
    requires ResumeKnown(db.sessions[sid].config, |db.resumes|)
    ensures params == QuestionParams(db, sid, followUp, parentId, stringify)
  {
    var c := db.sessions[sid].config;
    var weak := CollectWeakTopics(EvaluatedIn(db.questions, db.answers, sid, false));
    params := NextQuestionParams(
      c.mode, c.role, c.topics, c.difficulty, ResumeProfileText(db, c, stringify),
      Fingerprints(db.questions, sid), if c.focusWeakAreas then weak else [], c.focusWeakAreas,
      AnsweredMain(db.questions, db.answers, sid) + 1, TotalQuestions(c),
      followUp, ParentText(db.questions, sid, followUp, parentId));
  }

  datatype NextReply =
    | Done
    | Asked(questionId: nat, question: CheckedQuestion, questionNumber: nat, totalQuestions: nat, isFollowUp: bool)

  /** The question row the next-question route inserts. */
  function NewQuestion(qs: seq<QuestionRow>, sid: nat, followUp: bool, parentId: Option<IdText>,
                       q: CheckedQuestion, fingerprint: string): QuestionRow
  {
    QuestionRow(sid, if followUp then RowOf(parentId) else None, followUp, q.questionText, fingerprint,
                q.topic, q.difficulty, q.expectedPoints, q.followUpTriggers, |SessionQuestions(qs, sid)|)
  }

  /** The checks the next-question route makes before it counts anything. */
  function SessionGuard(db: Db, caller: nat, sessionId: Option<nat>): Option<Reply<NextReply>> {
    if sessionId.None? then Some(Error(400, "sessionId is required"))
    else if sessionId.value >= |db.sessions| then Some(Error(404, "Session not found"))
    else if db.sessions[sessionId.value].owner != caller then Some(Error(403, "Forbidden"))
    else if db.sessions[sessionId.value].status != InProgress then Some(Error(400, "Session is no longer active"))
    else None
  }

  /** The next-question route. */
  function NextQuestionStep(db: Db, caller: nat, sessionId: Option<nat>, followUp: bool, parentId: Option<IdText>,
                            stringify: Profile -> string, generate: (NextQuestionParams, nat) -> Option<CheckedQuestion>)
    : (Reply<NextReply>, Db)
    requires ValidDb(db)
  {
    match SessionGuard(db, caller, sessionId)
    case Some(e) => (e, db)
    case None =>
      var sid := sessionId.value;
      if !followUp && AnsweredMain(db.questions, db.answers, sid) >= TotalQuestions(db.sessions[sid].config)
      then (Ok(Done), db)
      else AskQuestion(db, sid, followUp, parentId, stringify, generate)
  }

  /** The next-question route once session `sid` has passed its checks and is not done. */
  function AskQuestion(db: Db, sid: nat, followUp: bool, parentId: Option<IdText>,
                       stringify: Profile -> string, generate: (NextQuestionParams, nat) -> Option<CheckedQuestion>)
    : (Reply<NextReply>, Db)
    requires sid < |db.sessions| && ValidConfig(db.sessions[sid].config)
    requires ResumeKnown(db.sessions[sid].config, |db.resumes|)
  {
    var params := QuestionParams(db, sid, followUp, parentId, stringify);
    SaveQuestion(db, sid, followUp, parentId, Dedup(generate, params, params.askedQuestions),
                 params.questionNumber, params.totalQuestions)
  }

  /**
   * The end of the next-question route: the reply to the dedup outcome `g` and the insert
   * of a fresh question as number `number` of `total`.
   */
  function SaveQuestion(db: Db, sid: nat, followUp: bool, parentId: Option<IdText>, g: Generated, number: nat, total: nat)
    : (Reply<NextReply>, Db)
  {
    match g
    case AiFailed => (Error(500, "Failed to generate question. Please try again."), db)
    case Duplicate => (Error(409, "DUPLICATE_QUESTION"), db)
    case Fresh(q, h) =>
      // an empty or unknown parent breaks the insert's foreign key
      if followUp && parentId.Some? && !NamesRow(parentId, |db.questions|) then (Error(500, "Something went wrong"), db)
      else
        (Ok(Asked(|db.questions|, q, number, total, followUp)),
         db.(questions := db.questions + [NewQuestion(db.questions, sid, followUp, parentId, q, h)]))
  }

  /**
   * A missing, unknown, foreign or finished session is rejected whatever the model would
   * have generated, and nothing is written.
   */
  lemma NextQuestionGuards(db: Db, caller: nat, sessionId: Option<nat>, followUp: bool, parentId: Option<IdText>,
                           stringify: Profile -> string,
                           g1: (NextQuestionParams, nat) -> Option<CheckedQuestion>,
                           g2: (NextQuestionParams, nat) -> Option<CheckedQuestion>)
    requires ValidDb(db)
    requires sessionId.None? || sessionId.value >= |db.sessions| || db.sessions[sessionId.value].owner != caller
      || db.sessions[sessionId.value].status != InProgress
    ensures var (r, db') := NextQuestionStep(db, caller, sessionId, followUp, parentId, stringify, g1);
      && (r, db') == NextQuestionStep(db, caller, sessionId, followUp, parentId, stringify, g2)
      && db' == db && r.Error? && r.status in {400, 403, 404}
  {
  }

  /**
   * A main-question request is answered `done`, with nothing written, exactly when the
   * answered main questions reach `numQuestions ?? 10`; a follow-up request never is.
   */
  lemma NextQuestionDone(db: Db, caller: nat, sid: nat, followUp: bool, parentId: Option<IdText>,
                         stringify: Profile -> string, generate: (NextQuestionParams, nat) -> Option<CheckedQuestion>)
    requires ValidDb(db) && sid < |db.sessions|
    requires db.sessions[sid].owner == caller && db.sessions[sid].status == InProgress
    ensures var (r, db') := NextQuestionStep(db, caller, Some(sid), followUp, parentId, stringify, generate);
      && (r == Ok(Done) <==>
            !followUp && AnsweredMain(db.questions, db.answers, sid) >= TotalQuestions(db.sessions[sid].config))
      && (r == Ok(Done) ==> db' == db)
  {
  }

  /**
   * Only an `Asked` reply writes, and it appends exactly one question to the session: with
   * the next `orderIndex`, a fingerprint of its text not yet in the session, `isFollowUp`
   * as requested and the parent id only for a follow-up. Its number is the answered main
   * count plus one.
   */
  lemma NextQuestionAppends(db: Db, caller: nat, sid: nat, followUp: bool, parentId: Option<IdText>,
                            stringify: Profile -> string, generate: (NextQuestionParams, nat) -> Option<CheckedQuestion>)
    requires ValidDb(db) && SessionGuard(db, caller, Some(sid)).None?
    ensures var (r, db') := NextQuestionStep(db, caller, Some(sid), followUp, parentId, stringify, generate);
      && (!(r.Ok? && r.value.Asked?) ==> db' == db)
      && (r.Ok? && r.value.Asked? ==>
            var row := db'.questions[|db.questions|];
            && db' == db.(questions := db.questions + [row])
            && r.value.questionId == |db.questions|
            && row.sessionId == sid
            && row.orderIndex == |SessionQuestions(db.questions, sid)|
            && row.fingerprint == Fingerprint(row.questionText)
            && row.fingerprint !in Fingerprints(db.questions, sid)
            && row.isFollowUp == followUp
            && (followUp && parentId.Some? ==> NamesRow(parentId, |db.questions|))
            && row.parentId == (if followUp then RowOf(parentId) else None)
            && (row.parentId.Some? ==> row.parentId.value < |db.questions|)
            && row.questionText == r.value.question.questionText
            && r.value.questionNumber == AnsweredMain(db.questions, db.answers, sid) + 1)
  {
    var c := db.sessions[sid].config;
    if followUp || AnsweredMain(db.questions, db.answers, sid) < TotalQuestions(c) {
      var params := QuestionParams(db, sid, followUp, parentId, stringify);
      var asked := Fingerprints(db.questions, sid);
      DedupSpec(generate, params, asked);
      var g := Dedup(generate, params, asked);
      assert NextQuestionStep(db, caller, Some(sid), followUp, parentId, stringify, generate)
        == AskQuestion(db, sid, followUp, parentId, stringify, generate)
        == SaveQuestion(db, sid, followUp, parentId, g, params.questionNumber, params.totalQuestions);
      SaveQuestionAppends(db, sid, followUp, parentId, g, params.questionNumber, params.totalQuestions);
    }
  }

  /**
   * The insert writes only for a fresh question whose parent, for a follow-up that names
   * one, is an existing question; it then appends exactly the new row.
   */
  lemma SaveQuestionAppends(db: Db, sid: nat, followUp: bool, parentId: Option<IdText>, g: Generated, number: nat, total: nat)
    ensures var (r, db') := SaveQuestion(db, sid, followUp, parentId, g, number, total);
      && (!(r.Ok? && r.value.Asked?) ==> db' == db)
      && (r.Ok? && r.value.Asked? ==>
            && g.Fresh?
            && (followUp && parentId.Some? ==> NamesRow(parentId, |db.questions|))
            && r.value.questionId == |db.questions| && r.value.question == g.question
            && r.value.questionNumber == number
            && db' == db.(questions := db.questions + [NewQuestion(db.questions, sid, followUp, parentId, g.question, g.fingerprint)]))
  {
  }

  /**
   * A follow-up whose `parentQuestionId` is empty gets no parent text in its prompt (the
   * empty string is falsy), and its insert then stores `""` as the parent and breaks the
   * foreign key: no question is ever saved, and nothing is written.
   */
  lemma NextQuestionBlankParent(db: Db, caller: nat, sid: nat,
                                stringify: Profile -> string, generate: (NextQuestionParams, nat) -> Option<CheckedQuestion>)
    requires ValidDb(db) && SessionGuard(db, caller, Some(sid)).None?
    ensures QuestionParams(db, sid, true, Some(Blank), stringify).parentQuestionText.None?
    ensures var (r, db') := NextQuestionStep(db, caller, Some(sid), true, Some(Blank), stringify, generate);
      && db' == db && r.Error? && r.status in {409, 500}
  {
    NextQuestionAppends(db, caller, sid, true, Some(Blank), stringify, generate);
  }

  /**
   * The weak topics handed to the prompt are those whose mean over all evaluated questions
   * of the session, follow-ups included, is below 6, and none unless `focusWeakAreas`.
   */
  lemma QuestionParamsWeakTopics(db: Db, sid: nat, followUp: bool, parentId: Option<IdText>,
                                 stringify: Profile -> string, t: string)
    requires sid < |db.sessions| && ValidConfig(db.sessions[sid].config)
    requires ResumeKnown(db.sessions[sid].config, |db.resumes|)
    ensures var p := QuestionParams(db, sid, followUp, parentId, stringify);
      var es := EvaluatedIn(db.questions, db.answers, sid, false);
      && (!db.sessions[sid].config.focusWeakAreas ==> p.weakTopics == [])
      && (db.sessions[sid].config.focusWeakAreas ==>
            (t in p.weakTopics <==> t in Scoring.Topics(es) && Sum(ScoresOf(es, t)) < 6 * |ScoresOf(es, t)|))
  {
    WeakTopicsSpec(EvaluatedIn(db.questions, db.answers, sid, false), t);
  }

  /** Appending a question of session `sid` with the next order index and a new fingerprint keeps the tables valid. */
  lemma AppendQuestionKeepsValid(db: Db, row: QuestionRow)
    requires ValidDb(db) && row.sessionId < |db.sessions|
    requires row.orderIndex == |SessionQuestions(db.questions, row.sessionId)|
    requires row.fingerprint !in Fingerprints(db.questions, row.sessionId)
    requires row.parentId.Some? ==> row.parentId.value < |db.questions|
    ensures ValidDb(db.(questions := db.questions + [row]))
  {
    var qs := db.questions;
    var qs' := qs + [row];
    AnswersValidMore(db.answers, |qs|, |qs'|);
    forall i | 0 <= i < |qs'|
      ensures qs'[i].sessionId < |db.sessions|
      ensures qs'[i].orderIndex == |SessionQuestions(qs'[..i], qs'[i].sessionId)|
      ensures qs'[i].parentId.Some? ==> qs'[i].parentId.value < i
    {
      if i < |qs| {
        assert qs'[..i] == qs[..i];
      } else {
        assert qs'[..i] == qs;
      }
    }
    forall i, j | 0 <= i < j < |qs'| && qs'[i].sessionId == qs'[j].sessionId
      ensures qs'[i].fingerprint != qs'[j].fingerprint
    {
      if j == |qs| {
        assert qs'[i] == qs[i];
      }
    }
  }

  lemma NextQuestionKeepsValid(db: Db, caller: nat, sessionId: Option<nat>, followUp: bool, parentId: Option<IdText>,
                               stringify: Profile -> string, generate: (NextQuestionParams, nat) -> Option<CheckedQuestion>)
    requires ValidDb(db)
    ensures ValidDb(NextQuestionStep(db, caller, sessionId, followUp, parentId, stringify, generate).1)
  {
    if SessionGuard(db, caller, sessionId).None? {
      NextQuestionAppends(db, caller, sessionId.value, followUp, parentId, stringify, generate);
      var (r, db') := NextQuestionStep(db, caller, sessionId, followUp, parentId, stringify, generate);
      if r.Ok? && r.value.Asked? {
        AppendQuestionKeepsValid(db, db'.questions[|db.questions|]);
      }
    }
  }

  /**
   * In valid tables the `orderIndex`es of a session's questions, in creation order, are
   * exactly 0, 1, ..., n-1.
   */
  lemma {:induction false} DenseOrder(qs: seq<QuestionRow>, sid: nat)
    requires forall i :: 0 <= i < |qs| ==> qs[i].orderIndex == |SessionQuestions(qs[..i], qs[i].sessionId)|
    ensures forall k :: 0 <= k < |SessionQuestions(qs, sid)| ==> qs[SessionQuestions(qs, sid)[k]].orderIndex == k
  {
    if qs != [] {
      var init := qs[..|qs| - 1];
      forall i | 0 <= i < |init| ensures init[i].orderIndex == |SessionQuestions(init[..i], init[i].sessionId)| {
        assert init[..i] == qs[..i];
      }
      DenseOrder(init, sid);
      var last := |qs| - 1;
      var prev := SessionQuestions(init, sid);
      var ids := SessionQuestions(qs, sid);
      assert qs[..last] == init;
      assert ids == prev + (if qs[last].sessionId == sid then [last] else []);
      forall k | 0 <= k < |ids| ensures qs[ids[k]].orderIndex == k {
        if k < |prev| {
          assert ids[k] == prev[k];
          assert qs[prev[k]] == init[prev[k]];
        } else {
          assert ids[k] == last && qs[last].sessionId == sid;
        }
      }
    }
  }

  // ----- submit answer -----

  /** The answers of session `sid`'s questions, in creation order. */
  function SessionAnswers(db: Db, answers: seq<AnswerRow>, sid: nat): (r: seq<AnswerRow>)
    requires forall k :: 0 <= k < |answers| ==> answers[k].questionId < |db.questions|
    ensures forall k :: 0 <= k < |r| ==>
      r[k] in answers && r[k].questionId < |db.questions| && db.questions[r[k].questionId].sessionId == sid
  {
    if answers == [] then []
    else
      var last := answers[|answers| - 1];
      SessionAnswers(db, answers[..|answers| - 1], sid)
        + (if db.questions[last.questionId].sessionId == sid then [last] else [])
  }

  function Reverse<T>(s: seq<T>): (r: seq<T>)
    ensures |r| == |s| && forall i :: 0 <= i < |s| ==> r[i] == s[|s| - 1 - i]
  {
    seq(|s|, i requires 0 <= i < |s| => s[|s| - 1 - i])
  }

  /**
   * `previousScores`: the latest three evaluations of the session named in the body, newest
   * first, as topic and score.
   */
  function PreviousScores(db: Db, sid: nat): (r: seq<PreviousScore>)
    requires AnswersValid(db.answers, |db.questions|)
  {
    var latest := Reverse(Suffix(SessionAnswers(db, db.answers, sid), 3));
    seq(|latest|, k requires 0 <= k < |latest| =>
      PreviousScore(db.questions[latest[k].questionId].topic, latest[k].evaluation.score))
  }

  /**
   * The evaluator sees the latest `min(3, n)` evaluations of questions of the named session,
   * newest first: the k-th is the (k+1)-th newest answer of the session.
   */
  lemma PreviousScoresSpec(db: Db, sid: nat)
    requires AnswersValid(db.answers, |db.questions|)
    ensures var all := SessionAnswers(db, db.answers, sid);
      |PreviousScores(db, sid)| == if |all| < 3 then |all| else 3
    ensures var all := SessionAnswers(db, db.answers, sid);
      forall k :: 0 <= k < |PreviousScores(db, sid)| ==>
        k < |all| && PreviousScores(db, sid)[k] ==
          PreviousScore(db.questions[all[|all| - 1 - k].questionId].topic, all[|all| - 1 - k].evaluation.score)
  {
    var all := SessionAnswers(db, db.answers, sid);
    var latest := Reverse(Suffix(all, 3));
    LatestFirst(all, 3);
    var p := PreviousScores(db, sid);
    forall k | 0 <= k < |p|
      ensures k < |all| && p[k] == PreviousScore(db.questions[all[|all| - 1 - k].questionId].topic, all[|all| - 1 - k].evaluation.score)
    {
      assert latest[k] == all[|all| - 1 - k];
    }
  }

  /** The last `n` elements, newest first. */
  lemma LatestFirst<T>(s: seq<T>, n: nat)
    ensures var r := Reverse(Suffix(s, n));
      && |r| == (if |s| < n then |s| else n)
      && forall k :: 0 <= k < |r| ==> r[k] == s[|s| - 1 - k]
  {
    var tail := Suffix(s, n);
    forall k | 0 <= k < |tail| ensures Reverse(tail)[k] == s[|s| - 1 - k] {
      assert Reverse(tail)[k] == tail[|tail| - 1 - k];
    }
  }

  datatype SubmitRequest = SubmitRequest(questionId: Option<nat>, answerText: Option<string>, sessionId: Option<nat>)

  /** The checks made before the question is loaded. */
  function SubmitValidation(req: SubmitRequest): Option<Reply<CheckedEvaluation>> {
    if req.questionId.None? || req.sessionId.None? then Some(Error(400, "questionId and sessionId are required"))
    else if req.answerText.None? || Trim(req.answerText.value) == [] then Some(Error(400, "Answer cannot be empty"))
    else if Utf16Length(Trim(req.answerText.value)) > 5000 then Some(Error(400, "Answer is too long (max 5000 characters)"))
    else None
  }

  /** The arguments of `buildEvaluationPrompt` for the question and the trimmed answer. */
  function EvaluationRequest(db: Db, qid: nat, answer: string, sid: nat): EvaluationParams
    requires ValidDb(db) && qid < |db.questions|
  {
    var q := db.questions[qid];
    EvaluationParams(q.questionText, q.topic, q.difficulty, q.expectedPoints, answer, PreviousScores(db, sid))
  }

  /** The submit-answer route. */
  function SubmitStep(db: Db, caller: nat, req: SubmitRequest, evaluate: EvaluationParams -> Option<CheckedEvaluation>)
    : (Reply<CheckedEvaluation>, Db)
    requires ValidDb(db)
  {
    match SubmitValidation(req)
    case Some(e) => (e, db)
    case None =>
      var qid := req.questionId.value;
      if qid >= |db.questions| then (Error(404, "Question not found"), db)
      else if db.sessions[db.questions[qid].sessionId].owner != caller then (Error(403, "Forbidden"), db)
      else if AnswerOf(db.answers, qid).Some? then (Error(409, "Question already answered"), db)
      else
        var text := Trim(req.answerText.value);
        match evaluate(EvaluationRequest(db, qid, text, req.sessionId.value))
        case None => (Error(500, "Failed to evaluate answer. Please try again."), db)
        case Some(e) => (Ok(e), db.(answers := db.answers + [AnswerRow(qid, text, e)]))
  }

  /**
   * A malformed request, an unknown or foreign question and an answered question are
   * rejected whatever the evaluator would say, with nothing written.
   */
  lemma SubmitGuards(db: Db, caller: nat, req: SubmitRequest,
                     e1: EvaluationParams -> Option<CheckedEvaluation>, e2: EvaluationParams -> Option<CheckedEvaluation>)
    requires ValidDb(db)
    requires SubmitValidation(req).Some? || req.questionId.value >= |db.questions|
      || db.sessions[db.questions[req.questionId.value].sessionId].owner != caller
      || AnswerOf(db.answers, req.questionId.value).Some?
    ensures var (r, db') := SubmitStep(db, caller, req, e1);
      && (r, db') == SubmitStep(db, caller, req, e2) && db' == db && r.Error? && r.status in {400, 403, 404, 409}
  {
  }

  /**
   * A submission writes only on success, and then exactly one answer row: the trimmed text
   * (1..5000 UTF-16 code units) for a question that had no answer, with the evaluation as the
   * evaluator returned it. An answer is never overwritten.
   */
  lemma SubmitWritesOnce(db: Db, caller: nat, req: SubmitRequest, evaluate: EvaluationParams -> Option<CheckedEvaluation>)
    requires ValidDb(db)
    ensures var (r, db') := SubmitStep(db, caller, req, evaluate);
      && (r.Error? ==> db' == db)
      && (r.Ok? ==>
            var qid := req.questionId.value;
            var text := Trim(req.answerText.value);
            && qid < |db.questions| && AnswerOf(db.answers, qid).None?
            && db' == db.(answers := db.answers + [AnswerRow(qid, text, r.value)])
            && 0 < Utf16Length(text) <= 5000
            && Some(r.value) == evaluate(EvaluationRequest(db, qid, text, req.sessionId.value))
            && AnswerOf(db'.answers, qid) == Some(AnswerRow(qid, text, r.value)))
  {
    if SubmitValidation(req).None? {
      var qid := req.questionId.value;
      if qid < |db.questions| && db.sessions[db.questions[qid].sessionId].owner == caller && AnswerOf(db.answers, qid).None? {
        var text := Trim(req.answerText.value);
        var ev := evaluate(EvaluationRequest(db, qid, text, req.sessionId.value));
        if ev.Some? {
          assert SubmitStep(db, caller, req, evaluate) == (Ok(ev.value), db.(answers := db.answers + [AnswerRow(qid, text, ev.value)]));
          AnswerOfAppend(db.answers, AnswerRow(qid, text, ev.value));
        }
      }
    }
  }

  lemma {:induction false} AnswerOfAppend(answers: seq<AnswerRow>, a: AnswerRow)
    requires AnswerOf(answers, a.questionId).None?
    ensures AnswerOf(answers + [a], a.questionId) == Some(a)
  {
    if answers != [] {
      assert (answers + [a])[1..] == answers[1..] + [a];
      AnswerOfAppend(answers[1..], a);
    }
  }

  /** An answer to a question of the table that has none keeps the answers valid. */
  lemma AnswersValidSnoc(answers: seq<AnswerRow>, a: AnswerRow, n: nat)
    requires AnswersValid(answers, n) && a.questionId < n && AnswerOf(answers, a.questionId).None?
    ensures AnswersValid(answers + [a], n)
  {
    var all := answers + [a];
    forall k, l | 0 <= k < l < |all| ensures all[k].questionId != all[l].questionId {
      assert all[k] == answers[k];
    }
  }

  lemma SubmitKeepsValid(db: Db, caller: nat, req: SubmitRequest, evaluate: EvaluationParams -> Option<CheckedEvaluation>)
    requires ValidDb(db)
    ensures ValidDb(SubmitStep(db, caller, req, evaluate).1)
  {
    SubmitWritesOnce(db, caller, req, evaluate);
    var (r, db') := SubmitStep(db, caller, req, evaluate);
    if r.Ok? {
      var a := AnswerRow(req.questionId.value, Trim(req.answerText.value), r.value);
      assert db' == db.(answers := db.answers + [a]);
      AnswersValidSnoc(db.answers, a, |db.questions|);
    }
  }

  // ----- report -----

  /** The first question, of any session, whose parent is `qid` (`q.followUps[0]`). */
  function FirstFollowUp(qs: seq<QuestionRow>, qid: nat): (r: Option<nat>)
    ensures r.Some? ==> (r.value < |qs| && qs[r.value].parentId == Some(qid)
      && forall i :: 0 <= i < r.value ==> qs[i].parentId != Some(qid))
    ensures r.None? ==> forall i :: 0 <= i < |qs| ==> qs[i].parentId != Some(qid)
  {
    if qs == [] then None
    else
      var r := FirstFollowUp(qs[..|qs| - 1], qid);
      if r.Some? then r
      else if qs[|qs| - 1].parentId == Some(qid) then Some(|qs| - 1)
      else None
  }

  datatype FollowUpItem = FollowUpItem(
    questionText: string, topic: string, answer: Option<string>, evaluation: Option<Evaluation>)

  datatype TranscriptItem = TranscriptItem(
    questionId: nat, questionText: string, topic: string, difficulty: Level, orderIndex: nat,
    answer: Option<string>, evaluation: Option<Evaluation>, followUp: Option<FollowUpItem>)

  function AnswerText(a: Option<AnswerRow>): Option<string> {
    if a.Some? then Some(a.value.answerText) else None
  }

  function AnswerEvaluation(a: Option<AnswerRow>): Option<Evaluation> {
    if a.Some? then Some(a.value.evaluation) else None
  }

  /** The ids of session `sid`'s main questions, in `orderIndex` order. */
  function MainQuestions(qs: seq<QuestionRow>, sid: nat): (r: seq<nat>)
    ensures forall k :: 0 <= k < |r| ==> r[k] < |qs| && qs[r[k]].sessionId == sid && !qs[r[k]].isFollowUp
    ensures forall i :: 0 <= i < |qs| && qs[i].sessionId == sid && !qs[i].isFollowUp ==> i in r
    ensures forall k, l :: 0 <= k < l < |r| ==> r[k] < r[l]
  {
    MainBelow(qs, sid, |qs|)
  }

  /** The ids below `n` of session `sid`'s main questions, in increasing order. */
  function MainBelow(qs: seq<QuestionRow>, sid: nat, n: nat): (r: seq<nat>)
    requires n <= |qs|
    ensures forall k :: 0 <= k < |r| ==> r[k] < n && qs[r[k]].sessionId == sid && !qs[r[k]].isFollowUp
    ensures forall i :: 0 <= i < n && qs[i].sessionId == sid && !qs[i].isFollowUp ==> i in r
    ensures forall k, l :: 0 <= k < l < |r| ==> r[k] < r[l]
  {
    if n == 0 then []
    else if qs[n - 1].sessionId == sid && !qs[n - 1].isFollowUp then MainBelow(qs, sid, n - 1) + [n - 1]
    else MainBelow(qs, sid, n - 1)
  }

  function TranscriptEntry(db: Db, qid: nat): TranscriptItem
    requires qid < |db.questions|
  {
    var q := db.questions[qid];
    var a := AnswerOf(db.answers, qid);
    var f := FirstFollowUp(db.questions, qid);
    TranscriptItem(qid, q.questionText, q.topic, q.difficulty, q.orderIndex, AnswerText(a), AnswerEvaluation(a),
      if f.None? then None
      else
        var fq := db.questions[f.value];
        var fa := AnswerOf(db.answers, f.value);
        Some(FollowUpItem(fq.questionText, fq.topic, AnswerText(fa), AnswerEvaluation(fa))))
  }

  /** `buildTranscript(sessionId)`: one item per main question, in `orderIndex` order. */
  function Transcript(db: Db, sid: nat): (r: seq<TranscriptItem>)
  {
    var ids := MainQuestions(db.questions, sid);
    seq(|ids|, k requires 0 <= k < |ids| => TranscriptEntry(db, ids[k]))
  }

  /** In a strictly increasing sequence, a smaller entry sits at an earlier position. */
  lemma IncreasingPositions(all: seq<nat>, a: nat, b: nat)
    requires forall k, l :: 0 <= k < l < |all| ==> all[k] < all[l]
    requires a < |all| && b < |all| && all[a] < all[b]
    ensures a < b
  {
  }

  /** Of two questions of one session, the one created first has the smaller `orderIndex`. */
  lemma OrderFollowsCreation(qs: seq<QuestionRow>, sid: nat, i: nat, j: nat)
    requires forall i :: 0 <= i < |qs| ==> qs[i].orderIndex == |SessionQuestions(qs[..i], qs[i].sessionId)|
    requires i < j < |qs| && qs[i].sessionId == sid && qs[j].sessionId == sid
    ensures qs[i].orderIndex < qs[j].orderIndex
  {
    var all := SessionQuestions(qs, sid);
    DenseOrder(qs, sid);
    assert i in all && j in all;
    var a :| 0 <= a < |all| && all[a] == i;
    var b :| 0 <= b < |all| && all[b] == j;
    IncreasingPositions(all, a, b);
  }

  /** The transcript lists the session's main questions in increasing `orderIndex`. */
  lemma TranscriptOrder(db: Db, sid: nat)
    requires forall i :: 0 <= i < |db.questions| ==>
      db.questions[i].orderIndex == |SessionQuestions(db.questions[..i], db.questions[i].sessionId)|
    ensures var t := Transcript(db, sid);
      forall k, l :: 0 <= k < l < |t| ==> t[k].orderIndex < t[l].orderIndex
  {
    var t := Transcript(db, sid);
    var ids := MainQuestions(db.questions, sid);
    forall k, l | 0 <= k < l < |t| ensures t[k].orderIndex < t[l].orderIndex {
      OrderFollowsCreation(db.questions, sid, ids[k], ids[l]);
    }
  }

  /** Every main question of the session has an item in the transcript. */
  lemma TranscriptCovers(db: Db, sid: nat, i: nat)
    requires i < |db.questions| && db.questions[i].sessionId == sid && !db.questions[i].isFollowUp
    ensures exists k :: 0 <= k < |Transcript(db, sid)| && Transcript(db, sid)[k].questionId == i
  {
    var ids := MainQuestions(db.questions, sid);
    var k :| 0 <= k < |ids| && ids[k] == i;
    assert Transcript(db, sid)[k].questionId == i;
  }

  /**
   * Each transcript item is a main question of the session; its evaluation is missing
   * exactly when it has no answer, and its follow-up exactly when no question names it as
   * parent.
   */
  lemma TranscriptEntries(db: Db, sid: nat, k: nat)
    requires k < |Transcript(db, sid)|
    ensures var item := Transcript(db, sid)[k];
      var id := item.questionId;
      && id < |db.questions| && db.questions[id].sessionId == sid && !db.questions[id].isFollowUp
      && item.questionText == db.questions[id].questionText
      && (item.evaluation.None? <==> AnswerOf(db.answers, id).None?)
      && (item.followUp.None? <==> forall i :: 0 <= i < |db.questions| ==> db.questions[i].parentId != Some(id))
  {
  }

  datatype ReportReply = ReportReply(report: Report, transcript: seq<TranscriptItem>)

  /** The report route; `statusUpdateFails` stands for a failure of its second write. */
  function ReportStep(db: Db, caller: nat, sessionId: Option<nat>, statusUpdateFails: bool): (Reply<ReportReply>, Db)
    requires ValidDb(db)
  {
    if sessionId.None? then (Error(400, "sessionId is required"), db)
    else if sessionId.value >= |db.sessions| then (Error(404, "Session not found"), db)
    else if db.sessions[sessionId.value].owner != caller then (Error(403, "Forbidden"), db)
    else
      var sid := sessionId.value;
      if sid in db.reports then (Ok(ReportReply(db.reports[sid], Transcript(db, sid))), db)
      else
        var es := EvaluatedIn(db.questions, db.answers, sid, true);
        if es == [] then (Error(400, "No completed questions found"), db)
        else
          var stored := db.(reports := db.reports[sid := ReportOf(es)]);
          if statusUpdateFails then (Error(500, "Failed to generate report"), stored)
          else
            var done := stored.(sessions := stored.sessions[sid := stored.sessions[sid].(status := Completed, ended := true)]);
            (Ok(ReportReply(ReportOf(es), Transcript(done, sid))), done)
  }

  /**
   * A stored report is returned unchanged and nothing is written. Otherwise the report is
   * built from the scored main questions and stored, and only then is the session marked
   * completed: when that second write fails the report stays stored.
   */
  lemma ReportStepSpec(db: Db, caller: nat, sid: nat, statusUpdateFails: bool)
    requires ValidDb(db) && sid < |db.sessions| && db.sessions[sid].owner == caller
    ensures var (r, db') := ReportStep(db, caller, Some(sid), statusUpdateFails);
      var es := EvaluatedIn(db.questions, db.answers, sid, true);
      && (sid in db.reports ==> db' == db && r == Ok(ReportReply(db.reports[sid], Transcript(db, sid))))
      && (sid !in db.reports && es == [] ==> db' == db && r == Error(400, "No completed questions found"))
      && (sid !in db.reports && es != [] ==>
            && db'.reports == db.reports[sid := ReportOf(es)]
            && db'.questions == db.questions && db'.answers == db.answers && db'.resumes == db.resumes
            && (statusUpdateFails ==> db'.sessions == db.sessions && r.Error?)
            && (!statusUpdateFails ==>
                  && db'.sessions == db.sessions[sid := db.sessions[sid].(status := Completed, ended := true)]
                  && r.Ok? && r.value.report == ReportOf(es)))
  {
  }

  lemma ReportKeepsValid(db: Db, caller: nat, sessionId: Option<nat>, statusUpdateFails: bool)
    requires ValidDb(db)
    ensures ValidDb(ReportStep(db, caller, sessionId, statusUpdateFails).1)
  {
    if sessionId.Some? && sessionId.value < |db.sessions| && db.sessions[sessionId.value].owner == caller {
      var sid := sessionId.value;
      var es := EvaluatedIn(db.questions, db.answers, sid, true);
      ReportStepSpec(db, caller, sid, statusUpdateFails);
      if sid !in db.reports && es != [] {
        ReportWritesKeepValid(db, sid, ReportOf(es));
      }
    }
  }

  /** Storing a report of session `sid`, then marking the session completed, keeps `ValidDb`. */
  lemma ReportWritesKeepValid(db: Db, sid: nat, report: Report)
    requires ValidDb(db) && sid < |db.sessions|
    ensures var stored := db.(reports := db.reports[sid := report]);
      && ValidDb(stored)
      && ValidDb(stored.(sessions := stored.sessions[sid := stored.sessions[sid].(status := Completed, ended := true)]))
  {
    var stored := db.(reports := db.reports[sid := report]);
    var done := stored.(sessions := stored.sessions[sid := stored.sessions[sid].(status := Completed, ended := true)]);
    forall s | 0 <= s < |done.sessions|
      ensures ValidConfig(done.sessions[s].config) && ResumeKnown(done.sessions[s].config, |done.resumes|)
    {
      assert done.sessions[s].config == db.sessions[s].config;
    }
  }

  // ----- session view -----

  datatype SessionView = SessionView(status: Status, config: CreateData, answeredCount: nat)

  /** The session route: guards, then the status, the configuration and the answered count. */
  function ReadSession(db: Db, caller: nat, sessionId: Option<nat>): Reply<SessionView> {
    if sessionId.None? then Error(400, "sessionId is required")
    else if sessionId.value >= |db.sessions| then Error(404, "Session not found")
    else if db.sessions[sessionId.value].owner != caller then Error(403, "Forbidden")
    else
      var s := db.sessions[sessionId.value];
      Ok(SessionView(s.status, s.config, AnsweredMain(db.questions, db.answers, sessionId.value)))
  }

  /**
   * The session view echoes the stored status and configuration, and its answered count is
   * both the number of questions the report would score and the count that ends the
   * interview: once it reaches `numQuestions ?? 10`, a main-question request of an active
   * session is answered `done`.
   */
  lemma ReadSessionSpec(db: Db, caller: nat, sid: nat, parentId: Option<IdText>,
                        stringify: Profile -> string, generate: (NextQuestionParams, nat) -> Option<CheckedQuestion>)
    requires ValidDb(db) && sid < |db.sessions| && db.sessions[sid].owner == caller
    ensures var v := ReadSession(db, caller, Some(sid));
      && v.Ok? && v.value.status == db.sessions[sid].status && v.value.config == db.sessions[sid].config
      && v.value.answeredCount == |EvaluatedIn(db.questions, db.answers, sid, true)|
      && (v.value.status == InProgress && v.value.answeredCount >= TotalQuestions(v.value.config) ==>
            NextQuestionStep(db, caller, Some(sid), false, parentId, stringify, generate) == (Ok(Done), db))
  {
    AnsweredMainIsScored(db.questions, db.answers, sid);
  }

  // ----- resume upload -----

  datatype UploadFile = UploadFile(name: string, mimeType: string, size: nat)

  datatype UploadReply = UploadReply(resumeId: nat, profile: CheckedProfile)

  const MaxUploadBytes: nat := 5 * 1024 * 1024

  const UnreadablePdf: string :=
    "Could not read PDF \U{2014} please upload a text-based resume. Scanned image PDFs are not supported."

  /** The checks on the uploaded file itself. */
  function FileGuard(file: Option<UploadFile>): Option<Reply<UploadReply>> {
    if file.None? then Some(Error(400, "No file uploaded"))
    else if file.value.mimeType != "application/pdf" then Some(Error(400, "Only PDF files are accepted"))
    else if file.value.size > MaxUploadBytes then Some(Error(400, "File too large. Maximum size is 5MB"))
    else None
  }

  /**
   * The upload route. `extracted` is the text `pdf-parse` returns (`None` when it throws);
   * `analyse(text)` is the profile analysis of the cleaned text.
   */
  function UploadStep(db: Db, caller: nat, file: Option<UploadFile>, extracted: Option<string>,
                      analyse: string -> Option<CheckedProfile>): (Reply<UploadReply>, Db)
  {
    match FileGuard(file)
    case Some(e) => (e, db)
    case None =>
      match extracted
      case None => (Error(500, "Upload failed. Please try again."), db)
      case Some(text) =>
        var clean := CleanText(text);
        if |clean| < 100 then (Error(422, UnreadablePdf), db)
        else
          match analyse(clean)
          case None => (Error(500, "Failed to analyze resume. Please try again."), db)
          case Some(p) =>
            (Ok(UploadReply(|db.resumes|, p)),
             db.(resumes := db.resumes + [ResumeRow(caller, file.value.name, Prefix(clean, 20000), p)]))
  }

  /**
   * An upload writes only on success, and then one resume row: a PDF of at most 5 MiB whose
   * cleaned text has at least 100 characters, stored cut to 20000 characters, with the
   * analysed profile. A rejected file or a too-short text never reaches the analysis.
   */
  lemma UploadStepSpec(db: Db, caller: nat, file: Option<UploadFile>, extracted: Option<string>,
                       a1: string -> Option<CheckedProfile>, a2: string -> Option<CheckedProfile>)
    ensures var (r, db') := UploadStep(db, caller, file, extracted, a1);
      && (r.Error? ==> db' == db)
      && ((FileGuard(file).Some? || extracted.None? || |CleanText(extracted.value)| < 100) ==>
            (r, db') == UploadStep(db, caller, file, extracted, a2) && r.Error?)
      && (r.Ok? ==>
            var clean := CleanText(extracted.value);
            var row := db'.resumes[|db.resumes|];
            && file.value.mimeType == "application/pdf" && file.value.size <= MaxUploadBytes
            && |clean| >= 100
            && db' == db.(resumes := db.resumes + [row])
            && row.owner == caller && r.value.resumeId == |db.resumes|
            && |row.rawText| == (if |clean| <= 20000 then |clean| else 20000)
            && row.rawText == clean[..|row.rawText|]
            && Some(row.profile) == a1(clean) && r.value.profile == row.profile)
  {
  }

  /** A file of exactly 5 MiB passes the size check; one byte more does not. */
  lemma UploadSizeLimit(name: string)
    ensures FileGuard(Some(UploadFile(name, "application/pdf", 5 * 1024 * 1024))).None?
    ensures FileGuard(Some(UploadFile(name, "application/pdf", 5 * 1024 * 1024 + 1))) ==
      Some(Error(400, "File too large. Maximum size is 5MB"))
  {
  }

  lemma UploadKeepsValid(db: Db, caller: nat, file: Option<UploadFile>, extracted: Option<string>,
                         analyse: string -> Option<CheckedProfile>)
    requires ValidDb(db)
    ensures ValidDb(UploadStep(db, caller, file, extracted, analyse).1)
  {
  }

  // ----- the store -----

  /** The database the interview routes share, one field per table. */
  class InterviewStore {
    var sessions: seq<Session>
    var questions: seq<QuestionRow>
    var answers: seq<AnswerRow>
    var reports: map<nat, Report>
    var resumes: seq<ResumeRow>

    function Snapshot(): Db
      reads this
    {
      Db(sessions, questions, answers, reports, resumes)
    }

    predicate Valid()
      reads this
    {
      ValidDb(Snapshot())
    }

    constructor()
      ensures Snapshot() == Db([], [], [], map[], []) && Valid()
    {
      sessions, questions, answers, reports, resumes := [], [], [], map[], [];
    }

    /** `POST /api/interview/create`. */
    method Create(caller: nat, body: CreateBody) returns (r: Reply<nat>)
      requires Valid()
      modifies this
      ensures Valid()
      ensures (r, Snapshot()) == CreateStep(old(Snapshot()), caller, body)
    {
      CreateKeepsValid(Snapshot(), caller, body);
      match CheckCreate(body)
      case Rejected(e) =>
        r := Error(400, CreateMessage(e));
      case Accepted(data) =>
        if !ResumeKnown(data, |resumes|) {
          return Error(500, "Failed to create interview session");
        }
        r := Ok(|sessions|);
        sessions := sessions + [Session(caller, data, InProgress, false)];
    }

    /** `POST /api/interview/next-question`. */
    method NextQuestion(caller: nat, sessionId: Option<nat>, followUp: bool, parentId: Option<IdText>,
                        stringify: Profile -> string, generate: (NextQuestionParams, nat) -> Option<CheckedQuestion>)
      returns (r: Reply<NextReply>)
      requires Valid()
      modifies this
      ensures Valid()
      ensures (r, Snapshot()) == NextQuestionStep(old(Snapshot()), caller, sessionId, followUp, parentId, stringify, generate)
    {
      var db := Snapshot();
      var guard := SessionGuard(db, caller, sessionId);
      if guard.Some? {
        return guard.value;
      }
      var sid := sessionId.value;
      if !followUp && AnsweredMain(questions, answers, sid) >= TotalQuestions(sessions[sid].config) {
        return Ok(Done);
      }
      r := Ask(sid, followUp, parentId, stringify, generate);
      NextQuestionKeepsValid(db, caller, sessionId, followUp, parentId, stringify, generate);
    }

    /** The route after the session checks: the generation loop and the insert. */
    method Ask(sid: nat, followUp: bool, parentId: Option<IdText>,
               stringify: Profile -> string, generate: (NextQuestionParams, nat) -> Option<CheckedQuestion>)
      returns (r: Reply<NextReply>)
      requires sid < |sessions| && ValidConfig(sessions[sid].config) && ResumeKnown(sessions[sid].config, |resumes|)
      modifies this
      ensures (r, Snapshot()) == AskQuestion(old(Snapshot()), sid, followUp, parentId, stringify, generate)
    {
      var params := BuildQuestionParams(Snapshot(), sid, followUp, parentId, stringify);
      var generated := GenerateUnique(generate, params, params.askedQuestions);
      r := Save(sid, followUp, parentId, generated, params.questionNumber, params.totalQuestions);
    }

    /** The end of the next-question route: the reply, and the insert of a fresh question. */
    method Save(sid: nat, followUp: bool, parentId: Option<IdText>, g: Generated, number: nat, total: nat)
      returns (r: Reply<NextReply>)
      modifies this
      ensures (r, Snapshot()) == SaveQuestion(old(Snapshot()), sid, followUp, parentId, g, number, total)
    {
      match g
      case AiFailed =>
        r := Error(500, "Failed to generate question. Please try again.");
      case Duplicate =>
        r := Error(409, "DUPLICATE_QUESTION");
      case Fresh(q, h) =>
        if followUp && parentId.Some? && !NamesRow(parentId, |questions|) {
          return Error(500, "Something went wrong");
        }
        r := Ok(Asked(|questions|, q, number, total, followUp));
        questions := questions + [NewQuestion(questions, sid, followUp, parentId, q, h)];
    }

    /** `POST /api/interview/submit-answer`. */
    method SubmitAnswer(caller: nat, req: SubmitRequest, evaluate: EvaluationParams -> Option<CheckedEvaluation>)
      returns (r: Reply<CheckedEvaluation>)
      requires Valid()
      modifies this
      ensures Valid()
      ensures (r, Snapshot()) == SubmitStep(old(Snapshot()), caller, req, evaluate)
    {
      var db := Snapshot();
      SubmitKeepsValid(db, caller, req, evaluate);
      var invalid := SubmitValidation(req);
      if invalid.Some? {
        return invalid.value;
      }
      var qid := req.questionId.value;
      if qid >= |questions| {
        return Error(404, "Question not found");
      }
      if sessions[questions[qid].sessionId].owner != caller {
        return Error(403, "Forbidden");
      }
      if AnswerOf(answers, qid).Some? {
        return Error(409, "Question already answered");
      }
      var text := Trim(req.answerText.value);
      var evaluation := evaluate(EvaluationRequest(db, qid, text, req.sessionId.value));
      if evaluation.None? {
        return Error(500, "Failed to evaluate answer. Please try again.");
      }
      answers := answers + [AnswerRow(qid, text, evaluation.value)];
      r := Ok(evaluation.value);
    }

    /** `GET /api/interview/report`. */
    method GetReport(caller: nat, sessionId: Option<nat>, statusUpdateFails: bool) returns (r: Reply<ReportReply>)
      requires Valid()
      modifies this
      ensures Valid()
      ensures (r, Snapshot()) == ReportStep(old(Snapshot()), caller, sessionId, statusUpdateFails)
    {
      var db := Snapshot();
      ReportKeepsValid(db, caller, sessionId, statusUpdateFails);
      if sessionId.None? {
        return Error(400, "sessionId is required");
      }
      var sid := sessionId.value;
      if sid >= |sessions| {
        return Error(404, "Session not found");
      }
      if sessions[sid].owner != caller {
        return Error(403, "Forbidden");
      }
      if sid in reports {
        return Ok(ReportReply(reports[sid], Transcript(db, sid)));
      }
      var scored := EvaluatedIn(questions, answers, sid, true);
      if scored == [] {
        return Error(400, "No completed questions found");
      }
      var groups := GroupScores(scored);
      var sorted := SortByAvg(TopicScores(groups));
      var report := Report(RoundedTenths(Sum(Scores(scored)), |scored|), sorted,
                           FirstSix(StrengthLists(scored)), FirstSix(MissingLists(scored)),
                           Tips(WeakEntries(sorted)));
      assert report == ReportOf(scored);
      reports := reports[sid := report];
      if statusUpdateFails {
        return Error(500, "Failed to generate report");
      }
      sessions := sessions[sid := sessions[sid].(status := Completed, ended := true)];
      r := Ok(ReportReply(report, Transcript(Snapshot(), sid)));
    }

    /** `POST /api/resume/upload`. */
    method UploadResume(caller: nat, file: Option<UploadFile>, extracted: Option<string>,
                        analyse: string -> Option<CheckedProfile>)
      returns (r: Reply<UploadReply>)
      requires Valid()
      modifies this
      ensures Valid()
      ensures (r, Snapshot()) == UploadStep(old(Snapshot()), caller, file, extracted, analyse)
    {
      UploadKeepsValid(Snapshot(), caller, file, extracted, analyse);
      var rejected := FileGuard(file);
      if rejected.Some? {
        return rejected.value;
      }
      if extracted.None? {
        return Error(500, "Upload failed. Please try again.");
      }
      var rawText := CleanText(extracted.value);
      if |rawText| < 100 {
        return Error(422, UnreadablePdf);
      }
      var profile := analyse(rawText);
      if profile.None? {
        return Error(500, "Failed to analyze resume. Please try again.");
      }
      r := Ok(UploadReply(|resumes|, profile.value));
      resumes := resumes + [ResumeRow(caller, file.value.name, Prefix(rawText, 20000), profile.value)];
    }
  }
}
