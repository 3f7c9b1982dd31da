/**
 * The English practice routes: create (a session and its AI opening message), message (a
 * USER message with its correction and the AI reply, appended with dense order indices)
 * and report (the stored report with the USER-to-AI transcript pairs).
 *
 * Rows are positions in their table; the caller is the signed-in user's id. A message
 * row carries its `EnglishCorrection`, the one-to-one row keyed by the message id. The
 * generation calls are function parameters whose `None` stands for
 * `AI_GENERATION_FAILED`. Reports are written by the end-session route, which is not
 * part of this model: here they are only read.
 */
module English {
  import opened Wrappers
  import opened Text
  import opened Schemas

  datatype Mode = Free | Scenario
  datatype Tone = Casual | Professional
  datatype Status = InProgress | Completed
  datatype Role = User | Ai

  /** `z.enum(["FREE", "SCENARIO"])`. */
  function ParseMode(s: string): (r: Option<Mode>)
    ensures r == Some(Free) <==> s == "FREE"
    ensures r == Some(Scenario) <==> s == "SCENARIO"
    ensures r.None? <==> s != "FREE" && s != "SCENARIO"
  {
    if s == "FREE" then Some(Free) else if s == "SCENARIO" then Some(Scenario) else None
  }

  /** `z.enum(["CASUAL", "PROFESSIONAL"])`. */
  function ParseTone(s: string): (r: Option<Tone>)
    ensures r == Some(Casual) <==> s == "CASUAL"
    ensures r == Some(Professional) <==> s == "PROFESSIONAL"
    ensures r.None? <==> s != "CASUAL" && s != "PROFESSIONAL"
  {
    if s == "CASUAL" then Some(Casual) else if s == "PROFESSIONAL" then Some(Professional) else None
  }

  datatype EnglishSession = EnglishSession(owner: nat, mode: Mode, level: Tone, status: Status)

  datatype Message = Message(sessionId: nat, role: Role, content: string, orderIndex: nat,
                             correction: Option<Correction>)

  datatype Mistake = Mistake(kind: string, count: nat, examples: seq<string>)

  /** An `EnglishReport` row; scores in tenths. */
  datatype EnglishReport = EnglishReport(
    overallFluency: int, grammarScore: int, vocabularyScore: int, toneScore: int,
    commonMistakes: seq<Mistake>, vocabularyHighlights: seq<string>, improvementTips: seq<string>)

  datatype EnglishDb = EnglishDb(sessions: seq<EnglishSession>, messages: seq<Message>,
                                 reports: map<nat, EnglishReport>)

  /** The messages of session `sid`, in creation order. */
  function SessionMessages(ms: seq<Message>, sid: nat): (r: seq<Message>)
    ensures |r| <= |ms|
    ensures forall k :: 0 <= k < |r| ==> r[k] in ms && r[k].sessionId == sid
  {
    if ms == [] then []
    else SessionMessages(ms[..|ms| - 1], sid) + (if ms[|ms| - 1].sessionId == sid then [ms[|ms| - 1]] else [])
  }

  lemma SessionMessagesSnoc(ms: seq<Message>, m: Message, sid: nat)
    ensures SessionMessages(ms + [m], sid) == SessionMessages(ms, sid) + (if m.sessionId == sid then [m] else [])
  {
    assert (ms + [m])[..|ms|] == ms;
  }

  /** A session's log: its message at position k has order index k, and the first is the AI opening. */
  predicate DenseLog(log: seq<Message>) {
    && log != [] && log[0].role == Ai
    && forall k :: 0 <= k < |log| ==> log[k].orderIndex == k
  }

  /**
   * What the routes keep true: every message belongs to a session, and every session's
   * messages in creation order are its AI opening followed by the rest, indexed 0, 1, ...
   */
  predicate ValidEnglish(db: EnglishDb) {
    && (forall i :: 0 <= i < |db.messages| ==> db.messages[i].sessionId < |db.sessions|)
    && (forall s :: 0 <= s < |db.sessions| ==> DenseLog(SessionMessages(db.messages, s)))
    && (forall s :: s in db.reports ==> s < |db.sessions|)
  }

  lemma EmptyLog(ms: seq<Message>, sid: nat)
    requires forall i :: 0 <= i < |ms| ==> ms[i].sessionId != sid
    ensures SessionMessages(ms, sid) == []
  {
  }

  // ----- create -----

  /** The body fields; `None` when missing or not a string. */
  datatype CreateBody = CreateBody(mode: Option<string>, level: Option<string>)

  datatype Created = Created(sessionId: nat, openingMessage: OpeningMessage)

  function ParseCreate(body: CreateBody): (r: Option<(Mode, Tone)>)
    ensures r.Some? <==> body.mode.Some? && ParseMode(body.mode.value).Some?
                         && body.level.Some? && ParseTone(body.level.value).Some?
  {
    if body.mode.Some? && body.level.Some? then
      match (ParseMode(body.mode.value), ParseTone(body.level.value))
      case (Some(m), Some(t)) => Some((m, t))
      case _ => None
    else None
  }

  /**
   * The create route. `opening(mode, level)` is the checked opening message generated for
   * the session, or `None` when generation failed.
   */
  function CreateStep(db: EnglishDb, caller: nat, body: CreateBody, opening: (Mode, Tone) -> Option<OpeningMessage>)
    : (Reply<Created>, EnglishDb)
  {
    match ParseCreate(body)
    case None => (Error(400, "Invalid request"), db)
    case Some((mode, level)) =>
      match opening(mode, level)
      case None => (Error(500, "Failed to create English session"), db)
      case Some(text) =>
        var sid := |db.sessions|;
        (Ok(Created(sid, text)),
         EnglishDb(db.sessions + [EnglishSession(caller, mode, level, InProgress)],
                   db.messages + [Message(sid, Ai, text, 0, None)], db.reports))
  }

  /**
   * An invalid mode or level, or a failed generation, writes nothing; otherwise one new
   * session, in progress and owned by the caller, whose log is exactly the non-empty AI
   * opening message at index 0. No other session's log changes.
   */
  lemma CreateStepSpec(db: EnglishDb, caller: nat, body: CreateBody, opening: (Mode, Tone) -> Option<OpeningMessage>)
    requires ValidEnglish(db)
    ensures var (r, db') := CreateStep(db, caller, body, opening);
      && (ParseCreate(body).None? ==> r == Error(400, "Invalid request") && db' == db)
      && (r.Error? ==> db' == db)
      && (r.Ok? ==>
            var sid := r.value.sessionId;
            && ParseCreate(body).Some?
            && sid == |db.sessions| && |db'.sessions| == sid + 1
            && db'.sessions[..sid] == db.sessions
            && db'.sessions[sid] == EnglishSession(caller, ParseCreate(body).value.0, ParseCreate(body).value.1, InProgress)
            && SessionMessages(db'.messages, sid) == [Message(sid, Ai, r.value.openingMessage, 0, None)]
            && r.value.openingMessage != []
            && (forall s :: 0 <= s < |db.sessions| ==> SessionMessages(db'.messages, s) == SessionMessages(db.messages, s)))
  {
    var (r, db') := CreateStep(db, caller, body, opening);
    if r.Ok? {
      var sid := |db.sessions|;
      var m := Message(sid, Ai, r.value.openingMessage, 0, None);
      assert db'.messages == db.messages + [m];
      EmptyLog(db.messages, sid);
      forall s ensures SessionMessages(db.messages + [m], s) == SessionMessages(db.messages, s) + (if s == sid then [m] else []) {
        SessionMessagesSnoc(db.messages, m, s);
      }
    }
  }

  /** Adding a session together with its AI opening message at index 0 keeps the tables valid. */
  lemma AddSessionKeepsValid(db: EnglishDb, session: EnglishSession, m: Message)
    requires ValidEnglish(db)
    requires m.sessionId == |db.sessions| && m.role == Ai && m.orderIndex == 0
    ensures ValidEnglish(EnglishDb(db.sessions + [session], db.messages + [m], db.reports))
  {
    var db' := EnglishDb(db.sessions + [session], db.messages + [m], db.reports);
    EmptyLog(db.messages, m.sessionId);
    forall s | 0 <= s < |db'.sessions| ensures DenseLog(SessionMessages(db'.messages, s)) {
      SessionMessagesSnoc(db.messages, m, s);
      if s == m.sessionId {
        assert SessionMessages(db'.messages, s) == [m];
      } else {
        assert SessionMessages(db'.messages, s) == SessionMessages(db.messages, s);
      }
    }
    forall i | 0 <= i < |db'.messages| ensures db'.messages[i].sessionId < |db'.sessions| {
      if i < |db.messages| {
        assert db'.messages[i] == db.messages[i];
      }
    }
  }

  lemma CreateKeepsValid(db: EnglishDb, caller: nat, body: CreateBody, opening: (Mode, Tone) -> Option<OpeningMessage>)
    requires ValidEnglish(db)
    ensures ValidEnglish(CreateStep(db, caller, body, opening).1)
  {
    var (r, db') := CreateStep(db, caller, body, opening);
    if r.Ok? {
      var (mode, level) := ParseCreate(body).value;
      AddSessionKeepsValid(db, EnglishSession(caller, mode, level, InProgress),
                           Message(|db.sessions|, Ai, r.value.openingMessage, 0, None));
    }
  }

  // ----- message -----

  datatype Turn = Turn(role: Role, content: string)

  /** The arguments of `buildEnglishCoachPrompt`. */
  datatype CoachParams = CoachParams(
    level: Tone, mode: Mode, scenarioContext: Option<string>, conversationHistory: seq<Turn>, userMessage: string)

  datatype MessageRequest = MessageRequest(sessionId: Option<nat>, transcript: Option<string>)

  /** `runningFluency` in tenths. */
  datatype MessageReply = MessageReply(aiMessage: string, correction: Correction, runningFluency: int)

  /** The role and content of the 6 latest messages, oldest first. */
  function History(log: seq<Message>): (r: seq<Turn>)
    ensures |r| == if |log| <= 6 then |log| else 6
    ensures forall k :: 0 <= k < |r| ==>
      r[k] == Turn(log[|log| - |r| + k].role, log[|log| - |r| + k].content)
  {
    var recent := Suffix(log, 6);
    seq(|recent|, k requires 0 <= k < |recent| => Turn(recent[k].role, recent[k].content))
  }

  /** The first AI message's content, if any. */
  function FirstAi(log: seq<Message>): (r: Option<string>)
    ensures r.None? <==> forall k :: 0 <= k < |log| ==> log[k].role != Ai
    ensures r.Some? ==> exists k :: (0 <= k < |log| && log[k].role == Ai && log[k].content == r.value
      && forall j :: 0 <= j < k ==> log[j].role != Ai)
  {
    if log == [] then None
    else if log[0].role == Ai then Some(log[0].content)
    else
      var r := FirstAi(log[1..]);
      assert forall k :: 1 <= k < |log| ==> log[1..][k - 1] == log[k];
      if r.Some? then
        var k :| 0 <= k < |log[1..]| && log[1..][k].role == Ai && log[1..][k].content == r.value
          && forall j :: 0 <= j < k ==> log[1..][j].role != Ai;
        assert log[k + 1] == log[1..][k];
        r
      else r
  }

  /** The fluency scores of the corrections in a log, in order. */
  function Fluencies(log: seq<Message>): (r: seq<int>)
    ensures forall k :: 0 <= k < |r| ==> 0 <= r[k] <= 10
  {
    if log == [] then []
    else
      var m := log[|log| - 1];
      Fluencies(log[..|log| - 1]) + (if m.correction.Some? then [m.correction.value.fluencyScore as int] else [])
  }

  lemma FluenciesSnoc(log: seq<Message>, m: Message)
    ensures Fluencies(log + [m]) == Fluencies(log) + (if m.correction.Some? then [m.correction.value.fluencyScore as int] else [])
  {
    assert (log + [m])[..|log|] == log;
  }

  /** The two messages one exchange appends: the USER message with its correction at `count`, the AI reply at `count + 1`. */
  function Exchange(sid: nat, count: nat, text: string, ai: EnglishResponse): seq<Message> {
    [Message(sid, User, text, count, Some(ai.correction)), Message(sid, Ai, ai.aiResponse, count + 1, None)]
  }

  lemma SessionMessagesExchange(ms: seq<Message>, sid: nat, count: nat, text: string, ai: EnglishResponse, s: nat)
    ensures SessionMessages(ms + Exchange(sid, count, text, ai), s)
      == SessionMessages(ms, s) + (if s == sid then Exchange(sid, count, text, ai) else [])
  {
    var e := Exchange(sid, count, text, ai);
    SessionMessagesSnoc(ms, e[0], s);
    SessionMessagesSnoc(ms + [e[0]], e[1], s);
    assert ms + e == ms + [e[0]] + [e[1]];
  }

  lemma FluenciesExchange(log: seq<Message>, sid: nat, count: nat, text: string, ai: EnglishResponse)
    ensures Fluencies(log + Exchange(sid, count, text, ai)) == Fluencies(log) + [ai.correction.fluencyScore as int]
  {
    var e := Exchange(sid, count, text, ai);
    FluenciesSnoc(log, e[0]);
    FluenciesSnoc(log + [e[0]], e[1]);
    assert log + e == log + [e[0]] + [e[1]];
  }

  function CoachRequest(s: EnglishSession, log: seq<Message>, text: string): CoachParams {
    CoachParams(s.level, s.mode, if s.mode == Scenario then FirstAi(log) else None, History(log), text)
  }

  /** The message route's checks, in order. */
  function MessageGuard(db: EnglishDb, caller: nat, req: MessageRequest): Option<Reply<MessageReply>> {
    if req.sessionId.None? || req.transcript.None? || Trim(req.transcript.value) == [] then
      Some(Error(400, "sessionId and transcript are required"))
    else if Utf16Length(Trim(req.transcript.value)) > 2000 then Some(Error(400, "Message too long (max 2000 characters)"))
    else if req.sessionId.value >= |db.sessions| then Some(Error(404, "Session not found"))
    else if db.sessions[req.sessionId.value].owner != caller then Some(Error(403, "Forbidden"))
    else if db.sessions[req.sessionId.value].status != InProgress then Some(Error(400, "Session is no longer active"))
    else None
  }

  /** The message route; `coach(params)` is the checked coaching response, or `None`. */
  function MessageStep(db: EnglishDb, caller: nat, req: MessageRequest,
                       coach: CoachParams -> Option<CheckedEnglishResponse>): (Reply<MessageReply>, EnglishDb)
  {
    match MessageGuard(db, caller, req)
    case Some(e) => (e, db)
    case None =>
      var sid := req.sessionId.value;
      var text := Trim(req.transcript.value);
      var log := SessionMessages(db.messages, sid);
      match coach(CoachRequest(db.sessions[sid], log, text))
      case None => (Error(500, "Failed to process message. Please try again."), db)
      case Some(ai) => Respond(db, sid, text, ai)
  }

  /** The message route once the coach answered: both messages are stored, then the running mean is read. */
  function Respond(db: EnglishDb, sid: nat, text: string, ai: CheckedEnglishResponse): (Reply<MessageReply>, EnglishDb) {
    var db' := db.(messages := db.messages + Exchange(sid, |SessionMessages(db.messages, sid)|, text, ai));
    var scores := Fluencies(SessionMessages(db'.messages, sid));
    (Ok(MessageReply(ai.aiResponse, ai.correction,
                     if scores != [] then RoundedTenths(Sum(scores), |scores|) else 10 * ai.correction.fluencyScore)),
     db')
  }

  /**
   * A rejected request, whatever the coach would answer, and a failed generation write
   * nothing.
   */
  lemma MessageGuards(db: EnglishDb, caller: nat, req: MessageRequest,
                      c1: CoachParams -> Option<CheckedEnglishResponse>, c2: CoachParams -> Option<CheckedEnglishResponse>)
    ensures MessageStep(db, caller, req, c1).0.Error? ==> MessageStep(db, caller, req, c1).1 == db
    ensures MessageGuard(db, caller, req).Some? ==>
      MessageStep(db, caller, req, c1) == MessageStep(db, caller, req, c2) && MessageStep(db, caller, req, c1).0.Error?
  {
  }

  /**
   * The coach sees the 6 latest messages of the session, oldest first, and the trimmed
   * message; in SCENARIO mode also the session's opening message as scenario, in FREE
   * mode none.
   */
  lemma CoachRequestSpec(db: EnglishDb, sid: nat, text: string)
    requires ValidEnglish(db) && sid < |db.sessions|
    ensures var log := SessionMessages(db.messages, sid);
      var p := CoachRequest(db.sessions[sid], log, text);
      && |p.conversationHistory| == (if |log| <= 6 then |log| else 6)
      && (forall k :: 0 <= k < |p.conversationHistory| ==>
            p.conversationHistory[k].content == log[|log| - |p.conversationHistory| + k].content
            && log[|log| - |p.conversationHistory| + k].orderIndex == |log| - |p.conversationHistory| + k)
      && (db.sessions[sid].mode == Free ==> p.scenarioContext.None?)
      && (db.sessions[sid].mode == Scenario ==> p.scenarioContext == Some(log[0].content))
  {
    var log := SessionMessages(db.messages, sid);
    assert DenseLog(log);
    assert log[0].role == Ai;
  }

  /**
   * A successful message appends exactly the session's next two log entries: the trimmed
   * USER message (1..2000 UTF-16 code units) with its correction at index n, and the AI reply at
   * n+1, where n was the log's length. Every other session's log is unchanged.
   */
  lemma MessageAppends(db: EnglishDb, caller: nat, req: MessageRequest, coach: CoachParams -> Option<CheckedEnglishResponse>)
    ensures var (r, db') := MessageStep(db, caller, req, coach);
      r.Ok? ==>
        var sid := req.sessionId.value;
        var log := SessionMessages(db.messages, sid);
        var text := Trim(req.transcript.value);
        && sid < |db.sessions| && db.sessions[sid].owner == caller && db.sessions[sid].status == InProgress
        && db'.sessions == db.sessions && db'.reports == db.reports
        && SessionMessages(db'.messages, sid) == log + [
             Message(sid, User, text, |log|, Some(r.value.correction)),
             Message(sid, Ai, r.value.aiMessage, |log| + 1, None)]
        && 0 < Utf16Length(text) <= 2000
        && (forall s :: s != sid ==> SessionMessages(db'.messages, s) == SessionMessages(db.messages, s))
  {
    var (r, db') := MessageStep(db, caller, req, coach);
    if r.Ok? {
      assert MessageGuard(db, caller, req).None?;
      var sid := req.sessionId.value;
      var log := SessionMessages(db.messages, sid);
      var text := Trim(req.transcript.value);
      var ai := coach(CoachRequest(db.sessions[sid], log, text)).value;
      assert (r, db') == Respond(db, sid, text, ai);
      RespondLogs(db, sid, text, ai);
    }
  }

  /** Storing a reply appends its exchange to session `sid`'s log and to no other. */
  lemma RespondLogs(db: EnglishDb, sid: nat, text: string, ai: CheckedEnglishResponse)
    ensures var db' := Respond(db, sid, text, ai).1;
      var e := Exchange(sid, |SessionMessages(db.messages, sid)|, text, ai);
      && db'.sessions == db.sessions && db'.reports == db.reports
      && forall s :: SessionMessages(db'.messages, s) == SessionMessages(db.messages, s) + (if s == sid then e else [])
  {
    var e := Exchange(sid, |SessionMessages(db.messages, sid)|, text, ai);
    forall s ensures SessionMessages(db.messages + e, s) == SessionMessages(db.messages, s) + (if s == sid then e else []) {
      SessionMessagesExchange(db.messages, sid, |SessionMessages(db.messages, sid)|, text, ai, s);
    }
  }

  /** Two entries indexed right after a dense log keep it dense. */
  lemma DenseLogExtend(log: seq<Message>, a: Message, b: Message)
    requires DenseLog(log) && a.orderIndex == |log| && b.orderIndex == |log| + 1
    ensures DenseLog(log + [a, b])
  {
    var l := log + [a, b];
    forall k | 0 <= k < |l| ensures l[k].orderIndex == k {
      if k < |log| { assert l[k] == log[k]; }
    }
  }

  /**
   * Appending messages of an existing session that extend its log densely, and leave
   * every other log alone, keeps the store valid.
   */
  lemma AppendKeepsValid(db: EnglishDb, ms: seq<Message>, sid: nat)
    requires ValidEnglish(db) && sid < |db.sessions|
    requires forall i :: 0 <= i < |ms| ==> ms[i].sessionId == sid
    requires DenseLog(SessionMessages(db.messages + ms, sid))
    requires forall s :: s != sid ==> SessionMessages(db.messages + ms, s) == SessionMessages(db.messages, s)
    ensures ValidEnglish(db.(messages := db.messages + ms))
  {
    var all := db.messages + ms;
    forall i | 0 <= i < |all| ensures all[i].sessionId < |db.sessions| {
      if i >= |db.messages| { assert all[i] == ms[i - |db.messages|]; }
    }
    forall s | 0 <= s < |db.sessions| ensures DenseLog(SessionMessages(all, s)) {
      if s != sid { assert SessionMessages(all, s) == SessionMessages(db.messages, s); }
    }
  }

  lemma MessageKeepsValid(db: EnglishDb, caller: nat, req: MessageRequest, coach: CoachParams -> Option<CheckedEnglishResponse>)
    requires ValidEnglish(db)
    ensures ValidEnglish(MessageStep(db, caller, req, coach).1)
  {
    var (r, db') := MessageStep(db, caller, req, coach);
    if r.Ok? {
      assert MessageGuard(db, caller, req).None?;
      var sid := req.sessionId.value;
      var text := Trim(req.transcript.value);
      var ai := coach(CoachRequest(db.sessions[sid], SessionMessages(db.messages, sid), text)).value;
      assert (r, db') == Respond(db, sid, text, ai);
      RespondKeepsValid(db, sid, text, ai);
    }
  }

  /** Storing the exchange of an existing session keeps the store valid. */
  lemma RespondKeepsValid(db: EnglishDb, sid: nat, text: string, ai: CheckedEnglishResponse)
    requires ValidEnglish(db) && sid < |db.sessions|
    ensures ValidEnglish(Respond(db, sid, text, ai).1)
  {
    var log := SessionMessages(db.messages, sid);
    var e := Exchange(sid, |log|, text, ai);
    assert DenseLog(log);
    DenseLogExtend(log, e[0], e[1]);
    forall s ensures SessionMessages(db.messages + e, s) == SessionMessages(db.messages, s) + (if s == sid then e else []) {
      SessionMessagesExchange(db.messages, sid, |log|, text, ai, s);
    }
    assert SessionMessages(db.messages + e, sid) == log + [e[0], e[1]];
    AppendKeepsValid(db, e, sid);
  }

  /** After the coach answered, the running mean includes the new score and lies in 0..100 tenths. */
  lemma RespondFluency(db: EnglishDb, sid: nat, text: string, ai: CheckedEnglishResponse)
    ensures var (r, db') := Respond(db, sid, text, ai);
      var scores := Fluencies(SessionMessages(db'.messages, sid));
      && r.Ok? && scores != [] && scores[|scores| - 1] == r.value.correction.fluencyScore as int
      && r.value.runningFluency == RoundedTenths(Sum(scores), |scores|)
      && 0 <= r.value.runningFluency <= 100
  {
    var log := SessionMessages(db.messages, sid);
    SessionMessagesExchange(db.messages, sid, |log|, text, ai, sid);
    FluenciesExchange(log, sid, |log|, text, ai);
    var scores := Fluencies(log) + [ai.correction.fluencyScore as int];
    RoundedMeanBounds(scores, 0, 10);
  }

  /**
   * `runningFluency` is the mean of every fluency score of the session, the one just
   * written included, rounded half up to tenths: always between 0 and 100 tenths.
   */
  lemma RunningFluencySpec(db: EnglishDb, caller: nat, req: MessageRequest, coach: CoachParams -> Option<CheckedEnglishResponse>)
    ensures var (r, db') := MessageStep(db, caller, req, coach);
      r.Ok? ==>
        var scores := Fluencies(SessionMessages(db'.messages, req.sessionId.value));
        && scores != [] && scores[|scores| - 1] == r.value.correction.fluencyScore as int
        && r.value.runningFluency == RoundedTenths(Sum(scores), |scores|)
        && 0 <= r.value.runningFluency <= 100
  {
    var (r, db') := MessageStep(db, caller, req, coach);
    if r.Ok? {
      var sid := req.sessionId.value;
      var text := Trim(req.transcript.value);
      var ai := coach(CoachRequest(db.sessions[sid], SessionMessages(db.messages, sid), text)).value;
      assert (r, db') == Respond(db, sid, text, ai);
      RespondFluency(db, sid, text, ai);
    }
  }

  // ----- report -----

  /** One transcript entry: a USER message with the reply that follows it. */
  datatype Pair = Pair(userMessage: string, aiResponse: string, correction: Option<Correction>, orderIndex: nat)

  function PairAt(log: seq<Message>, i: nat): Pair
    requires i < |log|
  {
    Pair(log[i].content, if i + 1 < |log| && log[i + 1].role == Ai then log[i + 1].content else "",
         log[i].correction, log[i].orderIndex)
  }

  /** The pairs for the USER messages at positions `i` and after. */
  function PairsFrom(log: seq<Message>, i: nat): seq<Pair>
    requires i <= |log|
    decreases |log| - i
  {
    if i == |log| then []
    else (if log[i].role == User then [PairAt(log, i)] else []) + PairsFrom(log, i + 1)
  }

  /** The positions of the USER messages at `i` and after, ascending. */
  function UserPositions(log: seq<Message>, i: nat): (r: seq<nat>)
    requires i <= |log|
    ensures forall k :: 0 <= k < |r| ==> i <= r[k] < |log| && log[r[k]].role == User
    ensures forall j :: i <= j < |log| && log[j].role == User ==> j in r
    ensures forall k, l :: 0 <= k < l < |r| ==> r[k] < r[l]
    decreases |log| - i
  {
    if i == |log| then []
    else (if log[i].role == User then [i] else []) + UserPositions(log, i + 1)
  }

  /** The transcript has one pair per USER message, in log order, built by `PairAt`. */
  lemma {:induction false} PairsFromSpec(log: seq<Message>, i: nat)
    requires i <= |log|
    ensures var ps := PairsFrom(log, i);
      var us := UserPositions(log, i);
      |ps| == |us| && forall k :: 0 <= k < |ps| ==> ps[k] == PairAt(log, us[k])
    decreases |log| - i
  {
    if i < |log| {
      PairsFromSpec(log, i + 1);
      var ps, us := PairsFrom(log, i), UserPositions(log, i);
      var rest, later := PairsFrom(log, i + 1), UserPositions(log, i + 1);
      if log[i].role == User {
        assert ps == [PairAt(log, i)] + rest && us == [i] + later;
        forall k | 0 <= k < |ps| ensures ps[k] == PairAt(log, us[k]) {
          if k > 0 {
            assert ps[k] == rest[k - 1] && us[k] == later[k - 1];
          }
        }
      } else {
        assert ps == rest && us == later;
      }
    }
  }

  /**
   * In a session's log the transcript holds one pair per USER message, in increasing
   * order index; a pair's reply is the next message when that is an AI message and ""
   * otherwise; its order index is its USER message's. The opening message never appears.
   */
  lemma TranscriptSpec(log: seq<Message>)
    requires DenseLog(log)
    ensures var ps := PairsFrom(log, 0);
      var us := UserPositions(log, 0);
      && |ps| == |us|
      && (forall k :: 0 <= k < |ps| ==>
            && ps[k].orderIndex == us[k] && 1 <= us[k]
            && ps[k].userMessage == log[us[k]].content && ps[k].correction == log[us[k]].correction
            && ps[k].aiResponse == (if us[k] + 1 < |log| && log[us[k] + 1].role == Ai then log[us[k] + 1].content else ""))
      && (forall k, l :: 0 <= k < l < |ps| ==> ps[k].orderIndex < ps[l].orderIndex)
  {
    PairsFromSpec(log, 0);
  }

  /** The transcript loop: walks the log once, looking one message ahead at each USER message. */
  method PairTranscript(log: seq<Message>) returns (transcript: seq<Pair>)
    ensures transcript == PairsFrom(log, 0)
  {
    transcript := [];
    var i := 0;
    while i < |log|
      invariant i <= |log|
      invariant transcript + PairsFrom(log, i) == PairsFrom(log, 0)
    {
      var msg := log[i];
      if msg.role == User {
        var aiResponse := if i + 1 < |log| && log[i + 1].role == Ai then log[i + 1].content else "";
        transcript := transcript + [Pair(msg.content, aiResponse, msg.correction, msg.orderIndex)];
      }
      assert transcript + PairsFrom(log, i + 1) == PairsFrom(log, 0);
      i := i + 1;
    }
  }

  datatype ReportView = ReportView(report: EnglishReport, transcript: seq<Pair>)

  /** The report route: nothing is written. */
  function ReportOf(db: EnglishDb, caller: nat, sessionId: Option<nat>): Reply<ReportView> {
    if sessionId.None? then Error(400, "sessionId is required")
    else if sessionId.value >= |db.sessions| then Error(404, "Session not found")
    else if db.sessions[sessionId.value].owner != caller then Error(403, "Forbidden")
    else if sessionId.value !in db.reports then Error(404, "Report not found. Please end the session first.")
    else Ok(ReportView(db.reports[sessionId.value], PairsFrom(SessionMessages(db.messages, sessionId.value), 0)))
  }

  /**
   * The route answers with a report only for the caller's own session and only when one
   * is stored; it never builds one.
   */
  lemma ReportOfSpec(db: EnglishDb, caller: nat, sessionId: Option<nat>)
    ensures var r := ReportOf(db, caller, sessionId);
      && (r.Ok? <==> sessionId.Some? && sessionId.value < |db.sessions|
                     && db.sessions[sessionId.value].owner == caller && sessionId.value in db.reports)
      && (r.Ok? ==> r.value.report == db.reports[sessionId.value])
      && (r.Error? ==> r.status in {400, 403, 404})
  {
  }

  // ----- the store -----

  /** The English practice tables. */
  class EnglishStore {
    var sessions: seq<EnglishSession>
    var messages: seq<Message>
    var reports: map<nat, EnglishReport>

    function Snapshot(): EnglishDb
      reads this
    {
      EnglishDb(sessions, messages, reports)
    }

    predicate Valid()
      reads this
    {
      ValidEnglish(Snapshot())
    }

    constructor()
      ensures Snapshot() == EnglishDb([], [], map[]) && Valid()
    {
      sessions, messages, reports := [], [], map[];
    }

    /** `POST /api/english/create`: the session and its opening message in one transaction. */
    method Create(caller: nat, body: CreateBody, opening: (Mode, Tone) -> Option<OpeningMessage>)
      returns (r: Reply<Created>)
      requires Valid()
      modifies this
      ensures Valid()
      ensures (r, Snapshot()) == CreateStep(old(Snapshot()), caller, body, opening)
    {
      CreateKeepsValid(Snapshot(), caller, body, opening);
      var parsed := ParseCreate(body);
      if parsed.None? {
        return Error(400, "Invalid request");
      }
      var (mode, level) := parsed.value;
      var text := opening(mode, level);
      if text.None? {
        return Error(500, "Failed to create English session");
      }
      var sid := |sessions|;
      sessions := sessions + [EnglishSession(caller, mode, level, InProgress)];
      messages := messages + [Message(sid, Ai, text.value, 0, None)];
      r := Ok(Created(sid, text.value));
    }

    /** `POST /api/english/message`: the USER message, its correction and the AI reply in one transaction. */
    method PostMessage(caller: nat, req: MessageRequest, coach: CoachParams -> Option<CheckedEnglishResponse>)
      returns (r: Reply<MessageReply>)
      requires Valid()
      modifies this
      ensures Valid()
      ensures (r, Snapshot()) == MessageStep(old(Snapshot()), caller, req, coach)
    {
      MessageKeepsValid(Snapshot(), caller, req, coach);
      var rejected := MessageGuard(Snapshot(), caller, req);
      if rejected.Some? {
        return rejected.value;
      }
      var sid := req.sessionId.value;
      var text := Trim(req.transcript.value);
      var log := SessionMessages(messages, sid);
      var aiResult := coach(CoachRequest(sessions[sid], log, text));
      if aiResult.None? {
        return Error(500, "Failed to process message. Please try again.");
      }
      var ai := aiResult.value;
      var messageCount := |log|;
      messages := messages + Exchange(sid, messageCount, text, ai);
      var scores := Fluencies(SessionMessages(messages, sid));
      var runningFluency := if scores != [] then RoundedTenths(Sum(scores), |scores|) else 10 * ai.correction.fluencyScore;
      r := Ok(MessageReply(ai.aiResponse, ai.correction, runningFluency));
    }

    /** `GET /api/english/report`. */
    method GetReport(caller: nat, sessionId: Option<nat>) returns (r: Reply<ReportView>)
      ensures r == ReportOf(Snapshot(), caller, sessionId)
    {
      if sessionId.None? {
        return Error(400, "sessionId is required");
      }
      var sid := sessionId.value;
      if sid >= |sessions| {
        return Error(404, "Session not found");
      }
      if sessions[sid].owner != caller {
        return Error(403, "Forbidden");
      }
      if sid !in reports {
        return Error(404, "Report not found. Please end the session first.");
      }
      var transcript := PairTranscript(SessionMessages(messages, sid));
      r := Ok(ReportView(reports[sid], transcript));
    }
  }
}
