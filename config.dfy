/**
 * The interview configuration and its validation in the create route
 * (src/app/api/interview/create/route.ts): `CreateInterviewSchema` with its defaults,
 * then the mode-specific checks and the "some limit" check, all before any write.
 */
module Config {
  import opened Wrappers
  import opened Text
  import opened Schemas

  /** How the questions are chosen. */
  datatype Mode = Role | Topics | Resume

  function ParseMode(s: string): (r: Option<Mode>)
    ensures r.Some? <==> s in {"ROLE", "TOPICS", "RESUME"}
  {
    if s == "ROLE" then Some(Role) else if s == "TOPICS" then Some(Topics)
    else if s == "RESUME" then Some(Resume) else None
  }

  /**
   * A string id as a request sends it: the empty string, or the id of row `row`, which
   * need not exist. A missing or `null` id is not an `IdText` at all.
   */
  datatype IdText = Blank | Named(row: nat)

  /** The id is present, not empty, and names one of the first `n` rows. */
  predicate NamesRow(id: Option<IdText>, n: nat) {
    id.Some? && id.value.Named? && id.value.row < n
  }

  /** `!id` in the source: the id is missing, `null` or the empty string. */
  predicate Falsy(id: Option<IdText>) {
    id.None? || id.value.Blank?
  }

  /** The row a present, non-empty id names. */
  function RowOf(id: Option<IdText>): Option<nat> {
    if id.Some? && id.value.Named? then Some(id.value.row) else None
  }

  /** The id of row `row`, as a client that holds it sends it. */
  function IdOf(row: Option<nat>): Option<IdText> {
    if row.Some? then Some(Named(row.value)) else None
  }

  /**
   * The JSON body of a create request, one `Field` per key. A resume id that is missing
   * or `null` is `Absent` or `Null`; an empty one is `Present(Blank)`.
   */
  datatype CreateBody = CreateBody(
    mode: Field<string>, role: Field<string>, topics: Field<seq<string>>,
    difficulty: Field<string>, numQuestions: Field<int>, timeLimitMins: Field<int>,
    noRepeats: Field<bool>, focusWeakAreas: Field<bool>, resumeId: Field<IdText>)

  /** What `CreateInterviewSchema.safeParse` hands back on success, defaults applied. */
  datatype CreateData = CreateData(
    mode: Mode, role: Option<string>, topics: seq<string>, difficulty: Level,
    numQuestions: Option<int>, timeLimitMins: Option<int>,
    noRepeats: bool, focusWeakAreas: bool, resumeId: Option<IdText>)

  /** `.optional().nullable()` on an integer in [lo, hi]. */
  predicate NullableInRange(f: Field<int>, lo: int, hi: int) {
    f.Present? ==> lo <= f.value <= hi
  }

  /** `.default(d)` without `.nullable()`: a missing key takes the default, `null` fails. */
  predicate NotNull<T>(f: Field<T>) {
    !f.Null?
  }

  /**
   * `CreateInterviewSchema.safeParse(body)`: the mode is required; `topics`, `difficulty`,
   * `noRepeats` and `focusWeakAreas` have defaults but may not be `null`; the limits are
   * optional and nullable integers in 1..30 and 5..120.
   */
  function ParseCreate(body: CreateBody): (r: Option<CreateData>)
    ensures r.Some? <==>
      && body.mode.Present? && body.mode.value in {"ROLE", "TOPICS", "RESUME"}
      && NotNull(body.topics) && NotNull(body.noRepeats) && NotNull(body.focusWeakAreas)
      && NotNull(body.difficulty)
      && (body.difficulty.Present? ==> body.difficulty.value in {"EASY", "MEDIUM", "HARD"})
      && NullableInRange(body.numQuestions, 1, 30) && NullableInRange(body.timeLimitMins, 5, 120)
    ensures r.Some? ==>
      && ModeName(r.value.mode) == body.mode.value
      && r.value.role == body.role.ToOption()
      && r.value.topics == body.topics.OrElse([])
      && (body.difficulty.Absent? ==> r.value.difficulty == Moderate)
      && (body.difficulty.Present? ==> LevelCode(r.value.difficulty) == body.difficulty.value)
      && r.value.numQuestions == body.numQuestions.ToOption()
      && r.value.timeLimitMins == body.timeLimitMins.ToOption()
      && r.value.noRepeats == body.noRepeats.OrElse(true)
      && r.value.focusWeakAreas == body.focusWeakAreas.OrElse(false)
      && r.value.resumeId == body.resumeId.ToOption()
  {
    if !body.mode.Present? || ParseMode(body.mode.value).None? then None
    else if body.topics.Null? || body.noRepeats.Null? || body.focusWeakAreas.Null? then None
    else if body.difficulty.Null? then None
    else if body.difficulty.Present? && ParseLevelCode(body.difficulty.value).None? then None
    else if !NullableInRange(body.numQuestions, 1, 30) || !NullableInRange(body.timeLimitMins, 5, 120) then None
    else
      var mode := ParseMode(body.mode.value).value;
      assert ModeName(mode) == body.mode.value;
      var difficulty := if body.difficulty.Present? then ParseLevelCode(body.difficulty.value).value else Moderate;
      Some(CreateData(mode, body.role.ToOption(), body.topics.OrElse([]), difficulty,
        body.numQuestions.ToOption(), body.timeLimitMins.ToOption(),
        body.noRepeats.OrElse(true), body.focusWeakAreas.OrElse(false), body.resumeId.ToOption()))
  }

  function ModeName(m: Mode): string {
    match m
    case Role => "ROLE"
    case Topics => "TOPICS"
    case Resume => "RESUME"
  }

  /** Why a create request is answered 400. */
  datatype CreateError = InvalidRequest | RoleRequired | TopicRequired | ResumeRequired | LimitRequired

  datatype CreateCheck = Rejected(error: CreateError) | Accepted(data: CreateData)

  /** `!data.role?.trim()`: the role is missing, `null`, or only white space. */
  predicate BlankRole(role: Option<string>) {
    role.None? || Trim(role.value) == []
  }

  /**
   * The whole validation of the create route, in the order the route applies it: the
   * schema, then the mode's required input, then "question count or time limit". The
   * limits are at least 1 and 5 once they pass the schema, so `!x` holds only for an
   * absent or `null` limit.
   */
  function CheckCreate(body: CreateBody): (r: CreateCheck)
    ensures r.Accepted? <==>
      && ParseCreate(body).Some?
      && (ParseCreate(body).value.mode == Role ==> !BlankRole(body.role.ToOption()))
      && (ParseCreate(body).value.mode == Topics ==> body.topics.OrElse([]) != [])
      && (ParseCreate(body).value.mode == Resume ==> body.resumeId.Present? && body.resumeId.value.Named?)
      && (body.numQuestions.Present? || body.timeLimitMins.Present?)
    ensures r.Accepted? ==> Some(r.data) == ParseCreate(body)
    ensures ParseCreate(body).None? ==> r == Rejected(InvalidRequest)
  {
    match ParseCreate(body)
    case None => Rejected(InvalidRequest)
    case Some(data) =>
      if data.mode == Role && BlankRole(data.role) then Rejected(RoleRequired)
      else if data.mode == Topics && data.topics == [] then Rejected(TopicRequired)
      else if data.mode == Resume && Falsy(data.resumeId) then Rejected(ResumeRequired)
      else if data.numQuestions.None? && data.timeLimitMins.None? then Rejected(LimitRequired)
      else Accepted(data)
  }

  /** Both limits together are accepted: nothing forbids sending both. */
  lemma BothLimitsAccepted(body: CreateBody)
    requires body.mode == Present("TOPICS") && body.topics == Present(["SQL"])
    requires body.difficulty.Absent? && body.noRepeats.Absent? && body.focusWeakAreas.Absent?
    requires body.numQuestions == Present(5) && body.timeLimitMins == Present(30)
    ensures CheckCreate(body).Accepted?
    ensures CheckCreate(body).data.difficulty == Moderate
    ensures CheckCreate(body).data.noRepeats && !CheckCreate(body).data.focusWeakAreas
  {
  }
}
