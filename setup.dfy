/**
 * The setup page: the form schema with its defaults, the mode-specific checks made before
 * anything is sent, the create request's body, and the `submitting` flag held while the
 * request is out. The response is a parameter: the create route's reply, or `None` when
 * the request itself failed.
 */
module Setup {
  import opened Wrappers
  import opened Text
  import opened Schemas
  import opened Config

  datatype LimitType = Questions | Time

  /** The form's values after `SetupSchema` accepted them. */
  datatype SetupForm = SetupForm(
    role: Option<string>, difficulty: Level, limitType: LimitType,
    numQuestions: Option<int>, timeLimitMins: Option<int>, noRepeats: bool, focusWeakAreas: bool)

  /** `SetupSchema`: 1..30 questions and 5..120 minutes when given. */
  predicate ValidForm(f: SetupForm) {
    (f.numQuestions.Some? ==> 1 <= f.numQuestions.value <= 30) &&
    (f.timeLimitMins.Some? ==> 5 <= f.timeLimitMins.value <= 120)
  }

  /** The form's default values. */
  const DefaultForm: SetupForm := SetupForm(None, Moderate, Questions, Some(10), Some(30), true, false)

  /** The defaults satisfy the schema and ask for 10 questions of medium difficulty. */
  lemma DefaultFormValid()
    ensures ValidForm(DefaultForm)
    ensures DefaultForm.difficulty == Moderate && DefaultForm.limitType == Questions
    ensures DefaultForm.numQuestions == Some(10) && DefaultForm.timeLimitMins == Some(30)
    ensures DefaultForm.noRepeats && !DefaultForm.focusWeakAreas
  {
  }

  /** The toast shown when the mode's required input is missing, if any. */
  function MissingInput(mode: Mode, f: SetupForm, topics: seq<string>, resumeId: Option<nat>): (r: Option<string>)
    ensures r.None? <==>
      (mode == Role ==> !BlankRole(f.role)) && (mode == Topics ==> topics != []) && (mode == Resume ==> resumeId.Some?)
  {
    if mode == Role && BlankRole(f.role) then Some("Please enter a role name")
    else if mode == Topics && topics == [] then Some("Please add at least one topic")
    else if mode == Resume && resumeId.None? then Some("Please upload your resume first")
    else None
  }

  /** An optional value as `JSON.stringify` sends it: `undefined` drops the key. */
  function Sent<T>(v: Option<T>): Field<T> {
    if v.Some? then Present(v.value) else Absent
  }

  /**
   * The create request's body: role only in ROLE mode, topics only in TOPICS mode,
   * resume id only in RESUME mode, and only the limit the limit type selects; the others
   * are `null`.
   */
  function RequestBody(mode: Mode, f: SetupForm, topics: seq<string>, resumeId: Option<nat>): CreateBody {
    CreateBody(
      Present(ModeName(mode)),
      if mode == Role then Sent(f.role) else Null,
      Present(if mode == Topics then topics else []),
      Present(LevelCode(f.difficulty)),
      if f.limitType == Questions then Sent(f.numQuestions) else Null,
      if f.limitType == Time then Sent(f.timeLimitMins) else Null,
      Present(f.noRepeats), Present(f.focusWeakAreas),
      if mode == Resume then Sent(IdOf(resumeId)) else Null)
  }

  /** The body never carries both limits, nor an input that belongs to another mode. */
  lemma RequestBodyShape(mode: Mode, f: SetupForm, topics: seq<string>, resumeId: Option<nat>)
    ensures var b := RequestBody(mode, f, topics, resumeId);
      && !(b.numQuestions.Present? && b.timeLimitMins.Present?)
      && (f.limitType == Questions ==> b.timeLimitMins.Null?)
      && (f.limitType == Time ==> b.numQuestions.Null?)
      && (mode != Role ==> b.role.Null?)
      && (mode != Topics ==> b.topics == Present([]))
      && (mode != Resume ==> b.resumeId.Null?)
  {
  }

  /**
   * A valid form whose mode input is present, sent with its selected limit filled in,
   * passes every check of the create route, which stores exactly the form's choices.
   */
  lemma RequestBodyAccepted(mode: Mode, f: SetupForm, topics: seq<string>, resumeId: Option<nat>)
    requires ValidForm(f) && MissingInput(mode, f, topics, resumeId).None?
    requires f.limitType == Questions ==> f.numQuestions.Some?
    requires f.limitType == Time ==> f.timeLimitMins.Some?
    ensures var c := CheckCreate(RequestBody(mode, f, topics, resumeId));
      && c.Accepted?
      && c.data.mode == mode && c.data.difficulty == f.difficulty
      && c.data.noRepeats == f.noRepeats && c.data.focusWeakAreas == f.focusWeakAreas
      && c.data.numQuestions == (if f.limitType == Questions then f.numQuestions else None)
      && c.data.timeLimitMins == (if f.limitType == Time then f.timeLimitMins else None)
      && (mode == Topics ==> c.data.topics == topics)
      && (mode == Resume ==> c.data.resumeId == Some(Named(resumeId.value)))
  {
    var b := RequestBody(mode, f, topics, resumeId);
    assert ParseMode(ModeName(mode)) == Some(mode);
    assert ParseLevelCode(LevelCode(f.difficulty)) == Some(f.difficulty);
    assert ParseCreate(b).Some?;
  }

  /**
   * A body with the selected limit left empty reaches the route without any limit, and is
   * refused there. The page's range inputs always hold a number, so this covers a body
   * built by hand with the page's shape, not a state the form can reach.
   */
  lemma EmptyLimitRefused(mode: Mode, f: SetupForm, topics: seq<string>, resumeId: Option<nat>)
    requires ValidForm(f) && MissingInput(mode, f, topics, resumeId).None?
    requires f.limitType == Questions ==> f.numQuestions.None?
    requires f.limitType == Time ==> f.timeLimitMins.None?
    ensures CheckCreate(RequestBody(mode, f, topics, resumeId)) == Rejected(LimitRequired)
  {
    var b := RequestBody(mode, f, topics, resumeId);
    assert ParseMode(ModeName(mode)) == Some(mode);
    assert ParseLevelCode(LevelCode(f.difficulty)) == Some(f.difficulty);
    assert ParseCreate(b).Some?;
  }

  class SetupPage {
    var mode: Mode
    var topics: seq<string>
    var resumeId: Option<nat>
    var submitting: bool
    /** The create requests sent, in order. */
    var sent: seq<CreateBody>
    /** The value of `submitting` while each request was out. */
    ghost var submittingWhileSent: seq<bool>
    var toast: Option<string>
    /** The session the page navigated to, if any. */
    var navigatedTo: Option<nat>

    ghost predicate Valid()
      reads this
    {
      !submitting && |submittingWhileSent| == |sent| && forall i :: 0 <= i < |submittingWhileSent| ==> submittingWhileSent[i]
    }

    constructor()
      ensures Valid() && mode == Role && topics == [] && resumeId.None? && sent == [] && navigatedTo.None?
    {
      mode, topics, resumeId, submitting := Role, [], None, false;
      sent, submittingWhileSent, toast, navigatedTo := [], [], None, None;
    }

    /**
     * `onSubmit` for a form the schema accepted: a missing mode input shows its toast and
     * sends nothing; otherwise exactly one request is sent with `submitting` set, and
     * `submitting` is clear again afterwards whatever the response.
     */
    method OnSubmit(f: SetupForm, response: Option<Reply<nat>>)
      requires Valid() && ValidForm(f)
      modifies this
      ensures Valid()
      ensures mode == old(mode) && topics == old(topics) && resumeId == old(resumeId)
      ensures var missing := MissingInput(mode, f, topics, resumeId);
        && (missing.Some? ==> sent == old(sent) && toast == missing && navigatedTo == old(navigatedTo))
        && (missing.None? ==> sent == old(sent) + [RequestBody(mode, f, topics, resumeId)])
        && (missing.None? && response.Some? && response.value.Ok? ==> navigatedTo == Some(response.value.value))
        && (missing.None? && response.Some? && response.value.Error? ==> toast == Some(response.value.message))
        && (missing.None? && response.None? ==> toast == Some("Something went wrong. Please try again."))
    {
      var missing := MissingInput(mode, f, topics, resumeId);
      if missing.Some? {
        toast := missing;
        return;
      }
      submitting := true;
      sent := sent + [RequestBody(mode, f, topics, resumeId)];
      submittingWhileSent := submittingWhileSent + [submitting];
      if response.None? {
        toast := Some("Something went wrong. Please try again.");
      } else if response.value.Error? {
        toast := Some(response.value.message);
      } else {
        navigatedTo := Some(response.value.value);
      }
      submitting := false;
    }
  }
}
