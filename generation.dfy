/**
 * `generateJSON` (src/lib/ai/gemini.ts): a counted retry loop around the model call,
 * with the code-fence clean-up applied to each reply before it is parsed.
 *
 * The model call is the function `call` (attempt number to reply text, `None` when the
 * call throws), and `JSON.parse` followed by `schema.parse` is the function `parse`
 * (`None` when either throws). Both stay abstract.
 */
module Generation {
  import opened Wrappers
  import opened Text

  const Fence: string := "```"

  predicate StartsWithFence(s: string) {
    |s| >= 3 && s[..3] == Fence
  }

  /** The four letters "json" in any letter case. */
  predicate IsJsonTag(t: string) {
    |t| == 4 && LowerChar(t[0]) == 'j' && LowerChar(t[1]) == 's' && LowerChar(t[2]) == 'o' && LowerChar(t[3]) == 'n'
  }

  // `.replace(/^```json\s*/i, "")`: the `i` flag makes only "json" case-insensitive.
  function StripJsonFence(s: string): string {
    if StartsWithFence(s) && |s| >= 7 && IsJsonTag(s[3..7]) then TrimStart(s[7..]) else s
  }

  // `.replace(/^```\s*/i, "")`.
  function StripOpenFence(s: string): string {
    if StartsWithFence(s) then TrimStart(s[3..]) else s
  }

  // `.replace(/```\s*$/i, "")`: a closing fence followed only by white space.
  function StripCloseFence(s: string): string {
    var t := TrimEnd(s);
    if |t| >= 3 && t[|t| - 3..] == Fence then t[..|t| - 3] else s
  }

  /** The cleaning chain applied to every reply before `JSON.parse`. */
  function Clean(text: string): (r: string)
    ensures Trimmed(r)
  {
    Trim(StripCloseFence(StripOpenFence(StripJsonFence(text))))
  }

  /** The regular expression /```\s*$/ matches at position `i`. */
  ghost predicate ClosingFenceAt(s: string, i: int) {
    0 <= i && i + 3 <= |s| && s[i..i + 3] == Fence && AllSpace(s[i + 3..])
  }

  /** Where the closing-fence pattern matches, everything from the match on is removed. */
  lemma {:induction false} StripCloseFenceAtMatch(s: string, i: int)
    requires ClosingFenceAt(s, i)
    ensures StripCloseFence(s) == s[..i]
  {
    TrimEndOfSpaceTail(s, i + 3);
    assert TrimEnd(s) == s[..i + 3];
    assert s[..i + 3][i..] == Fence;
  }

  /** Where the pattern matches nowhere, nothing is removed. */
  lemma {:induction false} StripCloseFenceNoMatch(s: string)
    requires forall i :: !ClosingFenceAt(s, i)
    ensures StripCloseFence(s) == s
  {
    TrimEndFence(s);
  }

  /** A fence at the end of the right-trimmed text is a match of the pattern. */
  lemma TrimEndFence(s: string)
    ensures var t := TrimEnd(s);
      |t| >= 3 && t[|t| - 3..] == Fence ==> ClosingFenceAt(s, |t| - 3)
  {
    var t := TrimEnd(s);
    if |t| >= 3 && t[|t| - 3..] == Fence {
      assert s[|t| - 3..|t|] == Fence;
      assert s[|t|..] == s[|t| - 3 + 3..];
    }
  }

  lemma {:induction false} TrimEndOfSpaceTail(s: string, n: nat)
    requires 0 < n <= |s| && !IsSpace(s[n - 1]) && AllSpace(s[n..])
    ensures TrimEnd(s) == s[..n]
  {
    if n < |s| {
      assert s[..|s| - 1][n..] == s[n..|s| - 1];
      TrimEndOfSpaceTail(s[..|s| - 1], n);
      assert s[..|s| - 1][..n] == s[..n];
    } else {
      assert s[..n] == s;
    }
  }

  /** Text with no opening fence and no closing fence is only trimmed. */
  lemma {:induction false} CleanPlainText(s: string)
    requires !StartsWithFence(s)
    requires forall i :: !ClosingFenceAt(s, i)
    ensures Clean(s) == Trim(s)
  {
    StripCloseFenceNoMatch(s);
  }

  /**
   * A fenced reply, "```json" (in any letter case) + white space + body + white space +
   * "```" + white space, cleans to the body, provided the body has no edge white space
   * and does not start with a backtick (a JSON text starts with a brace or a bracket).
   */
  lemma {:induction false} CleanFencedReply(tag: string, p: string, body: string, q: string, tail: string)
    requires IsJsonTag(tag)
    requires AllSpace(p) && AllSpace(q) && AllSpace(tail)
    requires body != [] && Trimmed(body) && body[0] != '`'
    ensures Clean(Fence + tag + p + body + q + Fence + tail) == body
  {
    var u := body + q + Fence + tail;
    calc {
      Clean(Fence + tag + p + body + q + Fence + tail);
      { assert Fence + tag + p + body + q + Fence + tail == Fence + tag + p + u; }
      Trim(StripCloseFence(StripOpenFence(StripJsonFence(Fence + tag + p + u))));
      { StripJsonFencePadded(tag, p, u); }
      Trim(StripCloseFence(StripOpenFence(u)));
      { assert u[0] == body[0]; }
      Trim(StripCloseFence(u));
      { StripCloseFenceTail(body + q, tail); }
      Trim(body + q);
      { assert [] + body + q == body + q; TrimPadded([], body, q); }
      body;
    }
  }

  /**
   * A reply in a bare fence, "```" + white space + body + white space + "```" + white
   * space, cleans to the body as well: the "```json" pattern does not match, and the bare
   * opening pattern removes the fence with the white space after it. The body is a JSON
   * object or array.
   */
  lemma {:induction false} CleanUntaggedFence(p: string, body: string, q: string, tail: string)
    requires AllSpace(p) && AllSpace(q) && AllSpace(tail)
    requires body != [] && Trimmed(body) && (body[0] == '{' || body[0] == '[')
    ensures Clean(Fence + p + body + q + Fence + tail) == body
  {
    var u := body + q + Fence + tail;
    calc {
      Clean(Fence + p + body + q + Fence + tail);
      { assert Fence + p + body + q + Fence + tail == Fence + p + u; }
      Trim(StripCloseFence(StripOpenFence(StripJsonFence(Fence + p + u))));
      { StripBareFencePadded(p, u); }
      Trim(StripCloseFence(u));
      { StripCloseFenceTail(body + q, tail); }
      Trim(body + q);
      { assert [] + body + q == body + q; TrimPadded([], body, q); }
      body;
    }
  }

  /** A bare opening "```" and the white space after it are removed, and nothing more. */
  lemma StripBareFencePadded(p: string, u: string)
    requires AllSpace(p) && u != [] && (u[0] == '{' || u[0] == '[')
    ensures StripOpenFence(StripJsonFence(Fence + p + u)) == u
  {
    var s := Fence + p + u;
    assert s[..3] == Fence && s[3..] == p + u;
    assert s[3] == (p + u)[0];
    assert StripJsonFence(s) == s;
    LeadingSpacesOfPadded(p, u);
    assert (p + u)[|p|..] == u;
  }

  /** The opening "```json" and the white space after it are removed, and nothing more. */
  lemma StripJsonFencePadded(tag: string, p: string, u: string)
    requires IsJsonTag(tag) && AllSpace(p) && u != [] && !IsSpace(u[0])
    ensures StripJsonFence(Fence + tag + p + u) == u
  {
    var s := Fence + tag + p + u;
    assert s[..3] == Fence && s[3..7] == tag;
    assert s[7..] == p + u;
    LeadingSpacesOfPadded(p, u);
    assert (p + u)[|p|..] == u;
  }

  /** A closing fence followed only by white space is removed with that white space. */
  lemma StripCloseFenceTail(v: string, tail: string)
    requires AllSpace(tail)
    ensures StripCloseFence(v + Fence + tail) == v
  {
    var u := v + Fence + tail;
    var i := |v|;
    assert u[i..i + 3] == Fence;
    assert u[i + 3..] == tail;
    StripCloseFenceAtMatch(u, i);
    assert u[..i] == v;
  }

  /** One attempt: the model call, the clean-up, then `JSON.parse` and `schema.parse`. */
  function Attempt<T>(call: nat -> Option<string>, parse: string -> Option<T>, k: nat): Option<T> {
    match call(k)
    case None => None
    case Some(text) => parse(Clean(text))
  }

  /** The attempts of one `generateJSON` call, by attempt number. */
  function Attempts<T>(call: nat -> Option<string>, parse: string -> Option<T>): nat -> Option<T> {
    (k: nat) => Attempt(call, parse, k)
  }

  /**
   * The outcome of the retry loop from attempt `k` on: the value of the first attempt at or
   * after `k` that succeeds, with the number of calls made in total, or `None` after the
   * attempt numbered `retries`.
   */
  function RetryFrom<T>(attempt: nat -> Option<T>, k: nat, retries: nat): (Option<T>, nat)
    requires k <= retries
    decreases retries - k
  {
    if attempt(k).Some? || k == retries then (attempt(k), k + 1)
    else RetryFrom(attempt, k + 1, retries)
  }

  /**
   * `generateJSON(prompt, schema, retries)`: at most `retries + 1` model calls; the value
   * of the first attempt that parses and passes the schema is returned at once; when every
   * attempt fails the result is `None` (`AI_GENERATION_FAILED`).
   */
  method GenerateJson<T>(call: nat -> Option<string>, parse: string -> Option<T>, retries: nat)
    returns (r: Option<T>, calls: nat)
    ensures (r, calls) == RetryFrom(Attempts(call, parse), 0, retries)
  {
    var attempt := 0;
    while true
      invariant attempt <= retries
      invariant RetryFrom(Attempts(call, parse), attempt, retries) == RetryFrom(Attempts(call, parse), 0, retries)
      decreases retries - attempt
    {
      var outcome := Attempt(call, parse, attempt);
      if outcome.Some? || attempt == retries {
        r, calls := outcome, attempt + 1;
        return;
      }
      attempt := attempt + 1;
    }
  }

  /**
   * The retry loop makes between one and `retries + 1` calls, every attempt before the last
   * one failed, the result is the last attempt's, and a failure means every call was made.
   */
  lemma {:induction false} RetryFromOutcome<T>(attempt: nat -> Option<T>, k: nat, retries: nat)
    requires k <= retries
    ensures var (r, calls) := RetryFrom(attempt, k, retries);
      && k + 1 <= calls <= retries + 1
      && (forall j :: k <= j < calls - 1 ==> attempt(j).None?)
      && r == attempt(calls - 1)
      && (r.None? ==> calls == retries + 1)
    decreases retries - k
  {
    if attempt(k).None? && k < retries {
      RetryFromOutcome(attempt, k + 1, retries);
    }
  }

  /** The default of one retry makes at most two model calls, and fails only when both fail. */
  lemma GenerateJsonDefault<T>(call: nat -> Option<string>, parse: string -> Option<T>)
    ensures var (r, calls) := RetryFrom(Attempts(call, parse), 0, 1);
      && 1 <= calls <= 2
      && (r.None? <==> Attempt(call, parse, 0).None? && Attempt(call, parse, 1).None?)
  {
    RetryFromOutcome(Attempts(call, parse), 0, 1);
  }
}
