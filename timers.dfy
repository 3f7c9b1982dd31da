/**
 * The interview countdown: `secondsLeft` starts at the session's minutes times 60, an
 * interval takes one second off it every tick until it reaches 0, and reaching 0 calls
 * `onExpire`. The clock shows `mm:ss`, urgent in the last minute.
 *
 * Ticks are method calls; the interval's timing is not modelled.
 */
module Countdown {
  import opened Text

  /** The interval's updater: a value of at most 1 goes to 0, any other loses one second. */
  function NextSecond(prev: int): (r: int)
    ensures r >= 0
    ensures prev > 0 ==> r < prev
    ensures r == 0 <==> prev <= 1
    ensures prev > 1 ==> r == prev - 1
  {
    if prev <= 1 then 0 else prev - 1
  }

  /** The value after `n` ticks from `s`. */
  function After(s: int, n: nat): int {
    if n == 0 then s else NextSecond(After(s, n - 1))
  }

  /** From a non-negative start, `n` ticks leave `max(s - n, 0)`: the countdown hits 0 after exactly `s` ticks. */
  lemma {:induction false} AfterTicks(s: int, n: nat)
    requires s >= 0
    ensures After(s, n) == if n <= s then s - n else 0
  {
    if n > 0 {
      AfterTicks(s, n - 1);
    }
  }

  /** `Math.floor(secondsLeft / 60)`. */
  function Minutes(s: nat): nat {
    s / 60
  }

  /** `secondsLeft % 60`. */
  function Seconds(s: nat): nat {
    s % 60
  }

  /** The split loses nothing: minutes and seconds recombine to `s`, and the seconds are below 60. */
  lemma ClockSplit(s: nat)
    ensures Minutes(s) * 60 + Seconds(s) == s && Seconds(s) < 60
  {
  }

  function MinutesText(s: nat): string {
    PadTwo(NatToString(Minutes(s)))
  }

  function SecondsText(s: nat): string {
    PadTwo(NatToString(Seconds(s)))
  }

  /** The clock text, `mm:ss`. */
  function Clock(s: nat): string {
    MinutesText(s) + ":" + SecondsText(s)
  }

  /** Zero padding keeps the value of a decimal numeral. */
  lemma PadTwoValue(d: string)
    requires |d| >= 1 && AllDigits(d)
    ensures AllDigits(PadTwo(d)) && DigitsValue(PadTwo(d)) == DigitsValue(d)
  {
    if |d| == 1 {
      LeadingZeroValue(d);
    }
  }

  /**
   * The clock shows at least two minute digits, a colon and exactly two second digits,
   * and reading the digits back gives minutes and seconds that recombine to `s`.
   */
  lemma ClockSpec(s: nat)
    ensures var m, c := MinutesText(s), SecondsText(s);
      && Clock(s) == m + ":" + c
      && |m| >= 2 && |c| == 2 && AllDigits(m) && AllDigits(c)
      && DigitsValue(m) * 60 + DigitsValue(c) == s
      && DigitsValue(c) < 60
  {
    NatToStringRoundTrip(Minutes(s));
    NatToStringRoundTrip(Seconds(s));
    PadTwoValue(NatToString(Minutes(s)));
    PadTwoValue(NatToString(Seconds(s)));
  }

  /** The urgent style. */
  predicate IsUrgent(s: int) {
    s <= 60
  }

  /** The clock turns urgent exactly when it shows `01:00` or less. */
  lemma UrgentIffLastMinute(s: nat)
    ensures IsUrgent(s) <==> Minutes(s) == 0 || s == 60
  {
  }

  class CountdownTimer {
    var secondsLeft: int
    /** An interval is scheduled. */
    var ticking: bool
    /** How many times `onExpire` was called. */
    var expireCalls: nat

    /** Counting down while positive; `onExpire` called once, on reaching 0. */
    predicate Valid()
      reads this
    {
      secondsLeft >= 0 && (ticking <==> secondsLeft > 0) && expireCalls == (if secondsLeft == 0 then 1 else 0)
    }

    /** Mounting: the state starts at `totalMins * 60` and the effect runs once. */
    constructor(totalMins: nat)
      ensures secondsLeft == totalMins * 60 && Valid()
    {
      secondsLeft := totalMins * 60;
      ticking := false;
      expireCalls := 0;
      new;
      Effect();
    }

    /** The effect: at 0 it calls `onExpire` and schedules nothing, otherwise it starts an interval. */
    method Effect()
      modifies this
      ensures secondsLeft == old(secondsLeft)
      ensures secondsLeft <= 0 ==> !ticking && expireCalls == old(expireCalls) + 1
      ensures secondsLeft > 0 ==> ticking && expireCalls == old(expireCalls)
    {
      if secondsLeft <= 0 {
        expireCalls := expireCalls + 1;
        ticking := false;
        return;
      }
      ticking := true;
    }

    /**
     * One tick of the interval, then the effect re-run that the changed value triggers: the
     * value follows `NextSecond`, and `onExpire` is called on the tick that reaches 0.
     */
    method Tick()
      requires Valid() && ticking
      modifies this
      ensures Valid()
      ensures secondsLeft == NextSecond(old(secondsLeft)) && secondsLeft < old(secondsLeft)
      ensures expireCalls == old(expireCalls) + (if secondsLeft == 0 then 1 else 0)
    {
      secondsLeft := NextSecond(secondsLeft);
      ticking := false;
      Effect();
    }
  }
}

/**
 * The modal shown when the countdown expires: 30 seconds to submit, after which it ends
 * the session itself; closing it resets the 30 seconds.
 */
module ExpiryModal {
  import opened Countdown

  const Grace: int := 30

  class TimerExpiredModal {
    var open: bool
    var secondsLeft: int
    var ticking: bool
    /** How many times `onForceEnd` was called. */
    var forceEndCalls: nat
    /** How many times `onSubmitNow` was called. */
    var submitCalls: nat

    /**
     * Within 0..30; closed means full and idle; the interval runs exactly while open and
     * above 0.
     */
    predicate Valid()
      reads this
    {
      && 0 <= secondsLeft <= Grace
      && (!open ==> secondsLeft == Grace)
      && (ticking <==> open && secondsLeft > 0)
    }

    /** Mounting with `open` as given: 30 seconds, and the interval starts if open. */
    constructor(isOpen: bool)
      ensures Valid() && open == isOpen && secondsLeft == Grace && forceEndCalls == 0 && submitCalls == 0
    {
      open := isOpen;
      secondsLeft := Grace;
      ticking := isOpen;
      forceEndCalls := 0;
      submitCalls := 0;
    }

    /** The `open` prop changes: closing resets to 30; opening starts a fresh interval. */
    method SetOpen(isOpen: bool)
      requires Valid()
      modifies this
      ensures Valid() && open == isOpen
      ensures !isOpen ==> secondsLeft == Grace
      ensures isOpen && !old(open) ==> secondsLeft == Grace && ticking
      ensures isOpen && old(open) ==> secondsLeft == old(secondsLeft) && ticking == old(ticking)
      ensures forceEndCalls == old(forceEndCalls) && submitCalls == old(submitCalls)
    {
      if isOpen == open {
        return;
      }
      open := isOpen;
      if !open {
        secondsLeft := Grace;
        ticking := false;
      } else {
        ticking := true;
      }
    }

    /** One tick: the value follows `NextSecond`, and the tick reaching 0 stops the interval and ends the session. */
    method Tick()
      requires Valid() && ticking
      modifies this
      ensures Valid() && open
      ensures secondsLeft == NextSecond(old(secondsLeft)) && secondsLeft < old(secondsLeft)
      ensures forceEndCalls == old(forceEndCalls) + (if secondsLeft == 0 then 1 else 0)
      ensures submitCalls == old(submitCalls)
    {
      if secondsLeft <= 1 {
        ticking := false;
        forceEndCalls := forceEndCalls + 1;
        secondsLeft := 0;
        return;
      }
      secondsLeft := secondsLeft - 1;
    }

    /** "Submit Now" is disabled exactly at 0. */
    predicate SubmitDisabled()
      reads this
    {
      secondsLeft == 0
    }

    /** "Submit Now", only clickable while enabled. */
    method SubmitNow()
      requires Valid() && !SubmitDisabled()
      modifies this
      ensures Valid() && submitCalls == old(submitCalls) + 1
      ensures secondsLeft == old(secondsLeft) && forceEndCalls == old(forceEndCalls)
    {
      submitCalls := submitCalls + 1;
    }

    /** "End Session" ends the session at once, whatever the countdown shows. */
    method EndSession()
      requires Valid()
      modifies this
      ensures Valid() && forceEndCalls == old(forceEndCalls) + 1
      ensures secondsLeft == old(secondsLeft) && submitCalls == old(submitCalls)
    {
      forceEndCalls := forceEndCalls + 1;
    }
  }

  /** Left open, the modal ends the session on its 30th tick and not before. */
  lemma GraceTicks(n: nat)
    ensures After(Grace, n) == 0 <==> n >= 30
  {
    AfterTicks(Grace, n);
  }
}
