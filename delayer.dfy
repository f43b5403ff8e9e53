/** Delayer: spaces the starts of tests at least `delaySeconds` apart. */
module Delayer {
  import Settings

  /** The three clock readings (seconds) one allowsTestStart call may take: the one it
      stores when no time is stored yet, the one it compares with the stored time, and the
      one it adds the delay to. */
  datatype Readings = Readings(stored: real, compared: real, after: real)

  /** The clock does not go backwards within one call. */
  predicate Monotone(t: Readings) {
    t.stored <= t.compared <= t.after
  }

  /** One allowsTestStart call: the answer and the new next-allowed time. */
  datatype Decision = Decision(allowed: bool, next: real)

  function Step(next: real, delay: real, t: Readings): Decision {
    if delay <= 0.0 then Decision(true, next)
    else
      var next' := if next <= 0.0 then t.stored else next;
      if t.compared <= next' then Decision(false, next')
      else Decision(true, t.after + delay)
  }

  class Delayer {
    const settings: Settings.SettingsRun
    var nextAllowedTime: real

    constructor(settings: Settings.SettingsRun)
      ensures this.settings == settings && nextAllowedTime == -1.0
    {
      this.settings := settings;
      nextAllowedTime := -1.0;
    }

    /** allowsTestStart, whose `microtime(true)` calls read `t.stored`, `t.compared` and
        `t.after`. */
    method AllowsTestStart(t: Readings) returns (allowed: bool)
      modifies this
      ensures Decision(allowed, nextAllowedTime) == Step(old(nextAllowedTime), settings.cfg.delaySeconds, t)
    {
      var delay := settings.cfg.delaySeconds;
      if delay <= 0.0 {
        return true;
      }
      if nextAllowedTime <= 0.0 {
        nextAllowedTime := t.stored;
      }
      if t.compared <= nextAllowedTime {
        return false;
      }
      nextAllowedTime := t.after + delay;
      allowed := true;
    }
  }

  /** Without a delay every start is allowed and nothing is remembered. */
  lemma NoDelayAllows(next: real, delay: real, t: Readings)
    requires delay <= 0.0
    ensures Step(next, delay, t) == Decision(true, next)
  {
  }

  /** With a delay, the first call stores its first reading and allows the start exactly when
      the clock has moved on by the second reading; then the next start waits for the third
      reading plus the delay. */
  lemma FirstCallRule(delay: real, t: Readings)
    requires delay > 0.0 && Monotone(t)
    ensures Step(-1.0, delay, t).allowed <==> t.compared > t.stored
    ensures Step(-1.0, delay, t).allowed ==> Step(-1.0, delay, t).next == t.after + delay
    ensures !Step(-1.0, delay, t).allowed ==> Step(-1.0, delay, t).next == t.stored
  {
  }

  /** With a delay, the answer is no exactly while the compared reading has not passed the
      next-allowed time; a yes moves it to the third reading + delay. */
  lemma DelayedAnswer(next: real, delay: real, t: Readings)
    requires delay > 0.0 && next > 0.0
    ensures !Step(next, delay, t).allowed <==> t.compared <= next
    ensures !Step(next, delay, t).allowed ==> Step(next, delay, t).next == next
    ensures Step(next, delay, t).allowed ==> Step(next, delay, t).next == t.after + delay
  {
  }

  /** The answers to a series of calls with the given readings. */
  function Answers(next: real, delay: real, times: seq<Readings>): (r: seq<bool>)
    ensures |r| == |times|
    decreases |times|
  {
    if times == [] then []
    else
      var d := Step(next, delay, times[0]);
      [d.allowed] + Answers(d.next, delay, times[1..])
  }

  /** Readings of a clock that reads no negative time and does not go back within a call. */
  predicate GoodClock(times: seq<Readings>) {
    forall k :: 0 <= k < |times| ==> times[k].stored >= 0.0 && Monotone(times[k])
  }

  /** With a delay and a stored time that is not negative, a start is allowed only when the
      compared reading is past the stored time. */
  lemma {:induction false} AllowedAfterNext(next: real, delay: real, times: seq<Readings>, j: nat)
    requires delay > 0.0 && next >= 0.0 && GoodClock(times)
    requires j < |times| && Answers(next, delay, times)[j]
    ensures times[j].compared > next
    decreases |times|
  {
    var d := Step(next, delay, times[0]);
    if j > 0 {
      assert Answers(next, delay, times)[j] == Answers(d.next, delay, times[1..])[j - 1];
      assert GoodClock(times[1..]) by {
        assert forall k :: 0 <= k < |times| - 1 ==> times[1..][k] == times[k + 1];
      }
      AllowedAfterNext(d.next, delay, times[1..], j - 1);
    }
  }

  /** With a positive delay, a later allowed start compares a reading more than the delay past
      the last reading of an earlier allowed start, however the clock moves between them. */
  lemma {:induction false} AllowedStartsSeparated(next: real, delay: real, times: seq<Readings>, i: nat, j: nat)
    requires delay > 0.0 && GoodClock(times)
    requires i < j < |times|
    requires Answers(next, delay, times)[i] && Answers(next, delay, times)[j]
    ensures times[j].compared - times[i].after > delay
    decreases |times|
  {
    var d := Step(next, delay, times[0]);
    assert Answers(next, delay, times)[j] == Answers(d.next, delay, times[1..])[j - 1];
    assert GoodClock(times[1..]) by {
      assert forall k :: 0 <= k < |times| - 1 ==> times[1..][k] == times[k + 1];
    }
    if i == 0 {
      assert d.next == times[0].after + delay;
      AllowedAfterNext(d.next, delay, times[1..], j - 1);
    } else {
      assert Answers(next, delay, times)[i] == Answers(d.next, delay, times[1..])[i - 1];
      AllowedStartsSeparated(d.next, delay, times[1..], i - 1, j - 1);
    }
  }
}
