/** The pause between two attempts (`_sleep_retry_backoff`), in seconds. */
module Backoff {
  import opened Lifecycle

  const POLL := 0.05
  const PLAIN := 0.5

  /** When the task is CANCELLED, if ever. */
  predicate CancelledBy(cancel: Option<real>, now: real) {
    cancel.Some? && cancel.value <= now
  }

  function Earlier(a: real, b: real): real {
    if a <= b then a else b
  }

  function Later(a: real, b: real): real {
    if a <= b then b else a
  }

  /** Polls still to come; what makes the loop end although time is real. */
  function PollsLeft(remaining: real): nat {
    if remaining <= 0.0 then 0 else (remaining / POLL).Floor + 1
  }

  lemma PollsDecrease(remaining: real, slept: real)
    requires remaining > 0.0 && slept >= Earlier(remaining, POLL)
    ensures PollsLeft(remaining - slept) < PollsLeft(remaining)
  {
    if remaining - slept > 0.0 {
      assert (remaining - slept) / POLL <= remaining / POLL - 1.0;
    }
  }

  /** Pauses from `start`; the k-th sleep lasts `lag(k)` longer than asked, at most `slack`.
      The pause is never cut short without a cancel, and a long one notices a cancel within
      one poll. */
  method SleepRetryBackoff(start: real, backoff: real, cancel: Option<real>, lag: nat -> real, ghost slack: real)
    returns (now: real)
    requires backoff >= 0.0 && forall k :: 0.0 <= lag(k) <= slack
    ensures now < start + backoff ==> CancelledBy(cancel, now)
    ensures start <= now <= start + backoff + slack
    ensures backoff > 0.5 && cancel.Some? ==> now <= Later(start, cancel.value) + 0.05 + slack
    ensures backoff <= 0.5 ==> now >= start + backoff
  {
    assert 0.0 <= lag(0) <= slack;
    if backoff <= PLAIN {
      return start + backoff + lag(0);
    }
    var deadline := start + backoff;
    now := start;
    var k := 0;
    while !CancelledBy(cancel, now)
      invariant start <= now <= deadline + slack
      invariant cancel.Some? ==> now <= Later(start, cancel.value) + POLL + slack
      decreases PollsLeft(deadline - now)
    {
      var remaining := deadline - now;
      if remaining <= 0.0 { return; }
      PollsDecrease(remaining, Earlier(remaining, POLL) + lag(k));
      now := now + Earlier(remaining, POLL) + lag(k);
      k := k + 1;
    }
  }
}
