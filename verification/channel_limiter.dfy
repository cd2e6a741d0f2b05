/** The token bucket that paces a channel's platform calls, over exact arithmetic and a monotone clock. */
module ChannelLimiter {

  datatype Bucket = Bucket(rate: real, burst: real, tokens: real, last: real)

  predicate Valid(b: Bucket)
  {
    b.rate > 0.0 && b.burst >= 1.0 && 0.0 <= b.tokens <= b.burst
  }

  /** newRateLimiter: non-positive settings take the defaults, and the bucket starts full. */
  function NewBucket(rate: real, burst: int, now: real): (b: Bucket)
    ensures Valid(b) && b.tokens == b.burst && b.last == now
  {
    var size := (if burst <= 0 then 16 else burst) as real;
    Bucket(if rate <= 0.0 then 10.0 else rate, size, size, now)
  }

  function Min(a: real, b: real): real
  {
    if a < b then a else b
  }

  /** The tokens that flow in between two times. */
  function Flow(rate: real, from: real, to: real): real
  {
    (to - from) * rate
  }

  lemma FlowIsNonNegative(rate: real, from: real, to: real)
    requires rate > 0.0 && from <= to
    ensures Flow(rate, from, to) >= 0.0
  {
  }

  lemma FlowAdds(rate: real, from: real, mid: real, to: real)
    ensures Flow(rate, from, mid) + Flow(rate, mid, to) == Flow(rate, from, to)
  {
  }

  function Refilled(b: Bucket, now: real): Bucket
  {
    b.(tokens := Min(b.burst, b.tokens + Flow(b.rate, b.last, now)), last := now)
  }

  predicate Grants(b: Bucket, now: real)
  {
    Refilled(b, now).tokens >= 1.0
  }

  /** One pass of the wait loop at the given time. */
  function Attempt(b: Bucket, now: real): Bucket
  {
    var full := Refilled(b, now);
    if full.tokens >= 1.0 then full.(tokens := full.tokens - 1.0) else full
  }

  /** How long a refused waiter sleeps. */
  function Pause(b: Bucket): real
    requires b.rate > 0.0
  {
    (1.0 - b.tokens) / b.rate
  }

  /** The bucket after attempts, by any waiters, at these times. */
  function After(b: Bucket, times: seq<real>): Bucket
  {
    if times == [] then b else Attempt(After(b, times[..|times| - 1]), times[|times| - 1])
  }

  function GrantCount(b: Bucket, times: seq<real>): nat
  {
    if times == [] then 0
    else
      var n := |times| - 1;
      GrantCount(b, times[..n]) + (if Grants(After(b, times[..n]), times[n]) then 1 else 0)
  }

  predicate Monotone(start: real, times: seq<real>)
  {
    && (times != [] ==> start <= times[0])
    && forall i, j :: 0 <= i < j < |times| ==> times[i] <= times[j]
  }

  lemma AttemptKeepsValid(b: Bucket, now: real)
    requires Valid(b) && b.last <= now
    ensures Valid(Attempt(b, now)) && Attempt(b, now).last == now
    ensures Attempt(b, now).rate == b.rate && Attempt(b, now).burst == b.burst
    ensures Attempt(b, now).tokens + (if Grants(b, now) then 1.0 else 0.0) <= b.tokens + Flow(b.rate, b.last, now)
  {
    FlowIsNonNegative(b.rate, b.last, now);
    var flow := Flow(b.rate, b.last, now);
    assert Refilled(b, now) == b.(tokens := Min(b.burst, b.tokens + flow), last := now);
  }

  lemma {:induction false} RunKeepsValid(b: Bucket, times: seq<real>)
    requires Valid(b) && Monotone(b.last, times)
    ensures var after := After(b, times);
      && Valid(after) && after.rate == b.rate && after.burst == b.burst
      && after.last == (if times == [] then b.last else times[|times| - 1])
  {
    if times != [] {
      var n := |times| - 1;
      RunKeepsValid(b, times[..n]);
      AttemptKeepsValid(After(b, times[..n]), times[n]);
    }
  }

  /** The last pass of a run, taken on its own. */
  lemma LastAttempt(b: Bucket, times: seq<real>)
    requires Valid(b) && Monotone(b.last, times) && times != []
    ensures var n := |times| - 1; var mid := After(b, times[..n]);
      && Valid(mid) && mid.rate == b.rate && mid.last <= times[n]
      && mid.last == (if n == 0 then b.last else times[n - 1])
      && After(b, times).tokens + (if Grants(mid, times[n]) then 1.0 else 0.0)
         <= mid.tokens + Flow(b.rate, mid.last, times[n])
  {
    var n := |times| - 1;
    RunKeepsValid(b, times[..n]);
    AttemptKeepsValid(After(b, times[..n]), times[n]);
  }

  /** Tokens and grants together never exceed what was there plus what flowed in. */
  lemma {:induction false} TokensAreConserved(b: Bucket, times: seq<real>)
    requires Valid(b) && Monotone(b.last, times)
    ensures After(b, times).tokens + GrantCount(b, times) as real
            <= b.tokens + Flow(b.rate, b.last, if times == [] then b.last else times[|times| - 1])
  {
    if times != [] {
      var n := |times| - 1;
      LastAttempt(b, times);
      TokensAreConserved(b, times[..n]);
      FlowAdds(b.rate, b.last, After(b, times[..n]).last, times[n]);
      var granted := if Grants(After(b, times[..n]), times[n]) then 1.0 else 0.0;
      assert GrantCount(b, times) as real == GrantCount(b, times[..n]) as real + granted;
    }
  }

  /** No attempt finds so many tokens that some of the flow is lost. */
  ghost predicate NeverFull(b: Bucket, times: seq<real>)
  {
    times != [] ==>
      var n := |times| - 1;
      var before := After(b, times[..n]);
      NeverFull(b, times[..n]) && before.tokens + Flow(before.rate, before.last, times[n]) <= before.burst
  }

  lemma AttemptIsExact(b: Bucket, now: real)
    requires b.tokens + Flow(b.rate, b.last, now) <= b.burst
    ensures Attempt(b, now).tokens + (if Grants(b, now) then 1.0 else 0.0) == b.tokens + Flow(b.rate, b.last, now)
  {
    hide Flow;
  }

  /** While the bucket is never full, every token that flows in is left or was granted, one for one. */
  lemma {:induction false} TokensAreExact(b: Bucket, times: seq<real>)
    requires Valid(b) && Monotone(b.last, times) && NeverFull(b, times)
    ensures After(b, times).tokens + GrantCount(b, times) as real
            == b.tokens + Flow(b.rate, b.last, if times == [] then b.last else times[|times| - 1])
  {
    if times == [] {
      assert Flow(b.rate, b.last, b.last) == 0.0;
    } else {
      var n := |times| - 1;
      var before := After(b, times[..n]);
      LastAttempt(b, times);
      TokensAreExact(b, times[..n]);
      FlowAdds(b.rate, b.last, before.last, times[n]);
      AttemptIsExact(before, times[n]);
      hide Flow;
      hide Attempt;
      hide Refilled;
      hide Grants;
      var granted := if Grants(before, times[n]) then 1.0 else 0.0;
      assert GrantCount(b, times) as real == GrantCount(b, times[..n]) as real + granted;
    }
  }

  /** An attempt is granted exactly when the tokens left and the flow since, within the burst, make up one token. */
  lemma GrantedIff(b: Bucket, now: real)
    requires Valid(b) && b.last <= now
    ensures GrantCount(b, [now]) == if b.tokens + (now - b.last) * b.rate >= 1.0 then 1 else 0
  {
    assert [now][..0] == [];
    assert GrantCount(b, []) == 0 && After(b, []) == b;
  }

  /** A waiter short of a token is granted one at a time if and only if its pause is over by then. */
  lemma PauseIsExact(b: Bucket, now: real)
    requires Valid(b) && b.tokens < 1.0 && b.last <= now
    ensures GrantCount(b, [now]) == 1 <==> now >= b.last + Pause(b)
  {
    GrantedIff(b, now);
    var wait := now - b.last;
    assert wait >= Pause(b) <==> wait * b.rate >= 1.0 - b.tokens by {
      assert Pause(b) * b.rate == 1.0 - b.tokens;
      if wait >= Pause(b) {
        assert wait * b.rate >= Pause(b) * b.rate;
      } else {
        assert wait * b.rate < Pause(b) * b.rate;
      }
    }
  }

  /**
   In every window of every run, from its first attempt to its last, the grants number at most the burst
   plus the rate times the time between these two attempts.
   */
  lemma WindowBound(b: Bucket, before: seq<real>, window: seq<real>)
    requires Valid(b) && Monotone(b.last, before + window) && window != []
    ensures GrantCount(After(b, before), window) as real
            <= b.burst + Flow(b.rate, window[0], window[|window| - 1])
  {
    WindowIsMonotone(b, before, window);
    var start := After(b, before);
    // Restart the bucket at the window's first attempt, with what it holds then.
    RefilledIsValid(start, window[0]);
    var full := Refilled(start, window[0]);
    SameFromFirst(start, full, window);
    TokensAreConserved(full, window);
    RunKeepsValid(full, window);
  }

  lemma RefilledIsValid(b: Bucket, now: real)
    requires Valid(b) && b.last <= now
    ensures var full := Refilled(b, now);
      Valid(full) && full.last == now && full.rate == b.rate && full.burst == b.burst
  {
    FlowIsNonNegative(b.rate, b.last, now);
    var flow := Flow(b.rate, b.last, now);
    assert Refilled(b, now) == b.(tokens := Min(b.burst, b.tokens + flow), last := now);
  }

  lemma WindowIsMonotone(b: Bucket, before: seq<real>, window: seq<real>)
    requires Valid(b) && Monotone(b.last, before + window) && window != []
    ensures var start := After(b, before);
      && Valid(start) && start.rate == b.rate && start.burst == b.burst
      && start.last <= window[0] && Monotone(window[0], window)
  {
    var all := before + window;
    assert forall i :: 0 <= i < |before| ==> all[i] == before[i];
    assert forall i :: 0 <= i < |window| ==> all[|before| + i] == window[i];
    assert Monotone(b.last, before);
    RunKeepsValid(b, before);
  }

  /** Refilling just before the first attempt changes nothing. */
  lemma {:induction false} SameFromFirst(b: Bucket, full: Bucket, window: seq<real>)
    requires Valid(b) && window != [] && full == Refilled(b, window[0])
    ensures After(b, window) == After(full, window) && GrantCount(b, window) == GrantCount(full, window)
    decreases |window|
  {
    assert Flow(full.rate, full.last, window[0]) == 0.0;
    assert Refilled(full, window[0]) == full;
    if |window| == 1 {
      assert window[..0] == [];
    } else {
      SameFromFirst(b, full, window[..|window| - 1]);
    }
  }

  /** A refused waiter that nobody overtakes is granted as soon as it has slept its pause. */
  lemma SoleWaiterSleepsOnce(b: Bucket, now: real, wake: real)
    requires Valid(b) && b.last <= now && !Grants(b, now)
    requires wake >= now + Pause(Attempt(b, now))
    ensures Grants(Attempt(b, now), wake)
  {
    AttemptKeepsValid(b, now);
    var after := Attempt(b, now);
    PauseRefills(after.rate, after.tokens, now, wake);
    assert after.tokens + Flow(after.rate, after.last, wake) >= 1.0;
  }

  lemma PauseRefills(rate: real, tokens: real, now: real, wake: real)
    requires rate > 0.0 && wake >= now + (1.0 - tokens) / rate
    ensures Flow(rate, now, wake) >= 1.0 - tokens
  {
    var pause := (1.0 - tokens) / rate;
    assert pause * rate == 1.0 - tokens;
    var slack := wake - now - pause;
    assert slack * rate >= 0.0;
    assert (wake - now) * rate == pause * rate + slack * rate;
  }

  datatype WaitOutcome = Granted | ContextDone | StillWaiting

  class RateLimiter {
    const rate: real
    const burst: real
    var tokens: real
    var last: real

    function Contents(): Bucket
      reads this
    {
      Bucket(rate, burst, tokens, last)
    }

    constructor (rate: real, burst: int, now: real)
      ensures Contents() == NewBucket(rate, burst, now)
      ensures this.rate == if rate <= 0.0 then 10.0 else rate
      ensures this.burst == (if burst <= 0 then 16 else burst) as real
      ensures tokens == this.burst && last == now
    {
      var r, n := rate, burst;
      if r <= 0.0 {
        r := 10.0;
      }
      if n <= 0 {
        n := 16;
      }
      this.rate, this.burst, this.tokens, this.last := r, n as real, n as real, now;
    }

    /**
     The wait loop: readings are the clock's values at its passes, and the context ends during the sleep
     after pass `cancelledAt`.
     */
    method Wait(readings: seq<real>, cancelledAt: nat) returns (outcome: WaitOutcome, passes: nat)
      requires Valid(Contents()) && Monotone(last, readings)
      modifies this
      ensures Valid(Contents()) && passes <= |readings|
      ensures Contents() == After(old(Contents()), readings[..passes])
      ensures GrantCount(old(Contents()), readings[..passes]) == if outcome == Granted then 1 else 0
      ensures outcome == Granted ==>
        passes > 0 && Grants(After(old(Contents()), readings[..passes - 1]), readings[passes - 1])
      ensures outcome == ContextDone <==> passes == cancelledAt + 1 && outcome != Granted
      ensures outcome == StillWaiting ==> passes == |readings|
      ensures |readings| >= 2 && cancelledAt > 0
              && readings[1] >= readings[0] + Pause(Attempt(old(Contents()), readings[0]))
              ==> outcome == Granted && passes <= 2
    {
      ghost var start := Contents();
      passes := 0;
      while passes < |readings|
        invariant passes <= |readings| && passes <= cancelledAt
        invariant Valid(Contents()) && Contents() == After(start, readings[..passes])
        invariant last == (if passes == 0 then start.last else readings[passes - 1])
        invariant GrantCount(start, readings[..passes]) == 0
        invariant passes >= 2 && cancelledAt > 0 ==> readings[1] < readings[0] + Pause(Attempt(start, readings[0]))
        invariant passes == 1 ==> !Grants(start, readings[0])
      {
        var now := readings[passes];
        assert readings[..passes + 1][..passes] == readings[..passes];
        AttemptKeepsValid(Contents(), now);
        ghost var before := Contents();
        if passes == 1 {
          assert readings[..1][..0] == [];
          assert before == Attempt(start, readings[0]);
          if now >= readings[0] + Pause(before) { SoleWaiterSleepsOnce(start, readings[0], now); }
        }
        tokens := Min(burst, tokens + Flow(rate, last, now));
        last := now;
        passes := passes + 1;
        if tokens >= 1.0 {
          tokens := tokens - 1.0;
          return Granted, passes;
        }
        if passes == cancelledAt + 1 {
          return ContextDone, passes;
        }
      }
      outcome := StillWaiting;
    }
  }
}
