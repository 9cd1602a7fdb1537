/** Token buckets: how many frames can go out in a window of time. */
module Pacing {
  /** What a bucket of the given rate gains in a time. */
  function Earned(rate: real, time: real): real {
    rate * time
  }

  lemma EarnedAdds(rate: real, s: real, t: real)
    ensures Earned(rate, s) + Earned(rate, t) == Earned(rate, s + t)
  {
  }

  lemma EarnedGrows(rate: real, s: real, t: real)
    requires rate > 0.0 && s <= t
    ensures Earned(rate, s) <= Earned(rate, t)
  {
    assert rate * (t - s) >= 0.0;
  }

  /**
   * Frames went out at `times` and `tokens` are left at time `at`. Every stretch of frames is
   * within the burst and the rate, and so is the last stretch together with what is left.
   */
  ghost predicate Paid(burst: real, rate: real, tokens: real, at: real, times: seq<real>) {
    && 0.0 <= tokens <= burst
    && (forall i :: 0 <= i < |times| ==> times[i] <= at && (|times| - i) as real + tokens <= burst + Earned(rate, at - times[i]))
    && WithinRate(burst, rate, times)
  }

  ghost predicate WithinRate(burst: real, rate: real, times: seq<real>) {
    forall i, j :: 0 <= i <= j < |times| ==> (j - i + 1) as real <= burst + Earned(rate, times[j] - times[i])
  }

  lemma RefillKeepsPaid(burst: real, rate: real, tokens: real, at: real, times: seq<real>, tokens': real, now: real)
    requires Paid(burst, rate, tokens, at, times) && at <= now
    requires 0.0 <= tokens' <= burst && tokens' <= tokens + Earned(rate, now - at)
    ensures Paid(burst, rate, tokens', now, times)
  {
    hide Earned, WithinRate;
    forall i | 0 <= i < |times|
      ensures times[i] <= now && (|times| - i) as real + tokens' <= burst + Earned(rate, now - times[i])
    {
      EarnedAdds(rate, now - at, at - times[i]);
      assert now - at + (at - times[i]) == now - times[i];
    }
  }

  lemma SpendKeepsPaid(burst: real, rate: real, tokens: real, at: real, times: seq<real>)
    requires Paid(burst, rate, tokens, at, times) && 1.0 <= tokens
    ensures Paid(burst, rate, tokens - 1.0, at, times + [at])
  {
    assert Earned(rate, 0.0) == 0.0;
    hide Earned;
    var after := times + [at];
    forall i | 0 <= i < |after|
      ensures after[i] <= at && (|after| - i) as real + (tokens - 1.0) <= burst + Earned(rate, at - after[i])
    {
      assert after[i] == if i < |times| then times[i] else at;
    }
    forall i, j | 0 <= i <= j < |after|
      ensures (j - i + 1) as real <= burst + Earned(rate, after[j] - after[i])
    {
      if j < |times| {
        assert after[i] == times[i] && after[j] == times[j];
      } else {
        assert after[j] == at && j - i + 1 == |after| - i;
      }
    }
  }

  // ---------------------------------------------------------------------
  // The sleeping bucket of the Python agent
  // ---------------------------------------------------------------------

  function MaxReal(x: real, y: real): real {
    if x >= y then x else y
  }

  function MinReal(x: real, y: real): real {
    if x <= y then x else y
  }

  function Burst(rate: real): real {
    MaxReal(1.0, rate / 3.0)
  }

  lemma BurstIsPositive(rate: real)
    ensures Burst(rate) >= 1.0
  {
  }

  datatype Pacer = Pacer(tokens: real, at: real)

  function Refilled(rate: real, p: Pacer, now: real): Pacer {
    Pacer(MinReal(Burst(rate), p.tokens + Earned(rate, now - p.at)), now)
  }

  /** One caller under the lock: it comes at `now` and, if it must sleep, wakes at `wake`. */
  function Paced(rate: real, p: Pacer, now: real, wake: real): Pacer {
    var q := Refilled(rate, p, now);
    if q.tokens < 1.0 then Pacer(0.0, wake) else q.(tokens := q.tokens - 1.0)
  }

  /** The clock does not run backwards and a sleep is not cut short. */
  predicate Timely(rate: real, p: Pacer, now: real, wake: real)
    requires rate > 0.0
  {
    p.at <= now && now + MaxReal(0.0, (1.0 - Refilled(rate, p, now).tokens) / rate) <= wake
  }

  lemma PacedKeepsPaid(rate: real, p: Pacer, now: real, wake: real, times: seq<real>)
    requires rate > 0.0 && Timely(rate, p, now, wake) && Paid(Burst(rate), rate, p.tokens, p.at, times)
    ensures var q := Paced(rate, p, now, wake); Paid(Burst(rate), rate, q.tokens, q.at, times + [q.at])
  {
    hide Earned, Paid, Burst;
    var q := Refilled(rate, p, now);
    assert q.tokens >= 0.0 && Burst(rate) >= 1.0 by {
      GainIsPositive(rate, p, now, times);
    }
    RefillKeepsPaid(Burst(rate), rate, p.tokens, p.at, times, q.tokens, now);
    if q.tokens < 1.0 {
      SleepEarns(rate, 1.0 - q.tokens, wake - now);
      RefillKeepsPaid(Burst(rate), rate, q.tokens, now, times, 1.0, wake);
      SpendKeepsPaid(Burst(rate), rate, 1.0, wake, times);
    } else {
      SpendKeepsPaid(Burst(rate), rate, q.tokens, now, times);
    }
  }

  lemma GainIsPositive(rate: real, p: Pacer, now: real, times: seq<real>)
    requires rate > 0.0 && p.at <= now && Paid(Burst(rate), rate, p.tokens, p.at, times)
    ensures Refilled(rate, p, now).tokens >= 0.0 && Burst(rate) >= 1.0
  {
    EarnedGrows(rate, 0.0, now - p.at);
    assert Earned(rate, 0.0) == 0.0;
  }

  /** Sleeping for what is missing earns it. */
  lemma SleepEarns(rate: real, missing: real, slept: real)
    requires rate > 0.0 && missing >= 0.0 && missing / rate <= slept
    ensures missing <= Earned(rate, slept)
  {
    EarnedGrows(rate, missing / rate, slept);
    assert Earned(rate, missing / rate) == missing;
  }

  class Agent {
    var paceTokens: real
    var paceAt: real
    const maxFramesPerSecond: real

    constructor (rate: real)
      ensures maxFramesPerSecond == rate && Value() == Pacer(Burst(rate), 0.0)
    {
      maxFramesPerSecond := rate;
      paceTokens, paceAt := Burst(rate), 0.0;
    }

    ghost function Value(): Pacer
      reads this
    {
      Pacer(paceTokens, paceAt)
    }

    /** Returns once a frame may go out; without a rate that is at once. */
    method Pace(now: real, wake: real)
      requires maxFramesPerSecond > 0.0 ==> Timely(maxFramesPerSecond, Value(), now, wake)
      modifies this
      ensures Value() == if maxFramesPerSecond > 0.0 then Paced(maxFramesPerSecond, old(Value()), now, wake) else old(Value())
    {
      if maxFramesPerSecond <= 0.0 {
        return;
      }
      paceTokens := MinReal(Burst(maxFramesPerSecond), paceTokens + Earned(maxFramesPerSecond, now - paceAt));
      paceAt := now;
      if paceTokens < 1.0 {
        paceTokens, paceAt := 1.0, wake;
      }
      paceTokens := paceTokens - 1.0;
    }
  }

  datatype Call = Call(now: real, wake: real)

  predicate AllTimely(rate: real, p: Pacer, calls: seq<Call>)
    requires rate > 0.0
    decreases |calls|
  {
    calls == [] || (Timely(rate, p, calls[0].now, calls[0].wake) && AllTimely(rate, Paced(rate, p, calls[0].now, calls[0].wake), calls[1..]))
  }

  /** The times at which the calls return. */
  function Released(rate: real, p: Pacer, calls: seq<Call>): (times: seq<real>)
    ensures |times| == |calls|
    decreases |calls|
  {
    if calls == [] then []
    else
      var q := Paced(rate, p, calls[0].now, calls[0].wake);
      [q.at] + Released(rate, q, calls[1..])
  }

  lemma {:induction false} ReleasesArePaid(rate: real, p: Pacer, calls: seq<Call>, times: seq<real>)
    requires rate > 0.0 && AllTimely(rate, p, calls) && Paid(Burst(rate), rate, p.tokens, p.at, times)
    ensures WithinRate(Burst(rate), rate, times + Released(rate, p, calls))
    decreases |calls|
  {
    hide Paced, Timely, Paid, Burst, WithinRate;
    if calls == [] {
      assert times + Released(rate, p, calls) == times;
      PaidIsWithinRate(Burst(rate), rate, p.tokens, p.at, times);
    } else {
      var q := Paced(rate, p, calls[0].now, calls[0].wake);
      PacedKeepsPaid(rate, p, calls[0].now, calls[0].wake, times);
      ReleasesArePaid(rate, q, calls[1..], times + [q.at]);
      assert times + Released(rate, p, calls) == times + [q.at] + Released(rate, q, calls[1..]);
    }
  }

  lemma PaidIsWithinRate(burst: real, rate: real, tokens: real, at: real, times: seq<real>)
    requires Paid(burst, rate, tokens, at, times)
    ensures WithinRate(burst, rate, times)
  {
  }

  lemma PaceIsWithinBurst(rate: real, calls: seq<Call>, i: nat, j: nat, t: real)
    requires rate > 0.0 && AllTimely(rate, Pacer(Burst(rate), 0.0), calls) && i <= j < |calls|
    requires var times := Released(rate, Pacer(Burst(rate), 0.0), calls); times[j] - times[i] <= t
    ensures (j - i + 1) as real <= Burst(rate) + Earned(rate, t)
  {
    hide Earned, Released, AllTimely, Burst;
    var p := Pacer(Burst(rate), 0.0);
    var times := Released(rate, p, calls);
    assert Paid(Burst(rate), rate, p.tokens, p.at, []) by {
      BurstIsPositive(rate);
    }
    ReleasesArePaid(rate, p, calls, []);
    assert [] + times == times;
    EarnedGrows(rate, times[j] - times[i], t);
  }

  /**
   * However its callers come, the frames that the Python agent lets go in a window of length
   * `t` number at most max(1, rate / 3) + rate * t.
   */
  lemma PaceIsWithinRate(rate: real, calls: seq<Call>, i: nat, j: nat, t: real)
    requires rate > 0.0 && AllTimely(rate, Pacer(Burst(rate), 0.0), calls) && i <= j < |calls|
    requires var times := Released(rate, Pacer(Burst(rate), 0.0), calls); times[j] - times[i] <= t
    ensures (j - i + 1) as real <= (if rate > 3.0 then rate / 3.0 else 1.0) + rate * t
  {
    hide Released, AllTimely;
    PaceIsWithinBurst(rate, calls, i, j, t);
  }

  // ---------------------------------------------------------------------
  // No slower than the rate
  // ---------------------------------------------------------------------

  /**
   * The bucket held `base` at time `since`, when it was full or a sleep ended; what is left of that and
   * of the gain since then is all but the `spent` frames.
   */
  ghost predicate Accounted(rate: real, p: Pacer, base: real, since: real, spent: nat) {
    && since <= p.at && (base == Burst(rate) || base == 1.0)
    && p.tokens + spent as real == base + Earned(rate, p.at - since)
  }

  lemma PacedIsAccounted(rate: real, p: Pacer, now: real, wake: real, base: real, since: real, spent: nat)
    returns (base': real, since': real, spent': nat)
    requires rate > 0.0 && p.at <= now && Accounted(rate, p, base, since, spent)
    ensures var q := Paced(rate, p, now, wake);
      && Accounted(rate, q, base', since', spent') && spent' <= spent + 1
      && (q.at != now ==> base + Earned(rate, now - since) - spent as real < 1.0)
  {
    var full := p.tokens + Earned(rate, now - p.at);
    EarnedAdds(rate, p.at - since, now - p.at);
    assert p.at - since + (now - p.at) == now - since;
    BurstIsPositive(rate);
    assert Earned(rate, 0.0) == 0.0;
    hide Earned, Burst;
    if Burst(rate) <= full {
      base', since', spent' := Burst(rate), now, 1;
    } else if full < 1.0 {
      base', since', spent' := 1.0, wake, 1;
    } else {
      base', since', spent' := base, since, spent + 1;
    }
  }

  lemma {:induction false} RunIsAccounted(rate: real, p: Pacer, calls: seq<Call>, k: nat, base: real, since: real, spent: nat)
    returns (base': real, since': real, spent': nat)
    requires rate > 0.0 && AllTimely(rate, p, calls) && k < |calls| && Accounted(rate, p, base, since, spent)
    ensures spent' <= spent + k && (base' == Burst(rate) || base' == 1.0) && since' <= calls[k].now
    ensures Released(rate, p, calls)[k] != calls[k].now ==> base' + Earned(rate, calls[k].now - since') - spent' as real < 1.0
    decreases |calls|
  {
    hide Paced, Earned, Burst;
    base', since', spent' := base, since, spent;
    var (now, wake) := (calls[0].now, calls[0].wake);
    var b, s, n := PacedIsAccounted(rate, p, now, wake, base, since, spent);
    if k > 0 {
      base', since', spent' := RunIsAccounted(rate, Paced(rate, p, now, wake), calls[1..], k - 1, b, s, n);
    }
  }

  /**
   * However its callers come, a call waits only when the rate is used up: since a time at which the
   * bucket was full, or at which a sleep ended and left one token, all that it held and earned is spent
   * on the frames that went out since then, but for less than one token.
   */
  lemma PaceWaitsOnlyWhenSpent(rate: real, calls: seq<Call>, k: nat) returns (base: real, since: real, spent: nat)
    requires rate > 0.0 && AllTimely(rate, Pacer(Burst(rate), 0.0), calls) && k < |calls|
    ensures spent <= k && since <= calls[k].now && (base == 1.0 || base == if rate > 3.0 then rate / 3.0 else 1.0)
    ensures Released(rate, Pacer(Burst(rate), 0.0), calls)[k] != calls[k].now ==> base + rate * (calls[k].now - since) - 1.0 < spent as real
  {
    assert Earned(rate, 0.0) == 0.0 && Burst(rate) == if rate > 3.0 then rate / 3.0 else 1.0;
    hide AllTimely, Released, Burst;
    base, since, spent := RunIsAccounted(rate, Pacer(Burst(rate), 0.0), calls, k, Burst(rate), 0.0, 0);
  }
}
