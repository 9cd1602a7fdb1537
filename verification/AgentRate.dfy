/** The pump of the TypeScript agent stays within its frame rate. */
module AgentRate {
  import opened AgentSends
  import opened AgentConservation
  import Pacing

  function Times(wire: seq<Write>): seq<real> {
    seq(|wire|, i requires 0 <= i < |wire| => Seconds(wire[i].at))
  }

  /** The bucket has not given out more than it held and earned. */
  ghost predicate Solvent(fps: real, b: Bucket) {
    Pacing.Paid(fps, fps, b.tokens, Seconds(b.tokensAt), Times(b.wire))
  }

  lemma RefilledIsSolvent(c: Config, b: Bucket, now: int)
    requires c.fps >= 1.0 && Solvent(c.fps, b) && b.tokensAt <= now
    ensures Solvent(c.fps, Refilled(c, b, now))
  {
    hide Pacing.Earned;
    var gain := Seconds(now - b.tokensAt);
    assert gain == Seconds(now) - Seconds(b.tokensAt);
    Pacing.EarnedGrows(c.fps, 0.0, gain);
    assert Pacing.Earned(c.fps, 0.0) == 0.0 && gain * c.fps == Pacing.Earned(c.fps, gain) by {
      Product(c.fps, gain);
    }
    Pacing.RefillKeepsPaid(c.fps, c.fps, b.tokens, Seconds(b.tokensAt), Times(b.wire), Refilled(c, b, now).tokens, Seconds(now));
  }

  lemma Product(fps: real, gain: real)
    ensures Pacing.Earned(fps, 0.0) == 0.0 && gain * fps == Pacing.Earned(fps, gain)
  {
  }

  lemma SpentIsSolvent(fps: real, b: Bucket, id: nat)
    requires Solvent(fps, b) && b.tokens >= 1.0
    ensures Solvent(fps, Spent(b, id, b.tokensAt))
  {
    hide Pacing.Earned, Pacing.Paid;
    Pacing.SpendKeepsPaid(fps, fps, b.tokens, Seconds(b.tokensAt), Times(b.wire));
    assert Times(Spent(b, id, b.tokensAt).wire) == Times(b.wire) + [Seconds(b.tokensAt)];
  }

  lemma {:induction false} PumpedFromIsSolvent(a: Agent, now: int, room: nat)
    requires Solvent(a.config.fps, a.bucket) && a.bucket.tokensAt == now
    ensures var d := PumpedFrom(a, now, room); Solvent(d.config.fps, d.bucket) && d.bucket.tokensAt == now && d.config == a.config
    decreases |a.sends.queue|
  {
    hide Solvent, Written;
    var s := a.sends;
    if s.queue != [] && !(s.queue[0].key.Some? && |s.inflight| >= a.config.maxInFlight) && a.bucket.tokens >= 1.0 && room > 0 {
      SpentIsSolvent(a.config.fps, a.bucket, s.queue[0].id);
      assert |Written(s, now).queue| < |s.queue| by {
        Shorter(s, now);
      }
      PumpedFromIsSolvent(a.(sends := Written(s, now), bucket := Spent(a.bucket, s.queue[0].id, now)), now, room - 1);
    }
  }

  lemma Shorter(s: Sends, now: int)
    requires s.queue != []
    ensures |Written(s, now).queue| < |s.queue|
  {
  }

  /** What every event up to time `now` leaves behind. */
  ghost predicate Paced(a: Agent, config: Config, now: int) {
    a.config == config && config.fps >= 1.0 && Solvent(config.fps, a.bucket) && a.bucket.tokensAt <= now
  }

  lemma PumpedIsPaced(a: Agent, now: int, room: nat)
    requires Paced(a, a.config, now)
    ensures Paced(Pumped(a, now, room), a.config, now)
  {
    hide Solvent, PumpedFrom;
    RefilledIsSolvent(a.config, a.bucket, now);
    PumpedFromIsSolvent(a.(bucket := Refilled(a.config, a.bucket, now)), now, room);
  }

  lemma EventIsPaced(a: Agent, e: Event, now: int, room: nat)
    requires Paced(a, a.config, now)
    ensures Paced(Apply(a, e, now, room), a.config, now)
  {
    hide Solvent, Pumped, QueueSwept, FlightSwept, AllRejected, Resent, Accepted;
    var s := a.sends;
    match e
    case Enqueue(key, transient, _) =>
      PumpedIsPaced(a.(sends := Accepted(s, Request(key, transient, now), a.config.sendTimeoutMs)), now, room);
    case PumpTimer => PumpedIsPaced(a.(link := a.link.(pumpTimer := false)), now, room);
    case Welcome => PumpedIsPaced(a.(link := a.link.(connected := true), sends := Resent(s)), now, room);
    case Ack(key) =>
      var i := KeyIndex(s.inflight, key);
      if i < |s.inflight| {
        PumpedIsPaced(a.(sends := FlightSettled(s, i, Acked(key))), now, room);
      }
    case SendError(key, retryable, code) =>
      var i := KeyIndex(s.inflight, key);
      if i < |s.inflight| {
        PumpedIsPaced(a.(sends := FlightDelayed(s, i)), now, room);
        PumpedIsPaced(a.(sends := FlightSettled(s, i, Rejected)), now, room);
      }
    case RetryTimer(i) =>
      if i < |s.retrying| {
        PumpedIsPaced(a.(sends := RetryRequeued(s, i)), now, room);
      }
    case Tick =>
      var t := QueueSwept(s, |s.queue|, Overdue(now));
      PumpedIsPaced(a.(sends := FlightSwept(a.config, a.link.connected, t, 0, now)), now, room);
    case _ =>
  }

  /** The clock does not run backwards. */
  predicate Monotone(start: int, es: seq<Timed>)
    decreases |es|
  {
    es == [] || (start <= es[0].now && Monotone(es[0].now, es[1..]))
  }

  lemma {:induction false} RunIsPaced(a: Agent, es: seq<Timed>, now: int)
    requires Paced(a, a.config, now) && Monotone(now, es)
    ensures Solvent(a.config.fps, Run(a, es).bucket)
    decreases |es|
  {
    hide Apply, Solvent;
    if es != [] {
      EventIsPaced(a, es[0].event, es[0].now, es[0].room);
      RunIsPaced(Apply(a, es[0].event, es[0].now, es[0].room), es[1..], es[0].now);
    }
  }

  /**
   * In every run, with acks, errors, retries and reconnects at any time, the frames written in
   * a window of `ms` milliseconds number at most fps + fps * ms / 1000.
   */
  lemma PumpIsWithinRate(config: Config, start: int, es: seq<Timed>, i: nat, j: nat, ms: int)
    requires config.fps >= 1.0 && Monotone(start, es)
    requires var wire := Run(Started(config, start), es).bucket.wire; i <= j < |wire| && wire[j].at - wire[i].at <= ms
    ensures (j - i + 1) as real <= config.fps + config.fps * Seconds(ms)
  {
    hide Pacing.Earned, Run, Monotone;
    var b := Run(Started(config, start), es).bucket;
    var times := Times(b.wire);
    assert Times([]) == [];
    RunIsPaced(Started(config, start), es, start);
    assert times[i] == Seconds(b.wire[i].at) && times[j] == Seconds(b.wire[j].at);
    Pacing.EarnedGrows(config.fps, times[j] - times[i], Seconds(ms));
    Product(config.fps, Seconds(ms));
  }

  // ---------------------------------------------------------------------
  // No slower than the rate
  // ---------------------------------------------------------------------

  /** The bucket was full at time `since`; what is left of it and of its gain since then is all but the frames from `j` on. */
  ghost predicate Accounted(fps: real, b: Bucket, since: int, j: nat) {
    && since <= b.tokensAt && j <= |b.wire| && (forall i :: j <= i < |b.wire| ==> since <= b.wire[i].at)
    && b.tokens + (|b.wire| - j) as real == fps + Pacing.Earned(fps, Seconds(b.tokensAt - since))
  }

  lemma RefilledIsAccounted(c: Config, b: Bucket, now: int, since: int, j: nat) returns (since': int, j': nat)
    requires Accounted(c.fps, b, since, j) && b.tokensAt <= now
    ensures Accounted(c.fps, Refilled(c, b, now), since', j')
  {
    var gain := Seconds(now - b.tokensAt);
    Product(c.fps, gain);
    if c.fps <= b.tokens + gain * c.fps {
      since', j' := now, |b.wire|;
    } else {
      since', j' := since, j;
      Pacing.EarnedAdds(c.fps, gain, Seconds(b.tokensAt - since));
      hide Pacing.Earned;
      assert gain + Seconds(b.tokensAt - since) == Seconds(now - since);
    }
  }

  lemma SpentIsAccounted(fps: real, b: Bucket, id: nat, since: int, j: nat)
    requires Accounted(fps, b, since, j)
    ensures Accounted(fps, Spent(b, id, b.tokensAt), since, j)
  {
    hide Pacing.Earned;
  }

  lemma {:induction false} PumpedFromIsAccounted(a: Agent, now: int, room: nat, since: int, j: nat)
    requires Accounted(a.config.fps, a.bucket, since, j) && a.bucket.tokensAt == now
    ensures var d := PumpedFrom(a, now, room); Accounted(a.config.fps, d.bucket, since, j) && d.bucket.tokensAt == now && d.config == a.config
    decreases |a.sends.queue|
  {
    hide Accounted, Written;
    var s := a.sends;
    if s.queue != [] && !(s.queue[0].key.Some? && |s.inflight| >= a.config.maxInFlight) && a.bucket.tokens >= 1.0 && room > 0 {
      SpentIsAccounted(a.config.fps, a.bucket, s.queue[0].id, since, j);
      assert |Written(s, now).queue| < |s.queue| by {
        Shorter(s, now);
      }
      PumpedFromIsAccounted(a.(sends := Written(s, now), bucket := Spent(a.bucket, s.queue[0].id, now)), now, room - 1, since, j);
    }
  }

  ghost predicate Traced(a: Agent, config: Config, now: int, since: int, j: nat) {
    a.config == config && a.bucket.tokensAt <= now && Accounted(config.fps, a.bucket, since, j)
  }

  lemma PumpedIsTraced(a: Agent, now: int, room: nat, since: int, j: nat) returns (since': int, j': nat)
    requires Traced(a, a.config, now, since, j)
    ensures Traced(Pumped(a, now, room), a.config, now, since', j')
  {
    hide Accounted, PumpedFrom;
    since', j' := since, j;
    if !a.link.pumpTimer && a.link.connected && a.link.pausedUntil <= now {
      since', j' := RefilledIsAccounted(a.config, a.bucket, now, since, j);
      PumpedFromIsAccounted(a.(bucket := Refilled(a.config, a.bucket, now)), now, room, since', j');
    }
  }

  lemma AnswerIsTraced(a: Agent, key: Key, e: Event, now: int, room: nat, since: int, j: nat) returns (since': int, j': nat)
    requires Traced(a, a.config, now, since, j) && (e == Ack(key) || (e.SendError? && e.key == key))
    ensures Traced(Apply(a, e, now, room), a.config, now, since', j')
  {
    hide Accounted, Pumped;
    var s := a.sends;
    since', j' := since, j;
    var i := KeyIndex(s.inflight, key);
    if a.link.socket && i < |s.inflight| {
      var t :=
        if e.Ack? then FlightSettled(s, i, Acked(key))
        else if Retried(s.inflight[i], e.retryable, e.code) then FlightDelayed(s, i)
        else FlightSettled(s, i, Rejected);
      since', j' := PumpedIsTraced(a.(sends := t), now, room, since, j);
    }
  }

  lemma EventIsTraced(a: Agent, e: Event, now: int, room: nat, since: int, j: nat) returns (since': int, j': nat)
    requires Traced(a, a.config, now, since, j)
    ensures Traced(Apply(a, e, now, room), a.config, now, since', j')
  {
    hide Accounted, Pumped, QueueSwept, FlightSwept, AllRejected, Resent, Accepted, ApplyAck, ApplySendError;
    var s := a.sends;
    since', j' := since, j;
    match e
    case Enqueue(key, transient, isSync) =>
      if a.link.running && (transient && !isSync ==> a.link.connected) {
        since', j' := PumpedIsTraced(a.(sends := Accepted(s, Request(key, transient, now), a.config.sendTimeoutMs)), now, room, since, j);
      }
    case PumpTimer =>
      if a.link.pumpTimer {
        since', j' := PumpedIsTraced(a.(link := a.link.(pumpTimer := false)), now, room, since, j);
      }
    case Welcome =>
      if a.link.socket {
        since', j' := PumpedIsTraced(a.(link := a.link.(connected := true), sends := Resent(s)), now, room, since, j);
      }
    case Ack(key) => since', j' := AnswerIsTraced(a, key, e, now, room, since, j);
    case SendError(key, _, _) => since', j' := AnswerIsTraced(a, key, e, now, room, since, j);
    case RetryTimer(i) =>
      if i < |s.retrying| && a.link.running {
        since', j' := PumpedIsTraced(a.(sends := RetryRequeued(s, i)), now, room, since, j);
      }
    case Tick =>
      var t := QueueSwept(s, |s.queue|, Overdue(now));
      since', j' := PumpedIsTraced(a.(sends := FlightSwept(a.config, a.link.connected, t, 0, now)), now, room, since, j);
    case _ =>
  }

  lemma {:induction false} RunIsTraced(a: Agent, es: seq<Timed>, now: int, since: int, j: nat) returns (since': int, j': nat)
    requires Traced(a, a.config, now, since, j) && Monotone(now, es)
    ensures Accounted(a.config.fps, Run(a, es).bucket, since', j')
    decreases |es|
  {
    hide Apply, Accounted;
    since', j' := since, j;
    if es != [] {
      since', j' := EventIsTraced(a, es[0].event, es[0].now, es[0].room, since, j);
      since', j' := RunIsTraced(Apply(a, es[0].event, es[0].now, es[0].room), es[1..], es[0].now, since', j');
    }
  }

  /**
   * In every run the rate is also used up: since some time at which the bucket was full, the frames
   * written and the tokens left are together exactly fps + fps * ms / 1000, where `ms` is the time to
   * the last look at the bucket. An agent that waits for a token has thus written more than one less.
   */
  lemma PumpUsesItsRate(config: Config, start: int, es: seq<Timed>) returns (since: int, j: nat)
    requires Monotone(start, es)
    ensures var b := Run(Started(config, start), es).bucket;
      && since <= b.tokensAt && j <= |b.wire| && (forall i :: j <= i < |b.wire| ==> since <= b.wire[i].at)
      && (|b.wire| - j) as real + b.tokens == config.fps + config.fps * Seconds(b.tokensAt - since)
  {
    var a := Started(config, start);
    assert Accounted(config.fps, a.bucket, start, 0);
    hide Run, Monotone;
    since, j := RunIsTraced(a, es, start, start, 0);
  }
}
