/** The sends of the agent that are never settled: a run that leads there, and why nothing brings them back. */
module AgentLosses {
  import opened Prefix
  import opened AgentSends
  import opened AgentConservation

  predicate NoneOf(q: seq<Outgoing>, n: nat) {
    forall i :: 0 <= i < |q| ==> q[i].id != n
  }

  /** Send `n` was accepted and waits nowhere. */
  predicate NotWaiting(s: Sends, n: nat) {
    n < |s.accepted| && NoneOf(s.queue, n) && NoneOf(s.inflight, n) && NoneOf(s.retrying, n)
  }

  /** It waits nowhere still, and has been neither settled nor dropped on the way. */
  ghost predicate Untouched(s: Sends, t: Sends, n: nat) {
    NotWaiting(t, n) && Settled(t.settled, n) == Settled(s.settled, n) && Dropped(t.dropped, n) == Dropped(s.dropped, n)
  }

  lemma WithoutHasNone(q: seq<Outgoing>, i: nat, n: nat)
    requires i < |q| && NoneOf(q, n)
    ensures NoneOf(Without(q, i), n)
  {
    var r := Without(q, i);
    forall j | 0 <= j < |r|
      ensures r[j].id != n
    {
      assert r[j] == if j < i then q[j] else q[j + 1];
    }
  }

  lemma {:induction false} HeldNone(q: seq<Outgoing>, n: nat)
    ensures Held(q, n) == 0 <==> NoneOf(q, n)
  {
    if q != [] {
      HeldNone(q[1..], n);
      assert NoneOf(q, n) <==> q[0].id != n && NoneOf(q[1..], n) by {
        assert q == [q[0]] + q[1..];
      }
    }
  }

  // ---------------------------------------------------------------------
  // One send moves
  // ---------------------------------------------------------------------

  lemma WrittenLeaves(s: Sends, now: int, n: nat)
    requires NotWaiting(s, n) && s.queue != []
    ensures Untouched(s, Written(s, now), n)
  {
    hide Put, Settled;
    var e := s.queue[0].(attempts := s.queue[0].attempts + 1, sentAt := now);
    if e.key.None? {
      SettledLast(s.settled, Settlement(e.id, Unanswered), n);
    } else {
      PutHasNone(s.inflight, e, n);
    }
  }

  lemma PutHasNone(q: seq<Outgoing>, e: Outgoing, n: nat)
    requires NoneOf(q, n) && e.key.Some? && e.id != n
    ensures NoneOf(Put(q, e), n)
  {
    hide KeyIndex;
  }

  lemma QueueSettledLeaves(s: Sends, i: nat, how: How, n: nat)
    requires NotWaiting(s, n) && i < |s.queue|
    ensures Untouched(s, QueueSettled(s, i, how), n)
  {
    WithoutHasNone(s.queue, i, n);
    SettledLast(s.settled, Settlement(s.queue[i].id, how), n);
  }

  lemma FlightSettledLeaves(s: Sends, i: nat, how: How, n: nat)
    requires NotWaiting(s, n) && i < |s.inflight|
    ensures Untouched(s, FlightSettled(s, i, how), n)
  {
    WithoutHasNone(s.inflight, i, n);
    SettledLast(s.settled, Settlement(s.inflight[i].id, how), n);
  }

  lemma FlightMovedLeaves(s: Sends, i: nat, n: nat)
    requires NotWaiting(s, n) && i < |s.inflight|
    ensures Untouched(s, FlightRequeued(s, i), n) && Untouched(s, FlightDelayed(s, i), n)
  {
    WithoutHasNone(s.inflight, i, n);
  }

  lemma RetryLeaves(s: Sends, i: nat, n: nat)
    requires NotWaiting(s, n) && i < |s.retrying|
    ensures Untouched(s, RetryRequeued(s, i), n) && Untouched(s, RetryDropped(s, i), n)
  {
    WithoutHasNone(s.retrying, i, n);
    DroppedLast(s.dropped, s.retrying[i].id, n);
  }

  lemma ResentLeaves(s: Sends, n: nat)
    requires NotWaiting(s, n)
    ensures Untouched(s, Resent(s), n)
  {
    BySentAtCounts(s.inflight, n, Key("", ""));
    HeldNone(s.inflight, n);
    HeldNone(BySentAt(s.inflight), n);
  }

  // ---------------------------------------------------------------------
  // Several move
  // ---------------------------------------------------------------------

  lemma {:induction false} QueueSweptLeaves(s: Sends, i: nat, sweep: Sweep, n: nat)
    requires NotWaiting(s, n) && i <= |s.queue|
    ensures Untouched(s, QueueSwept(s, i, sweep), n)
    decreases i
  {
    hide NotWaiting;
    if i > 0 {
      var t := if Leaves(sweep, s.queue[i - 1]) then QueueSettled(s, i - 1, Outcome(sweep)) else s;
      QueueSettledLeaves(s, i - 1, Outcome(sweep), n);
      QueueSweptLeaves(t, i - 1, sweep, n);
    }
  }

  lemma {:induction false} FlightSweptLeaves(c: Config, connected: bool, s: Sends, i: nat, now: int, n: nat)
    requires NotWaiting(s, n) && i <= |s.inflight|
    ensures Untouched(s, FlightSwept(c, connected, s, i, now), n)
    decreases |s.inflight| - i
  {
    hide NotWaiting;
    if i < |s.inflight| {
      FlightSettledLeaves(s, i, Rejected, n);
      FlightMovedLeaves(s, i, n);
      if s.inflight[i].deadline < now {
        FlightSweptLeaves(c, connected, FlightSettled(s, i, Rejected), i, now, n);
      } else if AckLate(c, connected, s.inflight[i], now) {
        FlightSweptLeaves(c, connected, FlightRequeued(s, i), i, now, n);
      } else {
        FlightSweptLeaves(c, connected, s, i + 1, now, n);
      }
    }
  }

  lemma {:induction false} AllRejectedLeaves(s: Sends, n: nat)
    requires NotWaiting(s, n)
    ensures Untouched(s, AllRejected(s), n)
    decreases |s.queue| + |s.inflight|
  {
    hide NotWaiting;
    if s.queue != [] {
      QueueSettledLeaves(s, 0, Rejected, n);
      AllRejectedLeaves(QueueSettled(s, 0, Rejected), n);
    } else if s.inflight != [] {
      FlightSettledLeaves(s, 0, Rejected, n);
      AllRejectedLeaves(FlightSettled(s, 0, Rejected), n);
    }
  }

  lemma {:induction false} PumpedFromLeaves(a: Agent, now: int, room: nat, n: nat)
    requires NotWaiting(a.sends, n)
    ensures Untouched(a.sends, PumpedFrom(a, now, room).sends, n)
    decreases |a.sends.queue|
  {
    hide NotWaiting, Written, Settled, Dropped;
    var s := a.sends;
    if s.queue != [] && !(s.queue[0].key.Some? && |s.inflight| >= a.config.maxInFlight) && a.bucket.tokens >= 1.0 && room > 0 {
      WrittenLeaves(s, now, n);
      WrittenShortens(s, now);
      PumpedFromLeaves(a.(sends := Written(s, now), bucket := Spent(a.bucket, s.queue[0].id, now)), now, room - 1, n);
    }
  }

  lemma WrittenShortens(s: Sends, now: int)
    requires s.queue != []
    ensures |Written(s, now).queue| == |s.queue| - 1
  {
  }

  /** The pump, after something has moved. */
  lemma PumpedLeaves(a: Agent, s: Sends, now: int, room: nat, n: nat)
    requires Untouched(s, a.sends, n)
    ensures Untouched(s, Pumped(a, now, room).sends, n)
  {
    hide NotWaiting, PumpedFrom, Settled, Dropped;
    PumpedFromLeaves(a, now, room, n);
    PumpedFromLeaves(a.(bucket := Refilled(a.config, a.bucket, now)), now, room, n);
  }

  // ---------------------------------------------------------------------
  // Every event
  // ---------------------------------------------------------------------

  lemma AnswerLeaves(a: Agent, key: Key, retryable: bool, code: string, now: int, room: nat, n: nat)
    requires NotWaiting(a.sends, n)
    ensures Untouched(a.sends, ApplyAck(a, key, now, room).sends, n)
    ensures Untouched(a.sends, ApplySendError(a, key, retryable, code, now, room).sends, n)
  {
    hide NotWaiting, Pumped, Settled, Dropped;
    var i := KeyIndex(a.sends.inflight, key);
    if i < |a.sends.inflight| {
      FlightSettledLeaves(a.sends, i, Acked(key), n);
      FlightSettledLeaves(a.sends, i, Rejected, n);
      FlightMovedLeaves(a.sends, i, n);
      PumpedLeaves(a.(sends := FlightSettled(a.sends, i, Acked(key))), a.sends, now, room, n);
      PumpedLeaves(a.(sends := FlightSettled(a.sends, i, Rejected)), a.sends, now, room, n);
      PumpedLeaves(a.(sends := FlightDelayed(a.sends, i)), a.sends, now, room, n);
    }
  }

  lemma AcceptedLeaves(s: Sends, r: Request, timeoutMs: int, n: nat)
    requires NotWaiting(s, n)
    ensures Untouched(s, Accepted(s, r, timeoutMs), n)
  {
  }

  lemma EventLeaves(a: Agent, e: Event, now: int, room: nat, n: nat)
    requires NotWaiting(a.sends, n)
    ensures Untouched(a.sends, Apply(a, e, now, room).sends, n)
  {
    hide NotWaiting, Pumped, QueueSwept, FlightSwept, AllRejected, Settled, Dropped, ApplyAck, ApplySendError;
    var s := a.sends;
    match e
    case Enqueue(key, transient, _) =>
      AcceptedLeaves(s, Request(key, transient, now), a.config.sendTimeoutMs, n);
      PumpedLeaves(a.(sends := Accepted(s, Request(key, transient, now), a.config.sendTimeoutMs)), s, now, room, n);
    case PumpTimer => PumpedLeaves(a.(link := a.link.(pumpTimer := false)), s, now, room, n);
    case Welcome =>
      ResentLeaves(s, n);
      PumpedLeaves(a.(link := a.link.(connected := true), sends := Resent(s)), s, now, room, n);
    case Ack(key) => AnswerLeaves(a, key, false, "", now, room, n);
    case SendError(key, retryable, code) => AnswerLeaves(a, key, retryable, code, now, room, n);
    case RetryTimer(i) =>
      if i < |s.retrying| {
        RetryLeaves(s, i, n);
        PumpedLeaves(a.(sends := RetryRequeued(s, i)), s, now, room, n);
      }
    case Tick =>
      var t := QueueSwept(s, |s.queue|, Overdue(now));
      QueueSweptLeaves(s, |s.queue|, Overdue(now), n);
      FlightSweptLeaves(a.config, a.link.connected, t, 0, now, n);
      PumpedLeaves(a.(sends := FlightSwept(a.config, a.link.connected, t, 0, now)), s, now, room, n);
    case Close(_) =>
      var t := QueueSwept(s, |s.queue|, Transient);
      QueueSweptLeaves(s, |s.queue|, Transient, n);
      AllRejectedLeaves(t, n);
    case Stop => AllRejectedLeaves(s, n);
    case _ =>
  }

  /**
   * An accepted send that is in no queue, window or retry timer is out of reach: no run settles it,
   * or moves it anywhere, whatever keys are reused.
   */
  lemma {:induction false} OutOfReach(a: Agent, es: seq<Timed>, n: nat)
    requires NotWaiting(a.sends, n)
    ensures Untouched(a.sends, Run(a, es).sends, n) && Places(Run(a, es).sends, n) == Places(a.sends, n)
    decreases |es|
  {
    hide NotWaiting, Apply, Settled, Dropped;
    PlacesOfNotWaiting(a.sends, n);
    if es != [] {
      EventLeaves(a, es[0].event, es[0].now, es[0].room, n);
      OutOfReach(Apply(a, es[0].event, es[0].now, es[0].room), es[1..], n);
      PlacesOfNotWaiting(Run(a, es).sends, n);
    }
  }

  lemma PlacesOfNotWaiting(s: Sends, n: nat)
    requires NotWaiting(s, n)
    ensures Places(s, n) == Settled(s.settled, n) + Dropped(s.dropped, n)
  {
    HeldNone(s.queue, n);
    HeldNone(s.inflight, n);
    HeldNone(s.retrying, n);
  }

  lemma PlacesZero(s: Sends, n: nat)
    requires Places(s, n) == 0 && n < |s.accepted|
    ensures NotWaiting(s, n)
  {
    HeldNone(s.queue, n);
    HeldNone(s.inflight, n);
    HeldNone(s.retrying, n);
  }

  /** What is nowhere stays nowhere. */
  lemma LostStaysLost(a: Agent, es: seq<Timed>, n: nat)
    requires Places(a.sends, n) == 0 && n < |a.sends.accepted|
    ensures Places(Run(a, es).sends, n) == 0
  {
    hide Places;
    PlacesZero(a.sends, n);
    OutOfReach(a, es, n);
  }

  // ---------------------------------------------------------------------
  // Two runs
  // ---------------------------------------------------------------------

  function Message(key: Key): Event {
    Enqueue(Some(key), false, false)
  }

  /** A socket is opened and welcomed, and one message is sent over it. */
  function SendOne(key: Key, now: int): seq<Timed> {
    [Timed(Connect, now, 0), Timed(Welcome, now, 0), Timed(Message(key), now, 1)]
  }

  function Asked(key: Key, now: int): Request {
    Request(Some(key), false, now)
  }

  function Flying(config: Config, n: nat, key: Key, now: int): Outgoing {
    Outgoing(n, Some(key), false, now + config.sendTimeoutMs, now, 1)
  }

  /** The agent after that: the message is in the window, and the bucket has a token less. */
  function OneInFlight(config: Config, key: Key, now: int): Agent {
    Agent(config, Link(true, true, true, false, 0), Bucket(config.fps - 1.0, now, [Write(0, now)]),
          Sends([], [Flying(config, 0, key, now)], [], [], [], [Asked(key, now)]))
  }

  lemma {:induction false} RunOn(a: Agent, es: seq<Timed>, more: seq<Timed>)
    ensures Run(a, es + more) == Run(Run(a, es), more)
    decreases |es|
  {
    hide Apply;
    if es == [] {
      assert es + more == more;
    } else {
      assert (es + more)[1..] == es[1..] + more;
      RunOn(Apply(a, es[0].event, es[0].now, es[0].room), es[1..], more);
    }
  }

  lemma Welcomed(config: Config, now: int)
    requires now >= 0
    ensures var a := Apply(Apply(Started(config, now), Connect, now, 0), Welcome, now, 0);
      a == Started(config, now).(link := Link(true, true, true, false, 0))
  {
    assert Seconds(0) * config.fps == 0.0;
    assert BySentAt([]) + [] == [];
  }

  lemma SendOneRun(config: Config, key: Key, now: int)
    requires config.maxInFlight >= 1 && config.fps >= 1.0 && now >= 0
    ensures Run(Started(config, now), SendOne(key, now)) == OneInFlight(config, key, now)
  {
    var es, a0 := SendOne(key, now), Started(config, now);
    Welcomed(config, now);
    var a1 := Apply(a0, Connect, now, 0);
    var a2 := Apply(a1, Welcome, now, 0);
    FirstIsWritten(config, key, now);
    hide Apply;
    assert es[1..][1..] == [es[2]] && [es[2]][1..] == [];
    assert Run(a2, [es[2]]) == Run(Apply(a2, Message(key), now, 1), []);
    assert Run(a1, es[1..]) == Run(a2, [es[2]]);
    assert Run(a0, es) == Run(a1, es[1..]);
  }

  lemma PumpsOne(a: Agent, now: int)
    requires a.link.connected && !a.link.pumpTimer && now >= a.link.pausedUntil
    requires |a.sends.queue| == 1 && |a.sends.inflight| < a.config.maxInFlight
    requires 1.0 <= a.bucket.tokens <= a.config.fps && a.bucket.tokensAt == now
    ensures Pumped(a, now, 1) == a.(sends := Written(a.sends, now), bucket := Spent(a.bucket, a.sends.queue[0].id, now))
  {
    assert Seconds(0) * a.config.fps == 0.0;
    assert Refilled(a.config, a.bucket, now) == a.bucket;
    hide Written, Spent;
    var b := a.(sends := Written(a.sends, now), bucket := Spent(a.bucket, a.sends.queue[0].id, now));
    WrittenShortens(a.sends, now);
    assert PumpedFrom(b, now, 0) == b;
  }

  lemma FirstIsWritten(config: Config, key: Key, now: int)
    requires config.maxInFlight >= 1 && config.fps >= 1.0 && now >= 0
    ensures Apply(Started(config, now).(link := Link(true, true, true, false, 0)), Message(key), now, 1) == OneInFlight(config, key, now)
  {
    hide Pumped;
    var a := Started(config, now).(link := Link(true, true, true, false, 0));
    var b := a.(sends := Accepted(a.sends, Request(Some(key), false, now), config.sendTimeoutMs));
    var e := Flying(config, 0, key, now);
    assert b.sends.queue == [Outgoing(0, Some(key), false, now + config.sendTimeoutMs, 0, 0)] && b.sends.accepted == [Asked(key, now)];
    PumpsOne(b, now);
    assert Put([], e) == [e] && b.sends.queue[1..] == [];
    assert [] + [Write(0, now)] == [Write(0, now)];
  }

  lemma SecondReplaces(config: Config, key: Key, now: int)
    requires config.maxInFlight >= 2 && config.fps >= 2.0 && now >= 0
    ensures Apply(OneInFlight(config, key, now), Message(key), now, 1).sends
      == Sends([], [Flying(config, 1, key, now)], [], [], [], [Asked(key, now), Asked(key, now)])
  {
    hide Pumped;
    var a := OneInFlight(config, key, now);
    var b := a.(sends := Accepted(a.sends, Request(Some(key), false, now), config.sendTimeoutMs));
    var d, e := Flying(config, 0, key, now), Flying(config, 1, key, now);
    assert b.sends.queue == [Outgoing(1, Some(key), false, now + config.sendTimeoutMs, 0, 0)];
    assert b.sends.accepted == [Asked(key, now), Asked(key, now)];
    PumpsOne(b, now);
    assert KeyIndex([d], key) == 0 && [d][0 := e] == [e] && b.sends.queue[1..] == [];
  }

  /**
   * A second message under the key of one that is in flight: as soon as both are written, the first
   * is in no place, and no further run ever settles it.
   */
  lemma ReusedKeyLosesSend(config: Config, key: Key, now: int, after: seq<Timed>)
    requires config.maxInFlight >= 2 && config.fps >= 2.0 && now >= 0
    ensures var a := Run(Started(config, now), SendOne(key, now) + [Timed(Message(key), now, 1)]);
      && |a.sends.accepted| == 2 && Places(a.sends, 0) == 0 && Places(Run(a, after).sends, 0) == 0
  {
    var es, last := SendOne(key, now), [Timed(Message(key), now, 1)];
    RunOn(Started(config, now), es, last);
    SendOneRun(config, key, now);
    SecondReplaces(config, key, now);
    var b := OneInFlight(config, key, now);
    var a := Apply(b, Message(key), now, 1);
    hide Apply;
    assert Run(b, last) == Run(a, []);
    assert Held(a.sends.inflight, 0) == 0 by {
      HeldNone(a.sends.inflight, 0);
    }
    LostStaysLost(a, after, 0);
  }

  /** The error that lets a send be retried, the stop of the agent, and the timer of the retry. */
  function FailAndStop(key: Key, now: int): seq<Timed> {
    [Timed(SendError(key, true, "rate_limited"), now, 0), Timed(Stop, now, 0), Timed(RetryTimer(0), now, 0)]
  }

  lemma FailAndStopRun(config: Config, key: Key, now: int)
    requires config.maxInFlight >= 1 && config.fps >= 1.0 && now >= 0
    ensures Run(OneInFlight(config, key, now), FailAndStop(key, now)).sends == Sends([], [], [], [], [0], [Asked(key, now)])
  {
    var es, a0, e := FailAndStop(key, now), OneInFlight(config, key, now), Flying(config, 0, key, now);
    assert Without([e], 0) == [] && [] + [e] == [e] && [] + [0] == [0];
    assert KeyIndex([e], key) == 0 && Retried(e, true, "rate_limited");
    var a1 := Apply(a0, es[0].event, now, 0);
    assert a1.sends == Sends([], [], [e], [], [], [Asked(key, now)]) && a1.link.running;
    var a2 := Apply(a1, Stop, now, 0);
    assert a2.sends == a1.sends && !a2.link.running;
    var a3 := Apply(a2, RetryTimer(0), now, 0);
    assert a3.sends == Sends([], [], [], [], [0], [Asked(key, now)]);
    hide Apply;
    assert es[1..][1..] == [es[2]] && [es[2]][1..] == [];
    assert Run(a2, [es[2]]) == Run(a3, []);
    assert Run(a1, es[1..]) == Run(a2, [es[2]]);
    assert Run(a0, es) == Run(a1, es[1..]);
  }

  /** An agent that stops while a send waits for its retry timer never settles that send. */
  lemma StopLeavesRetryUnsettled(config: Config, key: Key, now: int, after: seq<Timed>)
    requires config.maxInFlight >= 1 && config.fps >= 1.0 && now >= 0
    ensures var a := Run(Started(config, now), SendOne(key, now) + FailAndStop(key, now));
      |a.sends.accepted| == 1 && Settled(a.sends.settled, 0) == 0 && Settled(Run(a, after).sends.settled, 0) == 0
  {
    RunOn(Started(config, now), SendOne(key, now), FailAndStop(key, now));
    SendOneRun(config, key, now);
    FailAndStopRun(config, key, now);
    var a := Run(OneInFlight(config, key, now), FailAndStop(key, now));
    OutOfReach(a, after, 0);
  }
}
