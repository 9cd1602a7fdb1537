/** What each event means for the sends of the agent: which are taken, written and settled, and when the pump rests. */
module AgentEvents {
  import opened Prefix
  import opened AgentSends
  import opened AgentConservation

  // ---------------------------------------------------------------------
  // The pump
  // ---------------------------------------------------------------------

  function Writes(q: seq<Outgoing>, now: int): seq<Write> {
    seq(|q|, i requires 0 <= i < |q| => Write(q[i].id, now))
  }

  function Each(q: seq<Outgoing>, how: How): seq<Settlement> {
    seq(|q|, i requires 0 <= i < |q| => Settlement(q[i].id, how))
  }

  /** The sends for which no ack comes. */
  function Keyless(q: seq<Outgoing>): seq<Outgoing> {
    if q == [] then []
    else if q[0].key.None? then [q[0]] + Keyless(q[1..])
    else Keyless(q[1..])
  }

  /** The first `k` sends of the line were written, in order; of them only those without a key are settled. */
  ghost predicate WentOut(line: seq<Outgoing>, settled: seq<Settlement>, wire: seq<Write>, b: Agent, now: int, k: nat) {
    && k <= |line| && b.sends.queue == line[k..]
    && b.bucket.wire == wire + Writes(line[..k], now)
    && b.sends.settled == settled + Each(Keyless(line[..k]), Unanswered)
  }

  /** Why the pump stops while there is something to write and the socket takes it. */
  ghost predicate Rests(b: Agent) {
    b.link.pumpTimer || b.sends.queue == [] || (b.sends.queue[0].key.Some? && |b.sends.inflight| >= b.config.maxInFlight)
  }

  lemma OneMoreOut(line: seq<Outgoing>, settled: seq<Settlement>, wire: seq<Write>, b: Agent, now: int, k: nat)
    requires line != []
    requires WentOut(line[1..], settled + Each(Keyless([line[0]]), Unanswered), wire + [Write(line[0].id, now)], b, now, k)
    ensures WentOut(line, settled, wire, b, now, k + 1)
  {
    assert line[..k + 1][1..] == line[1..][..k];
    assert Writes(line[..k + 1], now) == [Write(line[0].id, now)] + Writes(line[1..][..k], now);
    assert wire + Writes(line[..k + 1], now) == wire + [Write(line[0].id, now)] + Writes(line[1..][..k], now);
    assert Keyless(line[..k + 1]) == Keyless([line[0]]) + Keyless(line[1..][..k]);
    assert Each(Keyless(line[..k + 1]), Unanswered) == Each(Keyless([line[0]]), Unanswered) + Each(Keyless(line[1..][..k]), Unanswered);
  }

  lemma WrittenSettles(s: Sends, now: int)
    requires s.queue != []
    ensures var t := Written(s, now);
      && t.queue == s.queue[1..] && t.settled == s.settled + Each(Keyless([s.queue[0]]), Unanswered)
      && t.retrying == s.retrying && t.dropped == s.dropped && t.accepted == s.accepted
  {
    assert [s.queue[0]][1..] == [];
  }

  /** What the pump leaves alone. */
  ghost predicate SameBut(a: Agent, b: Agent) {
    && b.config == a.config && b.sends.retrying == a.sends.retrying && b.sends.dropped == a.sends.dropped
    && b.sends.accepted == a.sends.accepted && b.link == a.link.(pumpTimer := b.link.pumpTimer)
  }

  lemma {:induction false} PumpedFromWrites(a: Agent, now: int, room: nat) returns (k: nat)
    ensures var b := PumpedFrom(a, now, room);
      && k <= room && WentOut(a.sends.queue, a.sends.settled, a.bucket.wire, b, now, k) && SameBut(a, b)
      && (k < room ==> Rests(b)) && (b.link.pumpTimer ==> a.link.pumpTimer || b.bucket.tokens < 1.0)
      && b.bucket.tokensAt == a.bucket.tokensAt && b.bucket.tokens == a.bucket.tokens - k as real
    decreases |a.sends.queue|
  {
    var s := a.sends;
    if s.queue != [] && !(s.queue[0].key.Some? && |s.inflight| >= a.config.maxInFlight) && a.bucket.tokens >= 1.0 && room > 0 {
      WrittenSettles(s, now);
      hide Written, WentOut;
      var next := a.(sends := Written(s, now), bucket := Spent(a.bucket, s.queue[0].id, now));
      var j := PumpedFromWrites(next, now, room - 1);
      OneMoreOut(s.queue, s.settled, a.bucket.wire, PumpedFrom(next, now, room - 1), now, j);
      k := j + 1;
    } else {
      NothingOut(a, now);
      k := 0;
    }
  }

  lemma NothingOut(a: Agent, now: int)
    ensures WentOut(a.sends.queue, a.sends.settled, a.bucket.wire, a, now, 0)
    ensures var b := a.(link := a.link.(pumpTimer := true)); WentOut(a.sends.queue, a.sends.settled, a.bucket.wire, b, now, 0)
  {
    assert Writes(a.sends.queue[..0], now) == [] && Keyless(a.sends.queue[..0]) == [] && Each([], Unanswered) == [];
  }

  /**
   * The pump of an agent that can write sends the head of the queue, in order, while the socket takes
   * it, and rests only for the reasons above; otherwise it writes nothing. A timer is set only in a
   * pause or for want of a token.
   */
  ghost predicate Pumps(a: Agent, b: Agent, now: int, room: nat, k: nat) {
    && k <= room && SameBut(a, b) && (k > 0 ==> a.link.connected && a.link.pausedUntil <= now)
    && (a.link.connected && k < room ==> Rests(b))
    && (b.link.pumpTimer && !a.link.pumpTimer ==> now < a.link.pausedUntil || (b.bucket.tokens < 1.0 && b.bucket.tokensAt == now))
    && (a.link.pumpTimer ==> b.link.pumpTimer)
  }

  lemma PumpWrites(a: Agent, now: int, room: nat) returns (k: nat)
    ensures var b := Pumped(a, now, room);
      WentOut(a.sends.queue, a.sends.settled, a.bucket.wire, b, now, k) && Pumps(a, b, now, room, k)
  {
    hide PumpedFrom, WentOut;
    if a.link.pumpTimer || !a.link.connected || now < a.link.pausedUntil {
      NothingOut(a, now);
      k := 0;
    } else {
      k := PumpedFromWrites(a.(bucket := Refilled(a.config, a.bucket, now)), now, room);
    }
  }

  // ---------------------------------------------------------------------
  // What the sweeps settle
  // ---------------------------------------------------------------------

  /** The sends that leave, the last one first. */
  function Backwards(q: seq<Outgoing>, sweep: Sweep): seq<Outgoing> {
    if q == [] then []
    else
      var (last, front) := (q[|q| - 1], Backwards(q[..|q| - 1], sweep));
      if (match sweep case Overdue(now) => last.deadline < now case Transient => last.transient) then [last] + front else front
  }

  lemma EachAppends(p: seq<Outgoing>, q: seq<Outgoing>, how: How)
    ensures Each(p + q, how) == Each(p, how) + Each(q, how)
  {
  }

  lemma {:induction false} QueueSweptSettles(s: Sends, i: nat, sweep: Sweep)
    requires i <= |s.queue|
    ensures var t := QueueSwept(s, i, sweep);
      && t.settled == s.settled + Each(Backwards(s.queue[..i], sweep), if sweep.Transient? then Unanswered else Rejected)
      && t.inflight == s.inflight && t.retrying == s.retrying && t.dropped == s.dropped && t.accepted == s.accepted
    decreases i
  {
    if i == 0 {
      assert Each(Backwards(s.queue[..0], sweep), Outcome(sweep)) == [];
    } else {
      var e, front := s.queue[i - 1], s.queue[..i - 1];
      assert s.queue[..i] == front + [e] && (front + [e])[..i - 1] == front;
      var t := if Leaves(sweep, e) then QueueSettled(s, i - 1, Outcome(sweep)) else s;
      assert t.queue[..i - 1] == front;
      QueueSweptSettles(t, i - 1, sweep);
      EachAppends([e], Backwards(front, sweep), Outcome(sweep));
      assert Each([e], Outcome(sweep)) == [Settlement(e.id, Outcome(sweep))];
    }
  }

  /** The sends that are past their deadline. */
  function Expired(q: seq<Outgoing>, now: int): seq<Outgoing> {
    if q == [] then []
    else if q[0].deadline < now then [q[0]] + Expired(q[1..], now)
    else Expired(q[1..], now)
  }

  lemma {:induction false} FlightSweptSettles(c: Config, connected: bool, s: Sends, i: nat, now: int)
    requires i <= |s.inflight|
    ensures var t := FlightSwept(c, connected, s, i, now);
      && t.settled == s.settled + Each(Expired(s.inflight[i..], now), Rejected)
      && t.retrying == s.retrying && t.dropped == s.dropped && t.accepted == s.accepted
    decreases |s.inflight| - i
  {
    if i == |s.inflight| {
      assert Each(Expired(s.inflight[i..], now), Rejected) == [];
    } else {
      var e, tail := s.inflight[i], s.inflight[i..];
      assert tail[0] == e && tail[1..] == s.inflight[i + 1..];
      if e.deadline < now {
        var t := FlightSettled(s, i, Rejected);
        assert t.inflight[i..] == tail[1..];
        FlightSweptSettles(c, connected, t, i, now);
        EachAppends([e], Expired(tail[1..], now), Rejected);
        assert Each([e], Rejected) == [Settlement(e.id, Rejected)];
      } else if AckLate(c, connected, e, now) {
        var t := FlightRequeued(s, i);
        assert t.inflight[i..] == tail[1..];
        FlightSweptSettles(c, connected, t, i, now);
      } else {
        FlightSweptSettles(c, connected, s, i + 1, now);
      }
    }
  }

  lemma {:induction false} AllRejectedSettles(s: Sends)
    ensures var t := AllRejected(s);
      && t.settled == s.settled + Each(s.queue + s.inflight, Rejected)
      && t.queue == [] && t.inflight == [] && t.retrying == s.retrying && t.dropped == s.dropped && t.accepted == s.accepted
    decreases |s.queue| + |s.inflight|
  {
    hide Each, Without;
    if s.queue != [] {
      WithoutFirst(s.queue);
      AllRejectedSettles(QueueSettled(s, 0, Rejected));
      OneLess(s.queue, s.inflight);
      AppendOne(s.settled, Settlement(s.queue[0].id, Rejected), Each(Without(s.queue, 0) + s.inflight, Rejected));
    } else if s.inflight != [] {
      WithoutFirst(s.inflight);
      AllRejectedSettles(FlightSettled(s, 0, Rejected));
      OneLess(s.inflight, []);
      NoQueue(s.inflight);
      NoQueue(Without(s.inflight, 0));
      AppendOne(s.settled, Settlement(s.inflight[0].id, Rejected), Each(Without(s.inflight, 0), Rejected));
    } else {
      NoQueue([]);
      EachOfNone(s.settled);
    }
  }

  lemma WithoutFirst(q: seq<Outgoing>)
    requires q != []
    ensures |Without(q, 0)| < |q|
  {
  }

  lemma NoQueue(q: seq<Outgoing>)
    ensures [] + q == q && q + [] == q
  {
  }

  lemma EachOfNone(settled: seq<Settlement>)
    ensures settled + Each([], Rejected) == settled
  {
  }

  lemma OneLess(q: seq<Outgoing>, rest: seq<Outgoing>)
    requires q != []
    ensures Each(q + rest, Rejected) == [Settlement(q[0].id, Rejected)] + Each(Without(q, 0) + rest, Rejected)
  {
    assert q + rest == [q[0]] + (Without(q, 0) + rest);
    EachAppends([q[0]], Without(q, 0) + rest, Rejected);
  }

  // ---------------------------------------------------------------------
  // Where the agent stands
  // ---------------------------------------------------------------------

  /** What the events so far made of the agent. */
  datatype Standing = Ended | Offline | Dialled | Online

  function Next(at: Standing, e: Event): Standing {
    match at
    case Ended => Ended
    case Offline => if e.Connect? then Dialled else if e.Stop? || e.GiveUp? then Ended else Offline
    case _ =>
      if e.Stop? then Ended
      else if e.Close? then if e.fatal then Ended else Offline
      else if e.Welcome? then Online
      else at
  }

  function Stands(es: seq<Timed>): Standing {
    if es == [] then Offline else Next(Stands(es[..|es| - 1]), es[|es| - 1].event)
  }

  /** Until when the server asked for a pause. */
  function Pause(es: seq<Timed>): int {
    if es == [] then 0
    else
      var (front, e) := (es[..|es| - 1], es[|es| - 1].event);
      if e.Paused? && (Stands(front).Dialled? || Stands(front).Online?) then e.until else Pause(front)
  }

  /** What was asked of the agent while it took it: transient frames, but for syncs, only while connected. */
  function Requests(es: seq<Timed>): seq<Request> {
    if es == [] then []
    else
      var (front, t) := (es[..|es| - 1], es[|es| - 1]);
      if t.event.Enqueue? && !Stands(front).Ended? && (t.event.transient && !t.event.isSync ==> Stands(front).Online?) then
        Requests(front) + [Request(t.event.sendKey, t.event.transient, t.now)]
      else Requests(front)
  }

  predicate IsAt(l: Link, at: Standing) {
    match at
    case Ended => !l.running && !l.socket && !l.connected
    case Offline => l.running && !l.socket && !l.connected
    case Dialled => l.running && l.socket && !l.connected
    case Online => l.running && l.socket && l.connected
  }

  // ---------------------------------------------------------------------
  // One event
  // ---------------------------------------------------------------------

  /** The sends in the order in which they go out after an event. */
  function Line(a: Agent, e: Event, now: int): seq<Outgoing> {
    var s := a.sends;
    match e
    case Enqueue(key, transient, isSync) =>
      if a.link.running && (transient && !isSync ==> a.link.connected) then
        s.queue + [Outgoing(|s.accepted|, key, transient, now + a.config.sendTimeoutMs, 0, 0)]
      else s.queue
    case Welcome => if a.link.socket then BySentAt(s.inflight) + s.queue else s.queue
    case RetryTimer(i) => if i < |s.retrying| && a.link.running then [s.retrying[i]] + s.queue else s.queue
    case Tick => LateOnes(a.config, a.link.connected, s.inflight, now) + Staying(s.queue, Overdue(now))
    case Close(fatal) => if !a.link.socket then s.queue else if a.link.running && fatal then [] else Staying(s.queue, Transient)
    case Stop => if a.link.running then [] else s.queue
    case _ => s.queue
  }

  /** What an event settles itself, before anything goes out. */
  function Answers(a: Agent, e: Event, now: int): seq<Settlement> {
    var s := a.sends;
    match e
    case Ack(key) =>
      var i := KeyIndex(s.inflight, key);
      if a.link.socket && i < |s.inflight| then [Settlement(s.inflight[i].id, Acked(key))] else []
    case SendError(key, retryable, code) =>
      var i := KeyIndex(s.inflight, key);
      if a.link.socket && i < |s.inflight| && !Again(s.inflight[i], retryable, code) then [Settlement(s.inflight[i].id, Rejected)] else []
    case Tick => Each(Backwards(s.queue, Overdue(now)), Rejected) + Each(Expired(s.inflight, now), Rejected)
    case Close(fatal) =>
      if !a.link.socket then []
      else
        Each(Backwards(s.queue, Transient), Unanswered)
        + if a.link.running && fatal then Each(Staying(s.queue, Transient) + s.inflight, Rejected) else []
    case Stop => if a.link.running then Each(s.queue + s.inflight, Rejected) else []
    case _ => []
  }

  predicate Again(e: Outgoing, retryable: bool, code: string) {
    && retryable && e.attempts < 6
    && (code == "rate_limited" || code == "too_many_in_flight" || code == "unavailable" || code == "internal")
  }

  /** The sends that wait for a timer after an event. */
  function Delayed(a: Agent, e: Event): seq<Outgoing> {
    var s := a.sends;
    match e
    case SendError(key, retryable, code) =>
      var i := KeyIndex(s.inflight, key);
      if a.link.socket && i < |s.inflight| && Again(s.inflight[i], retryable, code) then s.retrying + [s.inflight[i]] else s.retrying
    case RetryTimer(i) => if i < |s.retrying| then Without(s.retrying, i) else s.retrying
    case _ => s.retrying
  }

  /** The events after which the agent writes what it can. */
  predicate Stirs(a: Agent, e: Event) {
    match e
    case Enqueue(_, _, _) => |Line(a, e, 0)| > |a.sends.queue|
    case Welcome => a.link.socket
    case Ack(_) => Answers(a, e, 0) != []
    case SendError(_, _, _) => Answers(a, e, 0) != [] || |Delayed(a, e)| > |a.sends.retrying|
    case RetryTimer(i) => i < |a.sends.retrying| && a.link.running
    case PumpTimer => a.link.pumpTimer
    case Tick => true
    case _ => false
  }

  /** `b` is what event `e` makes of agent `a`, with `k` frames written. */
  ghost predicate Becomes(a: Agent, b: Agent, e: Event, now: int, room: nat, k: nat) {
    && WentOut(Line(a, e, now), a.sends.settled + Answers(a, e, now), a.bucket.wire, b, now, k)
    && b.sends.retrying == Delayed(a, e) && b.config == a.config
    && (k > 0 ==> b.link.connected && a.link.pausedUntil <= now && k <= room)
    && (Stirs(a, e) && b.link.connected && k < room ==> Rests(b))
    && (b.link.pumpTimer ==>
        || (a.link.pumpTimer && !e.PumpTimer? && !(e.Stop? && a.link.running))
        || now < a.link.pausedUntil || (b.bucket.tokens < 1.0 && b.bucket.tokensAt == now))
  }

  /** `m` is `a` after everything of the event but what goes out. */
  ghost predicate Ready(a: Agent, m: Agent, e: Event, now: int) {
    && m.sends.queue == Line(a, e, now) && m.sends.settled == a.sends.settled + Answers(a, e, now)
    && m.sends.retrying == Delayed(a, e) && m.config == a.config && m.bucket == a.bucket
    && (m.link.pausedUntil == a.link.pausedUntil || e.Paused?) && (m.link.pumpTimer ==> a.link.pumpTimer && !e.PumpTimer? && !(e.Stop? && a.link.running))
  }

  lemma PumpedBecomes(a: Agent, m: Agent, e: Event, now: int, room: nat) returns (k: nat)
    requires Ready(a, m, e, now) && !e.Paused?
    ensures Becomes(a, Pumped(m, now, room), e, now, room, k)
  {
    hide Line, Answers, Delayed, Stirs, WentOut, Pumped, Rests;
    k := PumpWrites(m, now, room);
  }

  lemma QuietBecomes(a: Agent, m: Agent, e: Event, now: int, room: nat)
    requires Ready(a, m, e, now) && !Stirs(a, e)
    ensures Becomes(a, m, e, now, room, 0)
  {
    hide Line, Answers, Delayed, Stirs, WentOut, Rests;
    NothingOut(m, now);
  }

  lemma NoAnswers(settled: seq<Settlement>)
    ensures settled + [] == settled
  {
  }

  lemma AnswerBecomes(a: Agent, key: Key, retryable: bool, code: string, now: int, room: nat) returns (j: nat, k: nat)
    requires a.link.socket
    ensures Becomes(a, ApplyAck(a, key, now, room), Ack(key), now, room, j)
    ensures Becomes(a, ApplySendError(a, key, retryable, code, now, room), SendError(key, retryable, code), now, room, k)
  {
    hide Becomes, Pumped, Each, Without;
    NoAnswers(a.sends.settled);
    var s, i := a.sends, KeyIndex(a.sends.inflight, key);
    if i < |s.inflight| {
      j := PumpedBecomes(a, a.(sends := FlightSettled(s, i, Acked(key))), Ack(key), now, room);
      var t := if Retried(s.inflight[i], retryable, code) then FlightDelayed(s, i) else FlightSettled(s, i, Rejected);
      k := PumpedBecomes(a, a.(sends := t), SendError(key, retryable, code), now, room);
    } else {
      QuietBecomes(a, a, Ack(key), now, room);
      QuietBecomes(a, a, SendError(key, retryable, code), now, room);
      j, k := 0, 0;
    }
  }

  lemma TickBecomes(a: Agent, now: int, room: nat) returns (k: nat)
    ensures Becomes(a, ApplyTick(a, now, room), Tick, now, room, k)
  {
    hide Becomes, Pumped, Each, QueueSwept, FlightSwept, Staying, LateOnes, Backwards, Expired, OnTime;
    var s := a.sends;
    var t := QueueSwept(s, |s.queue|, Overdue(now));
    QueueSweptSettles(s, |s.queue|, Overdue(now));
    QueueSweptIsFilter(s, |s.queue|, Overdue(now));
    FlightSweptSettles(a.config, a.link.connected, t, 0, now);
    FlightSweptIsFilter(a.config, a.link.connected, t, 0, now);
    assert s.queue[..|s.queue|] == s.queue && t.inflight[0..] == s.inflight;
    assert Staying(s.queue, Overdue(now)) + s.queue[|s.queue|..] == Staying(s.queue, Overdue(now));
    var first, more := Each(Backwards(s.queue, Overdue(now)), Rejected), Each(Expired(s.inflight, now), Rejected);
    assert s.settled + first + more == s.settled + (first + more);
    k := PumpedBecomes(a, a.(sends := FlightSwept(a.config, a.link.connected, t, 0, now)), Tick, now, room);
  }

  lemma CloseBecomes(a: Agent, fatal: bool, now: int, room: nat)
    requires a.link.socket
    ensures Becomes(a, ApplyClose(a, fatal), Close(fatal), now, room, 0)
  {
    hide Becomes, Each, QueueSwept, AllRejected, Staying, Backwards;
    var s := a.sends;
    var t := QueueSwept(s, |s.queue|, Transient);
    QueueSweptSettles(s, |s.queue|, Transient);
    QueueSweptIsFilter(s, |s.queue|, Transient);
    AllRejectedSettles(t);
    assert s.queue[..|s.queue|] == s.queue;
    assert Staying(s.queue, Transient) + s.queue[|s.queue|..] == Staying(s.queue, Transient);
    var first, more := Each(Backwards(s.queue, Transient), Unanswered), Each(Staying(s.queue, Transient) + s.inflight, Rejected);
    assert s.settled + first + more == s.settled + (first + more) && first + [] == first;
    QuietBecomes(a, ApplyClose(a, fatal), Close(fatal), now, room);
  }

  /**
   * What every event means, from any state: the line of sends after it, in its order, of which a first
   * part is written at once; what it settles, and how; and what waits for a retry. Nothing is written
   * without a connection or in a pause; and after an event that makes room or work the agent rests
   * only with nothing to write, with a full window, for want of a token, or in a pause.
   */
  lemma EventMeans(a: Agent, e: Event, now: int, room: nat) returns (k: nat)
    ensures Becomes(a, Apply(a, e, now, room), e, now, room, k)
  {
    hide Becomes, Pumped, Each, QueueSwept, AllRejected, Staying, LateOnes, Backwards, Expired, ApplyTick, ApplyClose, ApplyAck, ApplySendError, BySentAt;
    var s := a.sends;
    NoAnswers(s.settled);
    k := 0;
    match e
    case Enqueue(key, transient, isSync) =>
      if a.link.running && (transient && !isSync ==> a.link.connected) {
        k := PumpedBecomes(a, a.(sends := Accepted(s, Request(key, transient, now), a.config.sendTimeoutMs)), e, now, room);
      } else {
        QuietBecomes(a, a, e, now, room);
      }
    case PumpTimer =>
      if a.link.pumpTimer {
        k := PumpedBecomes(a, a.(link := a.link.(pumpTimer := false)), e, now, room);
      } else {
        QuietBecomes(a, a, e, now, room);
      }
    case Welcome =>
      if a.link.socket {
        k := PumpedBecomes(a, a.(link := a.link.(connected := true), sends := Resent(s)), e, now, room);
      } else {
        QuietBecomes(a, a, e, now, room);
      }
    case Ack(key) =>
      if a.link.socket {
        var j, _ := AnswerBecomes(a, key, false, "", now, room);
        k := j;
      } else {
        QuietBecomes(a, a, e, now, room);
      }
    case SendError(key, retryable, code) =>
      if a.link.socket {
        var _, j := AnswerBecomes(a, key, retryable, code, now, room);
        k := j;
      } else {
        QuietBecomes(a, a, e, now, room);
      }
    case RetryTimer(i) =>
      if i < |s.retrying| && a.link.running {
        k := PumpedBecomes(a, a.(sends := RetryRequeued(s, i)), e, now, room);
      } else {
        QuietBecomes(a, ApplyRetry(a, i, now, room), e, now, room);
      }
    case Tick => k := TickBecomes(a, now, room);
    case Close(fatal) =>
      if a.link.socket {
        CloseBecomes(a, fatal, now, room);
      } else {
        QuietBecomes(a, a, e, now, room);
      }
    case Stop =>
      AllRejectedSettles(s);
      QuietBecomes(a, ApplyStop(a), e, now, room);
    case _ => QuietBecomes(a, Apply(a, e, now, room), e, now, room);
  }

  // ---------------------------------------------------------------------
  // Whole runs
  // ---------------------------------------------------------------------

  lemma {:induction false} RunLast(a: Agent, es: seq<Timed>, t: Timed)
    ensures Run(a, es + [t]) == Apply(Run(a, es), t.event, t.now, t.room)
    decreases |es|
  {
    hide Apply;
    if es == [] {
      assert (es + [t])[1..] == [];
    } else {
      assert (es + [t])[1..] == es[1..] + [t];
      RunLast(Apply(a, es[0].event, es[0].now, es[0].room), es[1..], t);
    }
  }

  lemma PumpedStays(a: Agent, now: int, room: nat)
    ensures var b := Pumped(a, now, room); b.link == a.link.(pumpTimer := b.link.pumpTimer) && b.sends.accepted == a.sends.accepted
  {
    var _ := PumpWrites(a, now, room);
  }

  lemma SweptStays(a: Agent, now: int)
    ensures var s := a.sends;
      && QueueSwept(s, |s.queue|, Transient).accepted == s.accepted && AllRejected(s).accepted == s.accepted
      && AllRejected(QueueSwept(s, |s.queue|, Transient)).accepted == s.accepted
      && FlightSwept(a.config, a.link.connected, QueueSwept(s, |s.queue|, Overdue(now)), 0, now).accepted == s.accepted
  {
    hide Each, Backwards, Expired, QueueSwept, FlightSwept, AllRejected;
    var s := a.sends;
    QueueSweptSettles(s, |s.queue|, Transient);
    QueueSweptSettles(s, |s.queue|, Overdue(now));
    AllRejectedSettles(s);
    AllRejectedSettles(QueueSwept(s, |s.queue|, Transient));
    FlightSweptSettles(a.config, a.link.connected, QueueSwept(s, |s.queue|, Overdue(now)), 0, now);
  }

  predicate TakesIt(at: Standing, e: Event) {
    e.Enqueue? && !at.Ended? && (e.transient && !e.isSync ==> at.Online?)
  }

  /** One event moves the agent from where it stands, and only asking it for a send adds one. */
  lemma EventMoves(a: Agent, at: Standing, e: Event, now: int, room: nat)
    requires IsAt(a.link, at)
    ensures var b := Apply(a, e, now, room);
      && IsAt(b.link, Next(at, e))
      && b.link.pausedUntil == (if e.Paused? && (at.Dialled? || at.Online?) then e.until else a.link.pausedUntil)
      && b.sends.accepted == if TakesIt(at, e) then a.sends.accepted + [Request(e.sendKey, e.transient, now)] else a.sends.accepted
  {
    hide Pumped, QueueSwept, FlightSwept, AllRejected, BySentAt, Without;
    var s := a.sends;
    SweptStays(a, now);
    match e
    case Enqueue(key, transient, _) => PumpedStays(a.(sends := Accepted(s, Request(key, transient, now), a.config.sendTimeoutMs)), now, room);
    case PumpTimer => PumpedStays(a.(link := a.link.(pumpTimer := false)), now, room);
    case Welcome => PumpedStays(a.(link := a.link.(connected := true), sends := Resent(s)), now, room);
    case Ack(key) =>
      var i := KeyIndex(s.inflight, key);
      if i < |s.inflight| {
        PumpedStays(a.(sends := FlightSettled(s, i, Acked(key))), now, room);
      }
    case SendError(key, retryable, code) =>
      var i := KeyIndex(s.inflight, key);
      if i < |s.inflight| {
        PumpedStays(a.(sends := FlightDelayed(s, i)), now, room);
        PumpedStays(a.(sends := FlightSettled(s, i, Rejected)), now, room);
      }
    case RetryTimer(i) =>
      if i < |s.retrying| {
        PumpedStays(a.(sends := RetryRequeued(s, i)), now, room);
      }
    case Tick => PumpedStays(a.(sends := FlightSwept(a.config, a.link.connected, QueueSwept(s, |s.queue|, Overdue(now)), 0, now)), now, room);
    case _ =>
  }

  /**
   * In every run: whether the agent runs, has a socket and is connected is what the events made of it;
   * it is in the pause that was last asked for on a socket; and it accepted exactly what it was asked
   * for while it could take it, in that order.
   */
  lemma {:induction false} AgentStands(config: Config, start: int, es: seq<Timed>)
    ensures var a := Run(Started(config, start), es);
      IsAt(a.link, Stands(es)) && a.link.pausedUntil == Pause(es) && a.sends.accepted == Requests(es)
  {
    hide Apply, Run;
    if es == [] {
      RunOfNone(config, start);
    } else {
      var front, t := es[..|es| - 1], es[|es| - 1];
      assert es == front + [t];
      AgentStands(config, start, front);
      RunLast(Started(config, start), front, t);
      EventMoves(Run(Started(config, start), front), Stands(front), t.event, t.now, t.room);
    }
  }

  lemma RunOfNone(config: Config, start: int)
    ensures Run(Started(config, start), []) == Started(config, start)
  {
  }

  /** In every run, nothing is written but on a connection, and outside the pause that was last asked for. */
  lemma WritesOnlyOnline(config: Config, start: int, es: seq<Timed>, t: Timed)
    requires Run(Started(config, start), es + [t]).bucket.wire != Run(Started(config, start), es).bucket.wire
    ensures Stands(es + [t]).Online? && Pause(es) <= t.now
  {
    hide Apply, Run, Stands, Pause, Requests, Line, Answers, Delayed, Stirs, Rests;
    RunLast(Started(config, start), es, t);
    AgentStands(config, start, es);
    AgentStands(config, start, es + [t]);
    var k := EventMeans(Run(Started(config, start), es), t.event, t.now, t.room);
    var a := Run(Started(config, start), es);
    NoneWentOut(Line(a, t.event, t.now), a.sends.settled + Answers(a, t.event, t.now), a.bucket.wire, Run(Started(config, start), es + [t]), t.now);
  }

  lemma NoneWentOut(line: seq<Outgoing>, settled: seq<Settlement>, wire: seq<Write>, b: Agent, now: int)
    ensures WentOut(line, settled, wire, b, now, 0) ==> b.bucket.wire == wire
  {
    assert Writes(line[..0], now) == [];
  }

  // ---------------------------------------------------------------------
  // The queue does not stall
  // ---------------------------------------------------------------------

  /** The socket takes whatever the agent has to write. */
  predicate Roomy(a: Agent, es: seq<Timed>)
    decreases |es|
  {
    es == []
    || (|a.sends.queue| + |a.sends.inflight| + |a.sends.retrying| < es[0].room
        && Roomy(Apply(a, es[0].event, es[0].now, es[0].room), es[1..]))
  }

  lemma {:induction false} StayingIsShorter(q: seq<Outgoing>, sweep: Sweep)
    ensures |Staying(q, sweep)| <= |q|
  {
    if q != [] {
      StayingIsShorter(q[..|q| - 1], sweep);
    }
  }

  lemma {:induction false} LateIsShorter(c: Config, connected: bool, q: seq<Outgoing>, now: int)
    ensures |LateOnes(c, connected, q, now)| <= |q|
  {
    if q != [] {
      LateIsShorter(c, connected, q[1..], now);
    }
  }

  lemma {:induction false} InsertedLength(e: Outgoing, q: seq<Outgoing>)
    ensures |Inserted(e, q)| == |q| + 1
  {
    if q != [] {
      InsertedLength(e, q[1..]);
    }
  }

  lemma {:induction false} SortedLength(q: seq<Outgoing>)
    ensures |BySentAt(q)| == |q|
  {
    if q != [] {
      SortedLength(q[1..]);
      InsertedLength(q[0], BySentAt(q[1..]));
    }
  }

  lemma LineLength(a: Agent, e: Event, now: int)
    ensures |Line(a, e, now)| <= |a.sends.queue| + |a.sends.inflight| + |a.sends.retrying| + 1
  {
    StayingIsShorter(a.sends.queue, Overdue(now));
    StayingIsShorter(a.sends.queue, Transient);
    LateIsShorter(a.config, a.link.connected, a.sends.inflight, now);
    SortedLength(a.sends.inflight);
  }

  ghost predicate NotStalled(a: Agent) {
    a.link.connected ==> Rests(a)
  }

  /** An event that makes neither room nor work leaves the queue, the window and the timer, or the connection is gone. */
  lemma QuietRests(a: Agent, e: Event, now: int, room: nat)
    requires NotStalled(a) && !Stirs(a, e)
    ensures NotStalled(Apply(a, e, now, room))
  {
    hide Pumped, QueueSwept, FlightSwept, AllRejected, BySentAt, Staying, Backwards, Each, Without;
  }

  lemma EventRests(a: Agent, e: Event, now: int, room: nat)
    requires NotStalled(a) && |a.sends.queue| + |a.sends.inflight| + |a.sends.retrying| < room
    ensures NotStalled(Apply(a, e, now, room))
  {
    hide Apply, Line, Answers, Delayed, Stirs;
    if Stirs(a, e) {
      var k := EventMeans(a, e, now, room);
      LineLength(a, e, now);
    } else {
      QuietRests(a, e, now, room);
    }
  }

  lemma {:induction false} RunRests(a: Agent, es: seq<Timed>)
    requires NotStalled(a) && Roomy(a, es)
    ensures NotStalled(Run(a, es))
    decreases |es|
  {
    hide Apply, NotStalled;
    if es != [] {
      EventRests(a, es[0].event, es[0].now, es[0].room);
      RunRests(Apply(a, es[0].event, es[0].now, es[0].room), es[1..]);
    }
  }

  /**
   * In every run with a socket that takes what it is given, a connected agent has nothing to write,
   * or a full window, or a timer set to write.
   */
  lemma NeverStalls(config: Config, start: int, es: seq<Timed>)
    requires Roomy(Started(config, start), es)
    ensures var a := Run(Started(config, start), es); Stands(es).Online? ==> Rests(a)
  {
    hide Run, Roomy, Stands, Rests;
    RunRests(Started(config, start), es);
    AgentStands(config, start, es);
  }
}
