/**
 * The outbound side of the TypeScript agent: a paced queue, a window of
 * unacknowledged messages, retries, expiry and resending after a reconnect.
 */
module AgentSends {
  import opened Prefix
  import Pacing

  const MAX_SEND_ATTEMPTS := 6
  const RESEND_CODES := {"rate_limited", "too_many_in_flight", "unavailable", "internal"}

  datatype Key = Key(conversationId: string, clientId: string)

  /** A send that waits; `id` tells sends apart, and only acknowledged frames have a key. */
  datatype Outgoing = Outgoing(id: nat, key: Option<Key>, transient: bool, deadline: int, sentAt: int, attempts: nat)

  /** How the promise of a send was settled: with its ack, with an error, or without an answer. */
  datatype How = Acked(key: Key) | Rejected | Unanswered

  datatype Settlement = Settlement(id: nat, how: How)

  datatype Write = Write(id: nat, at: int)

  /** What a send was accepted as: only acknowledged frames have a key. */
  datatype Request = Request(key: Option<Key>, transient: bool, at: int)

  /** The sends by place, and what they were accepted as. */
  datatype Sends = Sends(
    queue: seq<Outgoing>,
    inflight: seq<Outgoing>,
    retrying: seq<Outgoing>,
    settled: seq<Settlement>,
    dropped: seq<nat>,
    accepted: seq<Request>)

  datatype Config = Config(maxInFlight: int, fps: real, ackTimeoutMs: int, sendTimeoutMs: int)

  datatype Link = Link(running: bool, socket: bool, connected: bool, pumpTimer: bool, pausedUntil: int)

  /** The token bucket, and the frames written so far. */
  datatype Bucket = Bucket(tokens: real, tokensAt: int, wire: seq<Write>)

  datatype Agent = Agent(config: Config, link: Link, bucket: Bucket, sends: Sends)

  // ---------------------------------------------------------------------
  // Moving one send
  // ---------------------------------------------------------------------

  function KeyIndex(q: seq<Outgoing>, key: Key): (i: nat)
    ensures i <= |q| && (i < |q| ==> q[i].key == Some(key))
    ensures forall j :: 0 <= j < i ==> q[j].key != Some(key)
  {
    if q == [] || q[0].key == Some(key) then 0 else KeyIndex(q[1..], key) + 1
  }

  /** Map.set: a key that is there already keeps its place and gets the new value. */
  function Put(q: seq<Outgoing>, e: Outgoing): seq<Outgoing>
    requires e.key.Some?
  {
    var i := KeyIndex(q, e.key.value);
    if i < |q| then q[i := e] else q + [e]
  }

  function Written(s: Sends, now: int): Sends
    requires s.queue != []
  {
    var e := s.queue[0].(attempts := s.queue[0].attempts + 1, sentAt := now);
    var rest := s.(queue := s.queue[1..]);
    if e.key.Some? then rest.(inflight := Put(s.inflight, e))
    else rest.(settled := s.settled + [Settlement(e.id, Unanswered)])
  }

  function QueueSettled(s: Sends, i: nat, how: How): Sends
    requires i < |s.queue|
  {
    s.(queue := Without(s.queue, i), settled := s.settled + [Settlement(s.queue[i].id, how)])
  }

  function FlightSettled(s: Sends, i: nat, how: How): Sends
    requires i < |s.inflight|
  {
    s.(inflight := Without(s.inflight, i), settled := s.settled + [Settlement(s.inflight[i].id, how)])
  }

  function FlightRequeued(s: Sends, i: nat): Sends
    requires i < |s.inflight|
  {
    s.(inflight := Without(s.inflight, i), queue := [s.inflight[i]] + s.queue)
  }

  function FlightDelayed(s: Sends, i: nat): Sends
    requires i < |s.inflight|
  {
    s.(inflight := Without(s.inflight, i), retrying := s.retrying + [s.inflight[i]])
  }

  function RetryRequeued(s: Sends, i: nat): Sends
    requires i < |s.retrying|
  {
    s.(retrying := Without(s.retrying, i), queue := [s.retrying[i]] + s.queue)
  }

  function RetryDropped(s: Sends, i: nat): Sends
    requires i < |s.retrying|
  {
    s.(retrying := Without(s.retrying, i), dropped := s.dropped + [s.retrying[i].id])
  }

  function Accepted(s: Sends, r: Request, timeoutMs: int): Sends {
    s.(queue := s.queue + [Outgoing(|s.accepted|, r.key, r.transient, r.at + timeoutMs, 0, 0)], accepted := s.accepted + [r])
  }

  // ---------------------------------------------------------------------
  // Moving several
  // ---------------------------------------------------------------------

  function Inserted(e: Outgoing, q: seq<Outgoing>): seq<Outgoing> {
    if q == [] || e.sentAt <= q[0].sentAt then [e] + q else [q[0]] + Inserted(e, q[1..])
  }

  /** A stable sort by the time of writing. */
  function BySentAt(q: seq<Outgoing>): seq<Outgoing> {
    if q == [] then [] else Inserted(q[0], BySentAt(q[1..]))
  }

  function Resent(s: Sends): Sends {
    s.(inflight := [], queue := BySentAt(s.inflight) + s.queue)
  }

  /** Sends that leave the queue: those past their deadline, or those not worth keeping over a reconnect. */
  datatype Sweep = Overdue(now: int) | Transient

  predicate Leaves(sweep: Sweep, e: Outgoing) {
    match sweep
    case Overdue(now) => e.deadline < now
    case Transient => e.transient
  }

  function Outcome(sweep: Sweep): How {
    if sweep.Transient? then Unanswered else Rejected
  }

  /** The part of the queue before `i`, swept from its end. */
  function QueueSwept(s: Sends, i: nat, sweep: Sweep): Sends
    requires i <= |s.queue|
    decreases i
  {
    if i == 0 then s
    else QueueSwept(if Leaves(sweep, s.queue[i - 1]) then QueueSettled(s, i - 1, Outcome(sweep)) else s, i - 1, sweep)
  }

  predicate AckLate(c: Config, connected: bool, e: Outgoing, now: int) {
    connected && now - e.sentAt > c.ackTimeoutMs
  }

  function FlightSwept(c: Config, connected: bool, s: Sends, i: nat, now: int): Sends
    requires i <= |s.inflight|
    decreases |s.inflight| - i
  {
    if i == |s.inflight| then s
    else if s.inflight[i].deadline < now then FlightSwept(c, connected, FlightSettled(s, i, Rejected), i, now)
    else if AckLate(c, connected, s.inflight[i], now) then FlightSwept(c, connected, FlightRequeued(s, i), i, now)
    else FlightSwept(c, connected, s, i + 1, now)
  }

  function AllRejected(s: Sends): Sends
    decreases |s.queue| + |s.inflight|
  {
    if s.queue != [] then AllRejected(QueueSettled(s, 0, Rejected))
    else if s.inflight != [] then AllRejected(FlightSettled(s, 0, Rejected))
    else s
  }

  // ---------------------------------------------------------------------
  // The pump
  // ---------------------------------------------------------------------

  function Seconds(ms: int): real {
    ms as real / 1000.0
  }

  function Refilled(c: Config, b: Bucket, now: int): Bucket {
    b.(tokens := Pacing.MinReal(c.fps, b.tokens + Seconds(now - b.tokensAt) * c.fps), tokensAt := now)
  }

  function Spent(b: Bucket, id: nat, now: int): Bucket {
    b.(tokens := b.tokens - 1.0, wire := b.wire + [Write(id, now)])
  }

  /** Writes from the head of the queue; `room` frames fit in the socket before it refuses one. */
  function PumpedFrom(a: Agent, now: int, room: nat): Agent
    decreases |a.sends.queue|
  {
    var s := a.sends;
    if s.queue == [] then a
    else if s.queue[0].key.Some? && |s.inflight| >= a.config.maxInFlight then a
    else if a.bucket.tokens < 1.0 then a.(link := a.link.(pumpTimer := true))
    else if room == 0 then a
    else PumpedFrom(a.(sends := Written(s, now), bucket := Spent(a.bucket, s.queue[0].id, now)), now, room - 1)
  }

  function Pumped(a: Agent, now: int, room: nat): Agent {
    if a.link.pumpTimer || !a.link.connected then a
    else if now < a.link.pausedUntil then a.(link := a.link.(pumpTimer := true))
    else PumpedFrom(a.(bucket := Refilled(a.config, a.bucket, now)), now, room)
  }

  // ---------------------------------------------------------------------
  // Events
  // ---------------------------------------------------------------------

  datatype Event =
    | Enqueue(sendKey: Option<Key>, transient: bool, isSync: bool)
    | PumpTimer
    | Connect
    | Welcome
    | Ack(key: Key)
    | SendError(key: Key, retryable: bool, code: string)
    | Paused(until: int)
    | RetryTimer(which: nat)
    | Tick
    | Close(fatal: bool)
    | GiveUp
    | Stop

  function ApplyEnqueue(a: Agent, key: Option<Key>, transient: bool, isSync: bool, now: int, room: nat): Agent {
    if !a.link.running || (transient && !isSync && !a.link.connected) then a
    else Pumped(a.(sends := Accepted(a.sends, Request(key, transient, now), a.config.sendTimeoutMs)), now, room)
  }

  function ApplyAck(a: Agent, key: Key, now: int, room: nat): Agent {
    var i := KeyIndex(a.sends.inflight, key);
    if i == |a.sends.inflight| then a
    else Pumped(a.(sends := FlightSettled(a.sends, i, Acked(key))), now, room)
  }

  predicate Retried(e: Outgoing, retryable: bool, code: string) {
    retryable && code in RESEND_CODES && e.attempts < MAX_SEND_ATTEMPTS
  }

  function ApplySendError(a: Agent, key: Key, retryable: bool, code: string, now: int, room: nat): Agent {
    var i := KeyIndex(a.sends.inflight, key);
    if i == |a.sends.inflight| then a
    else
      var s := if Retried(a.sends.inflight[i], retryable, code) then FlightDelayed(a.sends, i) else FlightSettled(a.sends, i, Rejected);
      Pumped(a.(sends := s), now, room)
  }

  function ApplyRetry(a: Agent, i: nat, now: int, room: nat): Agent {
    if i >= |a.sends.retrying| then a
    else if !a.link.running then a.(sends := RetryDropped(a.sends, i))
    else Pumped(a.(sends := RetryRequeued(a.sends, i)), now, room)
  }

  function ApplyTick(a: Agent, now: int, room: nat): Agent {
    var s := QueueSwept(a.sends, |a.sends.queue|, Overdue(now));
    Pumped(a.(sends := FlightSwept(a.config, a.link.connected, s, 0, now)), now, room)
  }

  function ApplyClose(a: Agent, fatal: bool): Agent {
    var s := QueueSwept(a.sends, |a.sends.queue|, Transient);
    var l := a.link.(socket := false, connected := false);
    if l.running && fatal then a.(link := l.(running := false), sends := AllRejected(s))
    else a.(link := l, sends := s)
  }

  function ApplyStop(a: Agent): Agent {
    if !a.link.running then a
    else a.(link := a.link.(running := false, socket := false, connected := false, pumpTimer := false), sends := AllRejected(a.sends))
  }

  /** One event at time `now`; frames are taken from the current socket only. */
  function Apply(a: Agent, e: Event, now: int, room: nat): Agent {
    match e
    case Enqueue(key, transient, isSync) => ApplyEnqueue(a, key, transient, isSync, now, room)
    case PumpTimer => if a.link.pumpTimer then Pumped(a.(link := a.link.(pumpTimer := false)), now, room) else a
    case Connect => if a.link.running then a.(link := a.link.(socket := true)) else a
    case Welcome => if a.link.socket then Pumped(a.(link := a.link.(connected := true), sends := Resent(a.sends)), now, room) else a
    case Ack(key) => if a.link.socket then ApplyAck(a, key, now, room) else a
    case SendError(key, retryable, code) => if a.link.socket then ApplySendError(a, key, retryable, code, now, room) else a
    case Paused(until) => if a.link.socket then a.(link := a.link.(pausedUntil := until)) else a
    case RetryTimer(i) => ApplyRetry(a, i, now, room)
    case Tick => ApplyTick(a, now, room)
    case Close(fatal) => if a.link.socket then ApplyClose(a, fatal) else a
    case GiveUp => if a.link.socket then a else a.(link := a.link.(running := false))
    case Stop => ApplyStop(a)
  }
}
