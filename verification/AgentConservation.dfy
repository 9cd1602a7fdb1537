/** Every send of the agent is in one place at a time and is settled at most once. */
module AgentConservation {
  import opened Prefix
  import opened AgentSends

  // ---------------------------------------------------------------------
  // Counting
  // ---------------------------------------------------------------------

  function Held(q: seq<Outgoing>, n: nat): nat {
    if q == [] then 0 else (if q[0].id == n then 1 else 0) + Held(q[1..], n)
  }

  function Keyed(q: seq<Outgoing>, k: Key): nat {
    if q == [] then 0 else (if q[0].key == Some(k) then 1 else 0) + Keyed(q[1..], k)
  }

  function Settled(s: seq<Settlement>, n: nat): nat {
    if s == [] then 0 else (if s[|s| - 1].id == n then 1 else 0) + Settled(s[..|s| - 1], n)
  }

  function Dropped(s: seq<nat>, n: nat): nat {
    if s == [] then 0 else (if s[|s| - 1] == n then 1 else 0) + Dropped(s[..|s| - 1], n)
  }

  /** How often send `n` is found in the queue, the window, the retry timers, the settled and the dropped ones. */
  function Places(s: Sends, n: nat): nat {
    Held(s.queue, n) + Held(s.inflight, n) + Held(s.retrying, n) + Settled(s.settled, n) + Dropped(s.dropped, n)
  }

  /** How many sends wait under a key. */
  function Waiting(s: Sends, k: Key): nat {
    Keyed(s.queue, k) + Keyed(s.inflight, k) + Keyed(s.retrying, k)
  }

  /** The entries carry the keys under which their sends were accepted. */
  ghost predicate Known(q: seq<Outgoing>, accepted: seq<Request>) {
    forall i :: 0 <= i < |q| ==> q[i].id < |accepted| && accepted[q[i].id].key == q[i].key
  }

  ghost predicate AnsweredOwn(s: Sends) {
    forall i :: 0 <= i < |s.settled| && s.settled[i].how.Acked? ==>
      s.settled[i].id < |s.accepted| && s.accepted[s.settled[i].id].key == Some(s.settled[i].how.key)
  }

  ghost predicate Labelled(s: Sends) {
    && Known(s.queue, s.accepted) && Known(s.inflight, s.accepted) && Known(s.retrying, s.accepted)
    && (forall i :: 0 <= i < |s.inflight| ==> s.inflight[i].key.Some?)
    && AnsweredOwn(s)
  }

  ghost predicate OnePlaceEach(s: Sends) {
    forall n: nat :: Places(s, n) == if n < |s.accepted| then 1 else 0
  }

  ghost predicate KeysApart(s: Sends) {
    forall k :: Waiting(s, k) <= 1
  }

  /** Every accepted send is in exactly one place, and no two that wait share a key. */
  ghost predicate Conserved(s: Sends) {
    OnePlaceEach(s) && KeysApart(s) && Labelled(s)
  }

  lemma {:induction false} CountAppend(p: seq<Outgoing>, q: seq<Outgoing>, n: nat, k: Key)
    ensures Held(p + q, n) == Held(p, n) + Held(q, n) && Keyed(p + q, k) == Keyed(p, k) + Keyed(q, k)
  {
    if p == [] {
      assert p + q == q;
    } else {
      CountAppend(p[1..], q, n, k);
      assert (p + q)[1..] == p[1..] + q;
    }
  }

  function One(yes: bool): nat {
    if yes then 1 else 0
  }

  lemma CountWithout(q: seq<Outgoing>, i: nat, n: nat, k: Key)
    requires i < |q|
    ensures Held(q, n) == One(q[i].id == n) + Held(Without(q, i), n)
    ensures Keyed(q, k) == One(q[i].key == Some(k)) + Keyed(Without(q, i), k)
  {
    assert q == q[..i] + q[i..] && q[i..][1..] == q[i + 1..];
    CountAppend(q[..i], q[i..], n, k);
    CountAppend(q[..i], q[i + 1..], n, k);
  }

  lemma CountFirst(e: Outgoing, q: seq<Outgoing>, n: nat, k: Key)
    ensures Held([e] + q, n) == One(e.id == n) + Held(q, n)
    ensures Keyed([e] + q, k) == One(e.key == Some(k)) + Keyed(q, k)
  {
    assert ([e] + q)[1..] == q;
  }

  lemma CountLast(q: seq<Outgoing>, e: Outgoing, n: nat, k: Key)
    ensures Held(q + [e], n) == Held(q, n) + One(e.id == n)
    ensures Keyed(q + [e], k) == Keyed(q, k) + One(e.key == Some(k))
  {
    CountAppend(q, [e], n, k);
  }

  lemma SettledLast(s: seq<Settlement>, x: Settlement, n: nat)
    ensures Settled(s + [x], n) == Settled(s, n) + One(x.id == n)
  {
    assert (s + [x])[..|s|] == s;
  }

  lemma DroppedLast(s: seq<nat>, x: nat, n: nat)
    ensures Dropped(s + [x], n) == Dropped(s, n) + One(x == n)
  {
    assert (s + [x])[..|s|] == s;
  }

  lemma KnownWithout(q: seq<Outgoing>, i: nat, accepted: seq<Request>)
    requires i < |q| && Known(q, accepted)
    ensures Known(Without(q, i), accepted)
  {
    var r := Without(q, i);
    forall j | 0 <= j < |r|
      ensures r[j].id < |accepted| && accepted[r[j].id].key == r[j].key
    {
      assert r[j] == if j < i then q[j] else q[j + 1];
    }
  }

  /** Send `n` is in as many places as before, and no more sends wait under `k`. */
  ghost predicate Kept(s: Sends, t: Sends, n: nat, k: Key) {
    Places(t, n) == Places(s, n) && Waiting(t, k) <= Waiting(s, k)
  }

  lemma MoveConserves(s: Sends, t: Sends)
    requires Conserved(s) && t.accepted == s.accepted && Labelled(t)
    requires forall n: nat, k: Key :: Kept(s, t, n, k)
    ensures Conserved(t)
  {
    hide Places, Waiting, Labelled;
    forall n: nat
      ensures Places(t, n) == if n < |t.accepted| then 1 else 0
    {
      assert Kept(s, t, n, Key("", ""));
    }
    forall k: Key
      ensures Waiting(t, k) <= 1
    {
      assert Kept(s, t, 0, k) && Waiting(s, k) <= 1;
    }
  }

  // ---------------------------------------------------------------------
  // One send at a time
  // ---------------------------------------------------------------------

  /** The key of the head is not in the window while no two waiting sends share a key. */
  lemma HeadKeyIsNew(s: Sends)
    requires KeysApart(s) && s.queue != [] && s.queue[0].key.Some?
    ensures KeyIndex(s.inflight, s.queue[0].key.value) == |s.inflight|
  {
    var k := s.queue[0].key.value;
    var i := KeyIndex(s.inflight, k);
    assert Waiting(s, k) <= 1 && Keyed(s.queue, k) >= 1;
    assert i < |s.inflight| ==> Keyed(s.inflight, k) >= 1 by {
      if i < |s.inflight| {
        CountWithout(s.inflight, i, 0, k);
      }
    }
  }

  lemma PutNew(q: seq<Outgoing>, e: Outgoing)
    requires e.key.Some? && KeyIndex(q, e.key.value) == |q|
    ensures Put(q, e) == q + [e]
  {
  }

  lemma WrittenCounts(s: Sends, now: int, n: nat, k: Key)
    requires s.queue != []
    requires s.queue[0].key.Some? ==> KeyIndex(s.inflight, s.queue[0].key.value) == |s.inflight|
    ensures var t := Written(s, now); Places(t, n) == Places(s, n) && Waiting(t, k) == Waiting(s, k)
  {
    hide Put, KeyIndex, Settled, Dropped;
    var e := s.queue[0].(attempts := s.queue[0].attempts + 1, sentAt := now);
    assert Held(s.queue, n) == One(e.id == n) + Held(s.queue[1..], n);
    assert Keyed(s.queue, k) == One(e.key == Some(k)) + Keyed(s.queue[1..], k);
    hide Held, Keyed;
    if e.key.Some? {
      PutNew(s.inflight, e);
      CountLast(s.inflight, e, n, k);
    } else {
      SettledLast(s.settled, Settlement(e.id, Unanswered), n);
    }
  }

  lemma WrittenIsConserved(s: Sends, now: int)
    requires Conserved(s) && s.queue != []
    ensures Conserved(Written(s, now))
    ensures |Written(s, now).inflight| == |s.inflight| + One(s.queue[0].key.Some?)
  {
    hide Put, Places, Waiting, KeyIndex;
    var t, e := Written(s, now), s.queue[0].(attempts := s.queue[0].attempts + 1, sentAt := now);
    if e.key.Some? {
      HeadKeyIsNew(s);
      PutNew(s.inflight, e);
    }
    forall n: nat, k: Key
      ensures Kept(s, t, n, k)
    {
      WrittenCounts(s, now, n, k);
    }
    MoveConserves(s, t);
  }

  /**
   * Writing the head loses a send exactly when another send with the same key is in the
   * window: the later one replaces it there, and nothing settles it any more.
   */
  lemma WriteLosesIffKeyInWindow(s: Sends, now: int)
    requires s.queue != []
    ensures var i := if s.queue[0].key.Some? then KeyIndex(s.inflight, s.queue[0].key.value) else |s.inflight|;
      if i == |s.inflight| then forall n: nat :: Places(Written(s, now), n) == Places(s, n)
      else Places(Written(s, now), s.inflight[i].id) == Places(s, s.inflight[i].id) - 1
  {
    hide Places, Waiting;
    var e := s.queue[0].(attempts := s.queue[0].attempts + 1, sentAt := now);
    if e.key.None? || KeyIndex(s.inflight, e.key.value) == |s.inflight| {
      forall n: nat
        ensures Places(Written(s, now), n) == Places(s, n)
      {
        WrittenCounts(s, now, n, Key("", ""));
      }
    } else {
      ReplacedIsLost(s, now);
    }
  }

  lemma ReplacedIsLost(s: Sends, now: int)
    requires s.queue != [] && s.queue[0].key.Some? && KeyIndex(s.inflight, s.queue[0].key.value) < |s.inflight|
    ensures var old' := s.inflight[KeyIndex(s.inflight, s.queue[0].key.value)].id;
      Places(Written(s, now), old') == Places(s, old') - 1
  {
    var t, i := Written(s, now), KeyIndex(s.inflight, s.queue[0].key.value);
    var n, k := s.inflight[i].id, s.queue[0].key.value;
    CountWithout(s.inflight, i, n, k);
    CountWithout(t.inflight, i, n, k);
    assert Without(t.inflight, i) == Without(s.inflight, i);
  }

  lemma QueueSettledIsConserved(s: Sends, i: nat, how: How)
    requires Conserved(s) && i < |s.queue| && !how.Acked?
    ensures Conserved(QueueSettled(s, i, how))
  {
    hide Without, Held, Keyed, Settled;
    var t := QueueSettled(s, i, how);
    forall n: nat, k: Key
      ensures Kept(s, t, n, k)
    {
      CountWithout(s.queue, i, n, k);
      SettledLast(s.settled, Settlement(s.queue[i].id, how), n);
    }
    KnownWithout(s.queue, i, s.accepted);
    MoveConserves(s, t);
  }

  lemma FlightLabels(s: Sends, i: nat)
    requires Labelled(s) && i < |s.inflight|
    ensures Labelled(s.(inflight := Without(s.inflight, i)))
  {
    KnownWithout(s.inflight, i, s.accepted);
    var r := Without(s.inflight, i);
    forall j | 0 <= j < |r|
      ensures r[j].key.Some?
    {
      assert r[j] == if j < i then s.inflight[j] else s.inflight[j + 1];
    }
  }

  lemma FlightSettledIsConserved(s: Sends, i: nat, how: How)
    requires Conserved(s) && i < |s.inflight| && (how.Acked? ==> s.inflight[i].key == Some(how.key))
    ensures Conserved(FlightSettled(s, i, how))
  {
    hide Without, Held, Keyed, Settled;
    var t := FlightSettled(s, i, how);
    forall n: nat, k: Key
      ensures Kept(s, t, n, k)
    {
      CountWithout(s.inflight, i, n, k);
      SettledLast(s.settled, Settlement(s.inflight[i].id, how), n);
    }
    FlightLabels(s, i);
    MoveConserves(s, t);
  }

  lemma FlightRequeuedIsConserved(s: Sends, i: nat)
    requires Conserved(s) && i < |s.inflight|
    ensures Conserved(FlightRequeued(s, i))
  {
    hide Without, Held, Keyed, Settled;
    var t := FlightRequeued(s, i);
    forall n: nat, k: Key
      ensures Kept(s, t, n, k)
    {
      CountWithout(s.inflight, i, n, k);
      CountFirst(s.inflight[i], s.queue, n, k);
    }
    FlightLabels(s, i);
    MoveConserves(s, t);
  }

  lemma FlightDelayedIsConserved(s: Sends, i: nat)
    requires Conserved(s) && i < |s.inflight|
    ensures Conserved(FlightDelayed(s, i))
  {
    hide Without, Held, Keyed, Settled;
    var t := FlightDelayed(s, i);
    forall n: nat, k: Key
      ensures Kept(s, t, n, k)
    {
      CountWithout(s.inflight, i, n, k);
      CountLast(s.retrying, s.inflight[i], n, k);
    }
    FlightLabels(s, i);
    MoveConserves(s, t);
  }

  lemma RetryRequeuedIsConserved(s: Sends, i: nat)
    requires Conserved(s) && i < |s.retrying|
    ensures Conserved(RetryRequeued(s, i))
  {
    hide Without, Held, Keyed, Settled;
    var t := RetryRequeued(s, i);
    forall n: nat, k: Key
      ensures Kept(s, t, n, k)
    {
      CountWithout(s.retrying, i, n, k);
      CountFirst(s.retrying[i], s.queue, n, k);
    }
    KnownWithout(s.retrying, i, s.accepted);
    MoveConserves(s, t);
  }

  lemma RetryDroppedIsConserved(s: Sends, i: nat)
    requires Conserved(s) && i < |s.retrying|
    ensures Conserved(RetryDropped(s, i))
  {
    hide Without, Held, Keyed, Settled, Dropped;
    var t := RetryDropped(s, i);
    forall n: nat, k: Key
      ensures Kept(s, t, n, k)
    {
      CountWithout(s.retrying, i, n, k);
      DroppedLast(s.dropped, s.retrying[i].id, n);
    }
    KnownWithout(s.retrying, i, s.accepted);
    MoveConserves(s, t);
  }

  lemma AcceptedIsConserved(s: Sends, r: Request, timeoutMs: int)
    requires Conserved(s) && (r.key.Some? ==> Waiting(s, r.key.value) == 0)
    ensures Conserved(Accepted(s, r, timeoutMs))
  {
    hide Held, Keyed, Settled, Dropped;
    var t := Accepted(s, r, timeoutMs);
    var e := t.queue[|s.queue|];
    forall n: nat
      ensures Places(t, n) == if n < |t.accepted| then 1 else 0
    {
      CountLast(s.queue, e, n, Key("", ""));
      assert Places(s, n) == if n < |s.accepted| then 1 else 0;
    }
    forall k: Key
      ensures Waiting(t, k) <= 1
    {
      CountLast(s.queue, e, 0, k);
      assert Waiting(s, k) <= 1;
    }
  }

  // ---------------------------------------------------------------------
  // Several at a time
  // ---------------------------------------------------------------------

  lemma {:induction false} InsertedCounts(e: Outgoing, q: seq<Outgoing>, n: nat, k: Key)
    ensures var r := Inserted(e, q);
      Held(r, n) == One(e.id == n) + Held(q, n) && Keyed(r, k) == One(e.key == Some(k)) + Keyed(q, k)
  {
    if q != [] && e.sentAt > q[0].sentAt {
      InsertedCounts(e, q[1..], n, k);
      CountFirst(q[0], Inserted(e, q[1..]), n, k);
    } else {
      CountFirst(e, q, n, k);
    }
  }

  lemma {:induction false} InsertedHolds(e: Outgoing, q: seq<Outgoing>)
    ensures forall j :: 0 <= j < |Inserted(e, q)| ==> Inserted(e, q)[j] == e || Inserted(e, q)[j] in q
  {
    if q != [] && e.sentAt > q[0].sentAt {
      InsertedHolds(e, q[1..]);
    }
  }

  /** The order in which unacknowledged sends go out again is that of their last writing. */
  ghost predicate Ordered(q: seq<Outgoing>) {
    forall i, j :: 0 <= i < j < |q| ==> q[i].sentAt <= q[j].sentAt
  }

  lemma {:induction false} InsertedIsOrdered(e: Outgoing, q: seq<Outgoing>)
    requires Ordered(q)
    ensures Ordered(Inserted(e, q))
  {
    if q != [] && e.sentAt > q[0].sentAt {
      InsertedIsOrdered(e, q[1..]);
      InsertedHolds(e, q[1..]);
    }
  }

  lemma {:induction false} BySentAtHolds(q: seq<Outgoing>)
    ensures Ordered(BySentAt(q)) && forall j :: 0 <= j < |BySentAt(q)| ==> BySentAt(q)[j] in q
  {
    if q != [] {
      BySentAtHolds(q[1..]);
      InsertedHolds(q[0], BySentAt(q[1..]));
      InsertedIsOrdered(q[0], BySentAt(q[1..]));
    }
  }

  lemma {:induction false} BySentAtCounts(q: seq<Outgoing>, n: nat, k: Key)
    ensures Held(BySentAt(q), n) == Held(q, n) && Keyed(BySentAt(q), k) == Keyed(q, k)
  {
    if q != [] {
      BySentAtCounts(q[1..], n, k);
      InsertedCounts(q[0], BySentAt(q[1..]), n, k);
    }
  }

  lemma ResentIsConserved(s: Sends)
    requires Conserved(s)
    ensures Conserved(Resent(s))
  {
    hide BySentAt, Settled, Dropped;
    var t := Resent(s);
    forall n: nat, k: Key
      ensures Kept(s, t, n, k)
    {
      BySentAtCounts(s.inflight, n, k);
      CountAppend(BySentAt(s.inflight), s.queue, n, k);
    }
    BySentAtHolds(s.inflight);
    MoveConserves(s, t);
  }

  /** Nothing is dropped, and a settlement is final. */
  ghost predicate Follows(s: Sends, t: Sends) {
    s.accepted <= t.accepted && s.settled <= t.settled && t.dropped == s.dropped
  }

  lemma {:induction false} QueueSweptIsConserved(s: Sends, i: nat, sweep: Sweep)
    requires Conserved(s) && i <= |s.queue|
    ensures Conserved(QueueSwept(s, i, sweep)) && QueueSwept(s, i, sweep).inflight == s.inflight
    ensures Follows(s, QueueSwept(s, i, sweep))
    decreases i
  {
    hide Conserved;
    if i > 0 {
      if Leaves(sweep, s.queue[i - 1]) {
        QueueSettledIsConserved(s, i - 1, Outcome(sweep));
        QueueSweptIsConserved(QueueSettled(s, i - 1, Outcome(sweep)), i - 1, sweep);
      } else {
        QueueSweptIsConserved(s, i - 1, sweep);
      }
    }
  }

  lemma {:induction false} FlightSweptIsConserved(c: Config, connected: bool, s: Sends, i: nat, now: int)
    requires Conserved(s) && i <= |s.inflight|
    ensures Conserved(FlightSwept(c, connected, s, i, now)) && |FlightSwept(c, connected, s, i, now).inflight| <= |s.inflight|
    ensures Follows(s, FlightSwept(c, connected, s, i, now))
    decreases |s.inflight| - i
  {
    hide Conserved;
    if i < |s.inflight| {
      if s.inflight[i].deadline < now {
        FlightSettledIsConserved(s, i, Rejected);
        FlightSweptIsConserved(c, connected, FlightSettled(s, i, Rejected), i, now);
      } else if AckLate(c, connected, s.inflight[i], now) {
        FlightRequeuedIsConserved(s, i);
        FlightSweptIsConserved(c, connected, FlightRequeued(s, i), i, now);
      } else {
        FlightSweptIsConserved(c, connected, s, i + 1, now);
      }
    }
  }

  lemma {:induction false} AllRejectedIsConserved(s: Sends)
    requires Conserved(s)
    ensures var t := AllRejected(s); Conserved(t) && t.queue == [] && t.inflight == [] && Follows(s, t)
    decreases |s.queue| + |s.inflight|
  {
    hide Conserved;
    if s.queue != [] {
      QueueSettledIsConserved(s, 0, Rejected);
      AllRejectedIsConserved(QueueSettled(s, 0, Rejected));
    } else if s.inflight != [] {
      FlightSettledIsConserved(s, 0, Rejected);
      AllRejectedIsConserved(FlightSettled(s, 0, Rejected));
    }
  }

  // ---------------------------------------------------------------------
  // Every event
  // ---------------------------------------------------------------------

  ghost predicate Inv(a: Agent) {
    && Conserved(a.sends) && |a.sends.inflight| <= a.config.maxInFlight
    && (a.link.running ==> a.sends.dropped == [])
  }

  lemma {:induction false} PumpedFromKeepsInv(a: Agent, now: int, room: nat)
    requires Inv(a)
    ensures Inv(PumpedFrom(a, now, room)) && PumpedFrom(a, now, room).config == a.config
    ensures Follows(a.sends, PumpedFrom(a, now, room).sends)
    decreases |a.sends.queue|
  {
    hide Conserved;
    var s := a.sends;
    if s.queue != [] && !(s.queue[0].key.Some? && |s.inflight| >= a.config.maxInFlight) && a.bucket.tokens >= 1.0 && room > 0 {
      WrittenIsConserved(s, now);
      PumpedFromKeepsInv(a.(sends := Written(s, now), bucket := Spent(a.bucket, s.queue[0].id, now)), now, room - 1);
    }
  }

  lemma PumpedKeepsInv(a: Agent, now: int, room: nat)
    requires Inv(a)
    ensures Inv(Pumped(a, now, room)) && Pumped(a, now, room).config == a.config
    ensures Follows(a.sends, Pumped(a, now, room).sends)
  {
    hide Conserved, PumpedFrom;
    PumpedFromKeepsInv(a.(bucket := Refilled(a.config, a.bucket, now)), now, room);
  }

  /** The caller reuses a key only once the send that had it is settled. */
  predicate Allowed(a: Agent, e: Event) {
    e.Enqueue? && e.sendKey.Some? ==> Waiting(a.sends, e.sendKey.value) == 0
  }

  lemma EventKeepsInv(a: Agent, e: Event, now: int, room: nat)
    requires Inv(a) && Allowed(a, e)
    ensures Inv(Apply(a, e, now, room)) && Apply(a, e, now, room).config == a.config
    ensures a.sends.settled <= Apply(a, e, now, room).sends.settled
  {
    hide Conserved, Pumped, QueueSwept, FlightSwept, AllRejected, Waiting, ApplyAck, ApplySendError, ApplyClose, BySentAt;
    var s := a.sends;
    match e
    case Enqueue(key, transient, _) =>
      AcceptedIsConserved(s, Request(key, transient, now), a.config.sendTimeoutMs);
      PumpedKeepsInv(a.(sends := Accepted(s, Request(key, transient, now), a.config.sendTimeoutMs)), now, room);
    case PumpTimer => PumpedKeepsInv(a.(link := a.link.(pumpTimer := false)), now, room);
    case Welcome =>
      ResentIsConserved(s);
      assert a.config.maxInFlight >= 0;
      PumpedKeepsInv(a.(link := a.link.(connected := true), sends := Resent(s)), now, room);
    case Ack(key) => AnswerKeepsInv(a, key, false, "", now, room);
    case SendError(key, retryable, code) => AnswerKeepsInv(a, key, retryable, code, now, room);
    case RetryTimer(i) =>
      if i < |s.retrying| {
        RetryRequeuedIsConserved(s, i);
        RetryDroppedIsConserved(s, i);
        PumpedKeepsInv(a.(sends := RetryRequeued(s, i)), now, room);
      }
    case Tick =>
      var t := QueueSwept(s, |s.queue|, Overdue(now));
      QueueSweptIsConserved(s, |s.queue|, Overdue(now));
      FlightSweptIsConserved(a.config, a.link.connected, t, 0, now);
      PumpedKeepsInv(a.(sends := FlightSwept(a.config, a.link.connected, t, 0, now)), now, room);
    case Close(fatal) => CloseKeepsInv(a, fatal);
    case Stop => AllRejectedIsConserved(s);
    case _ =>
  }

  lemma CloseKeepsInv(a: Agent, fatal: bool)
    requires Inv(a)
    ensures var d := ApplyClose(a, fatal); Inv(d) && d.config == a.config && a.sends.settled <= d.sends.settled
  {
    hide Conserved, QueueSwept, AllRejected;
    QueueSweptIsConserved(a.sends, |a.sends.queue|, Transient);
    AllRejectedIsConserved(QueueSwept(a.sends, |a.sends.queue|, Transient));
  }

  lemma AnswerKeepsInv(a: Agent, key: Key, retryable: bool, code: string, now: int, room: nat)
    requires Inv(a)
    ensures var d := ApplyAck(a, key, now, room); Inv(d) && d.config == a.config && Follows(a.sends, d.sends)
    ensures var d := ApplySendError(a, key, retryable, code, now, room); Inv(d) && d.config == a.config && Follows(a.sends, d.sends)
  {
    hide Conserved, Pumped;
    var i := KeyIndex(a.sends.inflight, key);
    if i < |a.sends.inflight| {
      FlightSettledIsConserved(a.sends, i, Acked(key));
      FlightSettledIsConserved(a.sends, i, Rejected);
      FlightDelayedIsConserved(a.sends, i);
      PumpedKeepsInv(a.(sends := FlightSettled(a.sends, i, Acked(key))), now, room);
      PumpedKeepsInv(a.(sends := FlightSettled(a.sends, i, Rejected)), now, room);
      PumpedKeepsInv(a.(sends := FlightDelayed(a.sends, i)), now, room);
    }
  }

  // ---------------------------------------------------------------------
  // Whole runs
  // ---------------------------------------------------------------------

  /** An event, the time it happens and the room in the socket at that time. */
  datatype Timed = Timed(event: Event, now: int, room: nat)

  function Started(config: Config, now: int): Agent {
    Agent(config, Link(true, false, false, false, 0), Bucket(config.fps, now, []), Sends([], [], [], [], [], []))
  }

  function Run(a: Agent, es: seq<Timed>): Agent
    decreases |es|
  {
    if es == [] then a else Run(Apply(a, es[0].event, es[0].now, es[0].room), es[1..])
  }

  predicate AllowedRun(a: Agent, es: seq<Timed>)
    decreases |es|
  {
    es == [] || (Allowed(a, es[0].event) && AllowedRun(Apply(a, es[0].event, es[0].now, es[0].room), es[1..]))
  }

  lemma {:induction false} RunKeepsInv(a: Agent, es: seq<Timed>)
    requires Inv(a) && AllowedRun(a, es)
    ensures Inv(Run(a, es)) && a.sends.settled <= Run(a, es).sends.settled && Run(a, es).config == a.config
    decreases |es|
  {
    hide Inv, Apply, Allowed;
    if es != [] {
      EventKeepsInv(a, es[0].event, es[0].now, es[0].room);
      RunKeepsInv(Apply(a, es[0].event, es[0].now, es[0].room), es[1..]);
    }
  }

  /**
   * In every run in which keys are not reused while their send waits, each accepted send is in
   * exactly one of the queue, the window, the retry timers, the settled and the dropped ones,
   * the last of which stays empty until the agent stops; the window never exceeds its limit, an
   * ack settles only the send of its own key, and what is settled stays settled.
   */
  lemma SendsAreConserved(config: Config, start: int, before: seq<Timed>, after: seq<Timed>)
    requires config.maxInFlight >= 1
    requires AllowedRun(Started(config, start), before) && AllowedRun(Run(Started(config, start), before), after)
    ensures var s := Run(Started(config, start), before).sends;
      && |s.inflight| <= config.maxInFlight
      && OnePlaceEach(s)
      && (Run(Started(config, start), before).link.running ==> s.dropped == [])
      && AnsweredOwn(s)
    ensures Run(Started(config, start), before).sends.settled <= Run(Run(Started(config, start), before), after).sends.settled
  {
    var a := Started(config, start);
    assert Inv(a);
    RunKeepsInv(a, before);
    RunKeepsInv(Run(a, before), after);
  }

  /** Stopping rejects everything but the sends that wait for a retry timer, which are dropped when it fires. */
  lemma StopLeavesOnlyRetries(a: Agent, now: int, room: nat, n: nat)
    requires Inv(a) && a.link.running && n < |a.sends.accepted|
    ensures var d := Apply(a, Stop, now, room);
      && d.sends.queue == [] && d.sends.inflight == [] && d.sends.retrying == a.sends.retrying
      && Held(d.sends.retrying, n) + Settled(d.sends.settled, n) == 1
      && forall i: nat :: i < |d.sends.retrying| ==> Apply(d, RetryTimer(i), now, room).sends == RetryDropped(d.sends, i)
  {
    hide AllRejected, Places, OnePlaceEach;
    AllRejectedIsConserved(a.sends);
    RetriesSurviveRejection(a.sends);
    var s := AllRejected(a.sends);
    assert Places(s, n) == 1 by {
      PlacesOf(s, n);
    }
    CountsAfterStop(s, n);
  }

  lemma PlacesOf(s: Sends, n: nat)
    requires OnePlaceEach(s) && n < |s.accepted|
    ensures Places(s, n) == 1
  {
  }

  lemma CountsAfterStop(s: Sends, n: nat)
    requires s.queue == [] && s.inflight == [] && s.dropped == []
    ensures Places(s, n) == Held(s.retrying, n) + Settled(s.settled, n)
  {
  }

  lemma {:induction false} RetriesSurviveRejection(s: Sends)
    ensures AllRejected(s).retrying == s.retrying && AllRejected(s).accepted == s.accepted && AllRejected(s).dropped == s.dropped
    decreases |s.queue| + |s.inflight|
  {
    if s.queue != [] {
      RetriesSurviveRejection(QueueSettled(s, 0, Rejected));
    } else if s.inflight != [] {
      RetriesSurviveRejection(FlightSettled(s, 0, Rejected));
    }
  }

  // ---------------------------------------------------------------------
  // Why a send is settled
  // ---------------------------------------------------------------------

  /** Settlements are only added, and the new ones are of these kinds. */
  ghost predicate Adds(s: Sends, t: Sends, hows: set<How>) {
    && s.settled <= t.settled
    && forall i :: |s.settled| <= i < |t.settled| ==> t.settled[i].how in hows
  }

  lemma AddsTwice(s: Sends, t: Sends, u: Sends, first: set<How>, second: set<How>)
    requires Adds(s, t, first) && Adds(t, u, second)
    ensures Adds(s, u, first + second)
  {
    forall i | |s.settled| <= i < |u.settled|
      ensures u.settled[i].how in first + second
    {
      assert i < |t.settled| ==> u.settled[i] == t.settled[i];
    }
  }

  lemma {:induction false} QueueSweptAdds(s: Sends, i: nat, sweep: Sweep)
    requires i <= |s.queue|
    ensures Adds(s, QueueSwept(s, i, sweep), {Outcome(sweep)})
    decreases i
  {
    if i > 0 {
      var t := if Leaves(sweep, s.queue[i - 1]) then QueueSettled(s, i - 1, Outcome(sweep)) else s;
      QueueSweptAdds(t, i - 1, sweep);
      AddsTwice(s, t, QueueSwept(t, i - 1, sweep), {Outcome(sweep)}, {Outcome(sweep)});
    }
  }

  lemma {:induction false} FlightSweptAdds(c: Config, connected: bool, s: Sends, i: nat, now: int)
    requires i <= |s.inflight|
    ensures Adds(s, FlightSwept(c, connected, s, i, now), {Rejected})
    decreases |s.inflight| - i
  {
    if i < |s.inflight| {
      if s.inflight[i].deadline < now {
        var t := FlightSettled(s, i, Rejected);
        FlightSweptAdds(c, connected, t, i, now);
        AddsTwice(s, t, FlightSwept(c, connected, t, i, now), {Rejected}, {Rejected});
      } else if AckLate(c, connected, s.inflight[i], now) {
        FlightSweptAdds(c, connected, FlightRequeued(s, i), i, now);
      } else {
        FlightSweptAdds(c, connected, s, i + 1, now);
      }
    }
  }

  lemma {:induction false} AllRejectedAdds(s: Sends)
    ensures Adds(s, AllRejected(s), {Rejected})
    decreases |s.queue| + |s.inflight|
  {
    if s.queue != [] || s.inflight != [] {
      var t := if s.queue != [] then QueueSettled(s, 0, Rejected) else FlightSettled(s, 0, Rejected);
      AllRejectedAdds(t);
      AddsTwice(s, t, AllRejected(t), {Rejected}, {Rejected});
    }
  }

  lemma {:induction false} PumpedFromAdds(a: Agent, now: int, room: nat)
    ensures Adds(a.sends, PumpedFrom(a, now, room).sends, {Unanswered})
    decreases |a.sends.queue|
  {
    hide Put;
    var s := a.sends;
    if s.queue != [] && !(s.queue[0].key.Some? && |s.inflight| >= a.config.maxInFlight) && a.bucket.tokens >= 1.0 && room > 0 {
      var t := Written(s, now);
      var b := a.(sends := t, bucket := Spent(a.bucket, s.queue[0].id, now));
      PumpedFromAdds(b, now, room - 1);
      AddsTwice(s, t, PumpedFrom(b, now, room - 1).sends, {Unanswered}, {Unanswered});
    }
  }

  lemma PumpedAdds(s: Sends, a: Agent, now: int, room: nat, hows: set<How>)
    requires Adds(s, a.sends, hows)
    ensures Adds(s, Pumped(a, now, room).sends, hows + {Unanswered})
  {
    hide PumpedFrom, Adds;
    var b := a.(bucket := Refilled(a.config, a.bucket, now));
    PumpedFromAdds(b, now, room);
    AddsTwice(s, a.sends, PumpedFrom(b, now, room).sends, hows, {Unanswered});
    AddsMore(s, a.sends, hows);
  }

  lemma AddsMore(s: Sends, t: Sends, hows: set<How>)
    requires Adds(s, t, hows)
    ensures Adds(s, t, hows + {Unanswered})
  {
  }

  /** How an event may settle a send. */
  function Verdicts(e: Event): set<How> {
    match e
    case Ack(key) => {Acked(key), Unanswered}
    case SendError(_, _, _) => {Rejected, Unanswered}
    case Tick => {Rejected, Unanswered}
    case Close(fatal) => if fatal then {Rejected, Unanswered} else {Unanswered}
    case Stop => {Rejected}
    case _ => {Unanswered}
  }

  /**
   * A send is resolved with an ack only at an ack, and only with the key that ack names; it is
   * rejected only at an error, at the expiry check, at a fatal close or at the stop; otherwise a
   * settlement is the one without an answer of a frame that needs none.
   */
  lemma SettlementsHaveACause(a: Agent, e: Event, now: int, room: nat)
    ensures Adds(a.sends, Apply(a, e, now, room).sends, Verdicts(e))
  {
    hide Pumped, QueueSwept, FlightSwept, AllRejected, Resent;
    var s := a.sends;
    match e
    case Enqueue(key, transient, _) =>
      PumpedAdds(s, a.(sends := Accepted(s, Request(key, transient, now), a.config.sendTimeoutMs)), now, room, {});
    case PumpTimer => PumpedAdds(s, a.(link := a.link.(pumpTimer := false)), now, room, {});
    case Welcome =>
      ResentAdds(s);
      PumpedAdds(s, a.(link := a.link.(connected := true), sends := Resent(s)), now, room, {});
    case Ack(key) => AnswerAdds(a, key, false, "", now, room);
    case SendError(key, retryable, code) => AnswerAdds(a, key, retryable, code, now, room);
    case RetryTimer(i) =>
      if i < |s.retrying| {
        PumpedAdds(s, a.(sends := RetryRequeued(s, i)), now, room, {});
      }
    case Tick =>
      var t := QueueSwept(s, |s.queue|, Overdue(now));
      QueueSweptAdds(s, |s.queue|, Overdue(now));
      FlightSweptAdds(a.config, a.link.connected, t, 0, now);
      var u := FlightSwept(a.config, a.link.connected, t, 0, now);
      AddsTwice(s, t, u, {Rejected}, {Rejected});
      PumpedAdds(s, a.(sends := u), now, room, {Rejected});
    case Close(fatal) =>
      var t := QueueSwept(s, |s.queue|, Transient);
      QueueSweptAdds(s, |s.queue|, Transient);
      AllRejectedAdds(t);
      AddsTwice(s, t, AllRejected(t), {Unanswered}, {Rejected});
    case Stop => AllRejectedAdds(s);
    case _ =>
  }

  lemma ResentAdds(s: Sends)
    ensures Adds(s, Resent(s), {})
  {
  }

  lemma AnswerAdds(a: Agent, key: Key, retryable: bool, code: string, now: int, room: nat)
    ensures Adds(a.sends, ApplyAck(a, key, now, room).sends, {Acked(key), Unanswered})
    ensures Adds(a.sends, ApplySendError(a, key, retryable, code, now, room).sends, {Rejected, Unanswered})
  {
    hide Pumped;
    var s, i := a.sends, KeyIndex(a.sends.inflight, key);
    if i < |s.inflight| {
      PumpedAdds(s, a.(sends := FlightSettled(s, i, Acked(key))), now, room, {Acked(key)});
      PumpedAdds(s, a.(sends := FlightSettled(s, i, Rejected)), now, room, {Rejected});
      PumpedAdds(s, a.(sends := FlightDelayed(s, i)), now, room, {Rejected});
    }
  }

  // ---------------------------------------------------------------------
  // What the sweeps leave
  // ---------------------------------------------------------------------

  function Staying(q: seq<Outgoing>, sweep: Sweep): seq<Outgoing> {
    if q == [] then []
    else
      var front := Staying(q[..|q| - 1], sweep);
      if Leaves(sweep, q[|q| - 1]) then front else front + [q[|q| - 1]]
  }

  /** Splicing from the end filters the queue and keeps its order. */
  lemma {:induction false} QueueSweptIsFilter(s: Sends, i: nat, sweep: Sweep)
    requires i <= |s.queue|
    ensures QueueSwept(s, i, sweep).queue == Staying(s.queue[..i], sweep) + s.queue[i..]
    decreases i
  {
    if i == 0 {
      assert Staying(s.queue[..0], sweep) + s.queue[0..] == s.queue;
    } else {
      var e, front := s.queue[i - 1], s.queue[..i - 1];
      assert s.queue[..i] == front + [e];
      StayingLast(front, e, sweep);
      var t := if Leaves(sweep, e) then QueueSettled(s, i - 1, Outcome(sweep)) else s;
      assert t.queue[..i - 1] == front;
      assert t.queue[i - 1..] == if Leaves(sweep, e) then s.queue[i..] else [e] + s.queue[i..];
      QueueSweptIsFilter(t, i - 1, sweep);
      hide Staying;
      AppendOne(Staying(front, sweep), e, s.queue[i..]);
    }
  }

  lemma StayingLast(front: seq<Outgoing>, e: Outgoing, sweep: Sweep)
    ensures Staying(front + [e], sweep) == if Leaves(sweep, e) then Staying(front, sweep) else Staying(front, sweep) + [e]
  {
    assert (front + [e])[..|front|] == front;
  }

  /** The sends of the window that are neither overdue nor late for their ack. */
  function OnTime(c: Config, connected: bool, q: seq<Outgoing>, now: int): seq<Outgoing> {
    if q == [] then []
    else
      var rest := OnTime(c, connected, q[1..], now);
      if q[0].deadline < now || (connected && now - q[0].sentAt > c.ackTimeoutMs) then rest else [q[0]] + rest
  }

  /** Those that are late but not overdue, the last one first. */
  function LateOnes(c: Config, connected: bool, q: seq<Outgoing>, now: int): seq<Outgoing> {
    if q == [] then []
    else
      var rest := LateOnes(c, connected, q[1..], now);
      if q[0].deadline >= now && (connected && now - q[0].sentAt > c.ackTimeoutMs) then rest + [q[0]] else rest
  }

  /** The expiry check keeps the sends that are on time and puts the late ones in front of the queue, in reverse. */
  lemma {:induction false} FlightSweptIsFilter(c: Config, connected: bool, s: Sends, i: nat, now: int)
    requires i <= |s.inflight|
    ensures var t := FlightSwept(c, connected, s, i, now);
      && t.inflight == s.inflight[..i] + OnTime(c, connected, s.inflight[i..], now)
      && t.queue == LateOnes(c, connected, s.inflight[i..], now) + s.queue
    decreases |s.inflight| - i
  {
    if i < |s.inflight| {
      var e, tail := s.inflight[i], s.inflight[i..];
      assert tail[0] == e && tail[1..] == s.inflight[i + 1..];
      if e.deadline < now {
        var t := FlightSettled(s, i, Rejected);
        assert t.inflight[..i] == s.inflight[..i] && t.inflight[i..] == tail[1..];
        FlightSweptIsFilter(c, connected, t, i, now);
      } else if AckLate(c, connected, e, now) {
        var t := FlightRequeued(s, i);
        assert t.inflight[..i] == s.inflight[..i] && t.inflight[i..] == tail[1..];
        FlightSweptIsFilter(c, connected, t, i, now);
        assert LateOnes(c, connected, tail[1..], now) + ([e] + s.queue) == LateOnes(c, connected, tail[1..], now) + [e] + s.queue;
      } else {
        FlightSweptIsFilter(c, connected, s, i + 1, now);
        assert s.inflight[..i + 1] == s.inflight[..i] + [e];
      }
    }
  }
}
