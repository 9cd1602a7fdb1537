/** In which order the sends of the agent go out, and what the fields of a waiting send tell. */
module AgentOrder {
  import opened Prefix
  import opened AgentSends
  import opened AgentConservation

  // ---------------------------------------------------------------------
  // The wire
  // ---------------------------------------------------------------------

  /** How often a send was written. */
  function Times(wire: seq<Write>, n: nat): nat {
    if wire == [] then 0 else Times(wire[..|wire| - 1], n) + One(wire[|wire| - 1].id == n)
  }

  /** When it was written last. */
  function LastAt(wire: seq<Write>, n: nat): int {
    if wire == [] then 0
    else if wire[|wire| - 1].id == n then wire[|wire| - 1].at
    else LastAt(wire[..|wire| - 1], n)
  }

  /** The largest send on the wire. */
  function Top(wire: seq<Write>): int {
    if wire == [] then -1 else Max(Top(wire[..|wire| - 1]), wire[|wire| - 1].id)
  }

  /** The send was not written before. */
  ghost predicate IsFirst(wire: seq<Write>, i: int) {
    0 <= i < |wire| && forall j :: 0 <= j < i ==> wire[j].id != wire[i].id
  }

  /** Sends are written for the first time in the order in which they were accepted. */
  ghost predicate FirstsAscend(wire: seq<Write>) {
    forall i, j :: i < j && IsFirst(wire, i) && IsFirst(wire, j) ==> wire[i].id < wire[j].id
  }

  lemma WireOneMore(wire: seq<Write>, w: Write, n: nat)
    ensures var all := wire + [w];
      && Times(all, n) == Times(wire, n) + One(w.id == n)
      && LastAt(all, n) == (if w.id == n then w.at else LastAt(wire, n))
      && Top(all) == Max(Top(wire), w.id)
  {
    assert (wire + [w])[..|wire|] == wire;
  }

  lemma {:induction false} TimesIff(wire: seq<Write>, n: nat)
    ensures Times(wire, n) > 0 <==> exists i :: 0 <= i < |wire| && wire[i].id == n
    ensures Times(wire, n) > 0 ==> n <= Top(wire)
  {
    if wire != [] {
      var front := wire[..|wire| - 1];
      TimesIff(front, n);
      if Times(front, n) > 0 {
        var i :| 0 <= i < |front| && front[i].id == n;
        assert wire[i].id == n;
      }
    }
  }

  lemma {:induction false} TopBounds(wire: seq<Write>)
    ensures forall i :: 0 <= i < |wire| ==> wire[i].id <= Top(wire)
  {
    if wire != [] {
      TopBounds(wire[..|wire| - 1]);
    }
  }

  lemma StaysFirst(wire: seq<Write>, w: Write, i: int)
    ensures i < |wire| ==> (IsFirst(wire + [w], i) <==> IsFirst(wire, i))
    ensures IsFirst(wire + [w], |wire|) <==> forall j :: 0 <= j < |wire| ==> wire[j].id != w.id
  {
    var all := wire + [w];
    assert forall j :: 0 <= j < |wire| ==> all[j] == wire[j];
  }

  lemma FirstsGrow(wire: seq<Write>, w: Write)
    requires FirstsAscend(wire) && (Times(wire, w.id) > 0 || Top(wire) < w.id)
    ensures FirstsAscend(wire + [w])
  {
    hide Times, Top;
    var all := wire + [w];
    TimesIff(wire, w.id);
    TopBounds(wire);
    forall i, j | i < j && IsFirst(all, i) && IsFirst(all, j)
      ensures all[i].id < all[j].id
    {
      hide IsFirst;
      StaysFirst(wire, w, i);
      StaysFirst(wire, w, j);
      FirstIsThere(all, i);
      FirstIsThere(all, j);
    }
  }

  lemma FirstIsThere(wire: seq<Write>, i: int)
    ensures IsFirst(wire, i) ==> 0 <= i < |wire|
  {
  }

  // ---------------------------------------------------------------------
  // What holds of the waiting sends
  // ---------------------------------------------------------------------

  /** The sends of the queue that were never written have increasing ids, above `lo`. */
  predicate Ascends(q: seq<Outgoing>, lo: int) {
    if q == [] then true
    else if q[0].attempts == 0 then lo < q[0].id && Ascends(q[1..], q[0].id)
    else Ascends(q[1..], lo)
  }

  /** The fields are those of the request; the attempts count the writes, and the time is that of the last one. */
  predicate Truthful(e: Outgoing, accepted: seq<Request>, wire: seq<Write>, timeoutMs: int) {
    && e.id < |accepted| && accepted[e.id] == Request(e.key, e.transient, e.deadline - timeoutMs)
    && e.attempts == Times(wire, e.id) && (e.attempts > 0 ==> e.sentAt == LastAt(wire, e.id))
  }

  ghost predicate AllTruthful(q: seq<Outgoing>, accepted: seq<Request>, wire: seq<Write>, timeoutMs: int) {
    forall i :: 0 <= i < |q| ==> Truthful(q[i], accepted, wire, timeoutMs)
  }

  ghost predicate AllWritten(q: seq<Outgoing>) {
    forall i :: 0 <= i < |q| ==> q[i].attempts > 0
  }

  /** In how many places a send waits. */
  function Waits(s: Sends, n: nat): nat {
    Held(s.queue, n) + Held(s.inflight, n) + Held(s.retrying, n)
  }

  ghost predicate Unique(s: Sends) {
    forall n: nat :: Waits(s, n) <= if n < |s.accepted| then 1 else 0
  }

  ghost predicate Fine(s: Sends, wire: seq<Write>, timeoutMs: int) {
    && Unique(s)
    && AllTruthful(s.queue, s.accepted, wire, timeoutMs)
    && AllTruthful(s.inflight, s.accepted, wire, timeoutMs) && AllTruthful(s.retrying, s.accepted, wire, timeoutMs)
    && AllWritten(s.inflight) && AllWritten(s.retrying)
    && Ascends(s.queue, Top(wire)) && FirstsAscend(wire) && Top(wire) < |s.accepted|
  }

  lemma {:induction false} AscendsBelow(q: seq<Outgoing>, lo: int, hi: int)
    requires Ascends(q, hi) && lo <= hi
    ensures Ascends(q, lo)
    decreases |q|
  {
    if q != [] && q[0].attempts > 0 {
      AscendsBelow(q[1..], lo, hi);
    }
  }

  lemma {:induction false} AscendsWithout(q: seq<Outgoing>, lo: int, i: nat)
    requires Ascends(q, lo) && i < |q|
    ensures Ascends(Without(q, i), lo)
    decreases |q|
  {
    var r := Without(q, i);
    if i == 0 {
      assert r == q[1..];
      if q[0].attempts == 0 {
        AscendsBelow(q[1..], lo, q[0].id);
      }
    } else {
      assert r[0] == q[0] && r[1..] == Without(q[1..], i - 1);
      AscendsWithout(q[1..], if q[0].attempts == 0 then q[0].id else lo, i - 1);
    }
  }

  lemma {:induction false} AscendsAfterWritten(p: seq<Outgoing>, q: seq<Outgoing>, lo: int)
    requires AllWritten(p) && Ascends(q, lo)
    ensures Ascends(p + q, lo)
    decreases |p|
  {
    if p == [] {
      assert p + q == q;
    } else {
      assert (p + q)[1..] == p[1..] + q;
      AscendsAfterWritten(p[1..], q, lo);
    }
  }

  lemma {:induction false} AscendsWithLast(q: seq<Outgoing>, lo: int, e: Outgoing)
    requires Ascends(q, lo) && e.attempts == 0 && lo < e.id && forall i :: 0 <= i < |q| ==> q[i].id < e.id
    ensures Ascends(q + [e], lo)
    decreases |q|
  {
    if q == [] {
      assert q + [e] == [e] && [e][1..] == [];
    } else {
      assert (q + [e])[1..] == q[1..] + [e];
      AscendsWithLast(q[1..], if q[0].attempts == 0 then q[0].id else lo, e);
    }
  }

  lemma WithoutTruthful(q: seq<Outgoing>, i: nat, accepted: seq<Request>, wire: seq<Write>, timeoutMs: int)
    requires i < |q|
    ensures AllTruthful(q, accepted, wire, timeoutMs) ==> AllTruthful(Without(q, i), accepted, wire, timeoutMs)
    ensures AllWritten(q) ==> AllWritten(Without(q, i))
  {
    var r := Without(q, i);
    assert forall j :: 0 <= j < |r| ==> r[j] == if j < i then q[j] else q[j + 1];
  }

  // ---------------------------------------------------------------------
  // One send moves
  // ---------------------------------------------------------------------

  const ANY := Key("", "")

  lemma QueueSettledIsFine(s: Sends, i: nat, how: How, wire: seq<Write>, timeoutMs: int)
    requires Fine(s, wire, timeoutMs) && i < |s.queue|
    ensures Fine(QueueSettled(s, i, how), wire, timeoutMs)
  {
    hide Held, Without, Truthful, FirstsAscend, Ascends;
    var t := QueueSettled(s, i, how);
    forall n: nat
      ensures Waits(t, n) <= if n < |t.accepted| then 1 else 0
    {
      CountWithout(s.queue, i, n, ANY);
      assert Waits(s, n) <= if n < |s.accepted| then 1 else 0;
    }
    WithoutTruthful(s.queue, i, s.accepted, wire, timeoutMs);
    AscendsWithout(s.queue, Top(wire), i);
  }

  lemma FlightSettledIsFine(s: Sends, i: nat, how: How, wire: seq<Write>, timeoutMs: int)
    requires Fine(s, wire, timeoutMs) && i < |s.inflight|
    ensures Fine(FlightSettled(s, i, how), wire, timeoutMs)
  {
    hide Held, Without, Truthful, FirstsAscend, Ascends;
    var t := FlightSettled(s, i, how);
    forall n: nat
      ensures Waits(t, n) <= if n < |t.accepted| then 1 else 0
    {
      CountWithout(s.inflight, i, n, ANY);
      assert Waits(s, n) <= if n < |s.accepted| then 1 else 0;
    }
    WithoutTruthful(s.inflight, i, s.accepted, wire, timeoutMs);
  }

  lemma FlightMovedIsFine(s: Sends, i: nat, wire: seq<Write>, timeoutMs: int)
    requires Fine(s, wire, timeoutMs) && i < |s.inflight|
    ensures Fine(FlightRequeued(s, i), wire, timeoutMs) && Fine(FlightDelayed(s, i), wire, timeoutMs)
  {
    hide Held, Without, Truthful, FirstsAscend, Ascends;
    var t, u, e := FlightRequeued(s, i), FlightDelayed(s, i), s.inflight[i];
    forall n: nat
      ensures Waits(t, n) <= (if n < |s.accepted| then 1 else 0) && Waits(u, n) <= if n < |s.accepted| then 1 else 0
    {
      CountWithout(s.inflight, i, n, ANY);
      CountFirst(e, s.queue, n, ANY);
      CountLast(s.retrying, e, n, ANY);
      assert Waits(s, n) <= if n < |s.accepted| then 1 else 0;
    }
    WithoutTruthful(s.inflight, i, s.accepted, wire, timeoutMs);
    assert Truthful(e, s.accepted, wire, timeoutMs) && AllWritten([e]);
    AscendsAfterWritten([e], s.queue, Top(wire));
  }

  lemma RetryMovedIsFine(s: Sends, i: nat, wire: seq<Write>, timeoutMs: int)
    requires Fine(s, wire, timeoutMs) && i < |s.retrying|
    ensures Fine(RetryRequeued(s, i), wire, timeoutMs) && Fine(RetryDropped(s, i), wire, timeoutMs)
  {
    hide Held, Without, Truthful, FirstsAscend, Ascends;
    var t, u, e := RetryRequeued(s, i), RetryDropped(s, i), s.retrying[i];
    forall n: nat
      ensures Waits(t, n) <= (if n < |s.accepted| then 1 else 0) && Waits(u, n) <= if n < |s.accepted| then 1 else 0
    {
      CountWithout(s.retrying, i, n, ANY);
      CountFirst(e, s.queue, n, ANY);
      assert Waits(s, n) <= if n < |s.accepted| then 1 else 0;
    }
    WithoutTruthful(s.retrying, i, s.accepted, wire, timeoutMs);
    assert Truthful(e, s.accepted, wire, timeoutMs) && AllWritten([e]);
    AscendsAfterWritten([e], s.queue, Top(wire));
  }

  /** A later request leaves the earlier ones as they were. */
  lemma StaysTruthful(q: seq<Outgoing>, accepted: seq<Request>, r: Request, wire: seq<Write>, timeoutMs: int)
    requires AllTruthful(q, accepted, wire, timeoutMs)
    ensures AllTruthful(q, accepted + [r], wire, timeoutMs)
  {
  }

  lemma AcceptedIsFine(s: Sends, r: Request, wire: seq<Write>, timeoutMs: int)
    requires Fine(s, wire, timeoutMs)
    ensures Fine(Accepted(s, r, timeoutMs), wire, timeoutMs)
  {
    hide Held, FirstsAscend, Ascends;
    var t := Accepted(s, r, timeoutMs);
    var e := t.queue[|s.queue|];
    forall n: nat
      ensures Waits(t, n) <= if n < |t.accepted| then 1 else 0
    {
      CountLast(s.queue, e, n, ANY);
      assert Waits(s, n) <= if n < |s.accepted| then 1 else 0;
    }
    StaysTruthful(s.queue, s.accepted, r, wire, timeoutMs);
    StaysTruthful(s.inflight, s.accepted, r, wire, timeoutMs);
    StaysTruthful(s.retrying, s.accepted, r, wire, timeoutMs);
    TimesIff(wire, e.id);
    AscendsWithLast(s.queue, Top(wire), e);
  }

  lemma ResentIsUnique(s: Sends, n: nat)
    requires Unique(s)
    ensures Waits(Resent(s), n) <= if n < |s.accepted| then 1 else 0
  {
    hide Held, BySentAt;
    BySentAtCounts(s.inflight, n, ANY);
    CountAppend(BySentAt(s.inflight), s.queue, n, ANY);
    NoneHeld(n);
    assert Waits(s, n) <= if n < |s.accepted| then 1 else 0;
  }

  lemma SortedIsTruthful(s: Sends, wire: seq<Write>, timeoutMs: int)
    requires AllTruthful(s.inflight, s.accepted, wire, timeoutMs) && AllWritten(s.inflight)
    ensures AllTruthful(BySentAt(s.inflight), s.accepted, wire, timeoutMs) && AllWritten(BySentAt(s.inflight))
  {
    hide Truthful, BySentAt;
    var again := BySentAt(s.inflight);
    BySentAtHolds(s.inflight);
    forall i | 0 <= i < |again|
      ensures again[i].attempts > 0 && Truthful(again[i], s.accepted, wire, timeoutMs)
    {
      assert BySentAt(s.inflight)[i] in s.inflight;
      var j :| 0 <= j < |s.inflight| && s.inflight[j] == again[i];
    }
  }

  lemma ResentIsFine(s: Sends, wire: seq<Write>, timeoutMs: int)
    requires Fine(s, wire, timeoutMs)
    ensures Fine(Resent(s), wire, timeoutMs)
  {
    hide Held, Truthful, FirstsAscend, Ascends, BySentAt, Waits;
    forall n: nat
      ensures Waits(Resent(s), n) <= if n < |s.accepted| then 1 else 0
    {
      ResentIsUnique(s, n);
    }
    SortedIsTruthful(s, wire, timeoutMs);
    AscendsAfterWritten(BySentAt(s.inflight), s.queue, Top(wire));
  }

  lemma NoneHeld(n: nat)
    ensures Held([], n) == 0
  {
  }

  lemma {:induction false} HeldAt(q: seq<Outgoing>, i: nat)
    requires i < |q|
    ensures Held(q, q[i].id) > 0
  {
    if i > 0 {
      HeldAt(q[1..], i - 1);
    }
  }

  /** Writing another send changes nothing for this one. */
  lemma WriteKeepsTruthful(q: seq<Outgoing>, accepted: seq<Request>, wire: seq<Write>, w: Write, timeoutMs: int)
    requires AllTruthful(q, accepted, wire, timeoutMs) && Held(q, w.id) == 0
    ensures AllTruthful(q, accepted, wire + [w], timeoutMs)
  {
    forall i | 0 <= i < |q|
      ensures Truthful(q[i], accepted, wire + [w], timeoutMs)
    {
      HeldAt(q, i);
      WireOneMore(wire, w, q[i].id);
    }
  }

  lemma PutCounts(q: seq<Outgoing>, e: Outgoing, n: nat)
    requires e.key.Some?
    ensures Held(Put(q, e), n) <= Held(q, n) + One(e.id == n)
  {
    hide KeyIndex;
    var i := KeyIndex(q, e.key.value);
    if i < |q| {
      CountWithout(q, i, n, ANY);
      CountWithout(q[i := e], i, n, ANY);
      assert Without(q[i := e], i) == Without(q, i);
    } else {
      CountLast(q, e, n, ANY);
    }
  }

  lemma PutTruthful(q: seq<Outgoing>, e: Outgoing, accepted: seq<Request>, wire: seq<Write>, timeoutMs: int)
    requires e.key.Some? && AllTruthful(q, accepted, wire, timeoutMs) && Truthful(e, accepted, wire, timeoutMs)
    requires AllWritten(q) && e.attempts > 0
    ensures AllTruthful(Put(q, e), accepted, wire, timeoutMs) && AllWritten(Put(q, e))
  {
    hide KeyIndex, Truthful;
  }

  lemma WrittenIsUnique(s: Sends, now: int, n: nat)
    requires Unique(s) && s.queue != []
    ensures Waits(Written(s, now), n) <= if n < |s.accepted| then 1 else 0
  {
    hide Put, Held;
    var e := s.queue[0].(attempts := s.queue[0].attempts + 1, sentAt := now);
    assert s.queue == [s.queue[0]] + s.queue[1..];
    CountFirst(s.queue[0], s.queue[1..], n, ANY);
    if e.key.Some? {
      PutCounts(s.inflight, e, n);
    }
    assert Waits(s, n) <= if n < |s.accepted| then 1 else 0;
  }

  /** The send that goes out is written once more, and is the first with its number unless it was before. */
  lemma HeadIsTruthful(s: Sends, wire: seq<Write>, now: int, timeoutMs: int)
    requires Fine(s, wire, timeoutMs) && s.queue != []
    ensures var all := wire + [Write(s.queue[0].id, now)];
      && Truthful(s.queue[0].(attempts := s.queue[0].attempts + 1, sentAt := now), s.accepted, all, timeoutMs)
      && Ascends(s.queue[1..], Top(all)) && FirstsAscend(all) && Top(all) < |s.accepted|
  {
    hide FirstsAscend, Unique;
    var head, w := s.queue[0], Write(s.queue[0].id, now);
    assert Truthful(head, s.accepted, wire, timeoutMs);
    WireOneMore(wire, w, head.id);
    hide Times, Top, LastAt, Held;
    TimesIff(wire, head.id);
    FirstsGrow(wire, w);
  }

  lemma HeadIsAlone(s: Sends)
    requires Unique(s) && s.queue != []
    ensures var n := s.queue[0].id; Held(s.queue[1..], n) == 0 && Held(s.inflight, n) == 0 && Held(s.retrying, n) == 0
  {
    assert Waits(s, s.queue[0].id) <= 1;
  }

  lemma RestIsTruthful(s: Sends, wire: seq<Write>, now: int, timeoutMs: int)
    requires Fine(s, wire, timeoutMs) && s.queue != []
    ensures var all := wire + [Write(s.queue[0].id, now)];
      && AllTruthful(s.queue[1..], s.accepted, all, timeoutMs)
      && AllTruthful(s.inflight, s.accepted, all, timeoutMs) && AllTruthful(s.retrying, s.accepted, all, timeoutMs)
  {
    hide FirstsAscend, Ascends, Times, Top, LastAt, Held, Truthful, Unique;
    var w := Write(s.queue[0].id, now);
    HeadIsAlone(s);
    WriteKeepsTruthful(s.queue[1..], s.accepted, wire, w, timeoutMs);
    WriteKeepsTruthful(s.inflight, s.accepted, wire, w, timeoutMs);
    WriteKeepsTruthful(s.retrying, s.accepted, wire, w, timeoutMs);
  }

  lemma WrittenIsFine(s: Sends, wire: seq<Write>, now: int, timeoutMs: int)
    requires Fine(s, wire, timeoutMs) && s.queue != []
    ensures Fine(Written(s, now), wire + [Write(s.queue[0].id, now)], timeoutMs)
  {
    hide FirstsAscend, Ascends, Times, Top, LastAt, Held, Truthful, Put, Waits;
    var e := s.queue[0].(attempts := s.queue[0].attempts + 1, sentAt := now);
    HeadIsTruthful(s, wire, now, timeoutMs);
    RestIsTruthful(s, wire, now, timeoutMs);
    if e.key.Some? {
      PutTruthful(s.inflight, e, s.accepted, wire + [Write(s.queue[0].id, now)], timeoutMs);
    }
    forall n: nat
      ensures Waits(Written(s, now), n) <= if n < |s.accepted| then 1 else 0
    {
      WrittenIsUnique(s, now, n);
    }
  }

  // ---------------------------------------------------------------------
  // Several move
  // ---------------------------------------------------------------------

  lemma {:induction false} QueueSweptIsFine(s: Sends, i: nat, sweep: Sweep, wire: seq<Write>, timeoutMs: int)
    requires Fine(s, wire, timeoutMs) && i <= |s.queue|
    ensures Fine(QueueSwept(s, i, sweep), wire, timeoutMs)
    decreases i
  {
    hide Fine;
    if i > 0 {
      QueueSettledIsFine(s, i - 1, Outcome(sweep), wire, timeoutMs);
      QueueSweptIsFine(if Leaves(sweep, s.queue[i - 1]) then QueueSettled(s, i - 1, Outcome(sweep)) else s, i - 1, sweep, wire, timeoutMs);
    }
  }

  lemma {:induction false} FlightSweptIsFine(c: Config, connected: bool, s: Sends, i: nat, now: int, wire: seq<Write>, timeoutMs: int)
    requires Fine(s, wire, timeoutMs) && i <= |s.inflight|
    ensures Fine(FlightSwept(c, connected, s, i, now), wire, timeoutMs)
    decreases |s.inflight| - i
  {
    hide Fine;
    if i < |s.inflight| {
      FlightSettledIsFine(s, i, Rejected, wire, timeoutMs);
      FlightMovedIsFine(s, i, wire, timeoutMs);
      if s.inflight[i].deadline < now {
        FlightSweptIsFine(c, connected, FlightSettled(s, i, Rejected), i, now, wire, timeoutMs);
      } else if AckLate(c, connected, s.inflight[i], now) {
        FlightSweptIsFine(c, connected, FlightRequeued(s, i), i, now, wire, timeoutMs);
      } else {
        FlightSweptIsFine(c, connected, s, i + 1, now, wire, timeoutMs);
      }
    }
  }

  lemma {:induction false} AllRejectedIsFine(s: Sends, wire: seq<Write>, timeoutMs: int)
    requires Fine(s, wire, timeoutMs)
    ensures Fine(AllRejected(s), wire, timeoutMs)
    decreases |s.queue| + |s.inflight|
  {
    hide Fine;
    if s.queue != [] {
      QueueSettledIsFine(s, 0, Rejected, wire, timeoutMs);
      AllRejectedIsFine(QueueSettled(s, 0, Rejected), wire, timeoutMs);
    } else if s.inflight != [] {
      FlightSettledIsFine(s, 0, Rejected, wire, timeoutMs);
      AllRejectedIsFine(FlightSettled(s, 0, Rejected), wire, timeoutMs);
    }
  }

  ghost predicate Sound(a: Agent) {
    Fine(a.sends, a.bucket.wire, a.config.sendTimeoutMs)
  }

  lemma {:induction false} PumpedFromIsSound(a: Agent, now: int, room: nat)
    requires Sound(a)
    ensures Sound(PumpedFrom(a, now, room)) && PumpedFrom(a, now, room).config == a.config
    decreases |a.sends.queue|
  {
    hide Fine, Written;
    var s := a.sends;
    if s.queue != [] && !(s.queue[0].key.Some? && |s.inflight| >= a.config.maxInFlight) && a.bucket.tokens >= 1.0 && room > 0 {
      WrittenIsFine(s, a.bucket.wire, now, a.config.sendTimeoutMs);
      assert |Written(s, now).queue| < |s.queue| by {
        WrittenIsShorter(s, now);
      }
      PumpedFromIsSound(a.(sends := Written(s, now), bucket := Spent(a.bucket, s.queue[0].id, now)), now, room - 1);
    }
  }

  lemma WrittenIsShorter(s: Sends, now: int)
    requires s.queue != []
    ensures Written(s, now).queue == s.queue[1..]
  {
  }

  lemma PumpedIsSound(a: Agent, now: int, room: nat)
    requires Sound(a)
    ensures Sound(Pumped(a, now, room)) && Pumped(a, now, room).config == a.config
  {
    hide Fine, PumpedFrom;
    PumpedFromIsSound(a.(bucket := Refilled(a.config, a.bucket, now)), now, room);
  }

  lemma AnswerIsSound(a: Agent, key: Key, retryable: bool, code: string, now: int, room: nat)
    requires Sound(a)
    ensures Sound(ApplyAck(a, key, now, room)) && ApplyAck(a, key, now, room).config == a.config
    ensures Sound(ApplySendError(a, key, retryable, code, now, room)) && ApplySendError(a, key, retryable, code, now, room).config == a.config
  {
    hide Fine, Pumped;
    var s, i := a.sends, KeyIndex(a.sends.inflight, key);
    if i < |s.inflight| {
      FlightSettledIsFine(s, i, Acked(key), a.bucket.wire, a.config.sendTimeoutMs);
      FlightSettledIsFine(s, i, Rejected, a.bucket.wire, a.config.sendTimeoutMs);
      FlightMovedIsFine(s, i, a.bucket.wire, a.config.sendTimeoutMs);
      PumpedIsSound(a.(sends := FlightSettled(s, i, Acked(key))), now, room);
      PumpedIsSound(a.(sends := FlightSettled(s, i, Rejected)), now, room);
      PumpedIsSound(a.(sends := FlightDelayed(s, i)), now, room);
    }
  }

  lemma EventIsSound(a: Agent, e: Event, now: int, room: nat)
    requires Sound(a)
    ensures Sound(Apply(a, e, now, room)) && Apply(a, e, now, room).config == a.config
  {
    hide Fine, Pumped, QueueSwept, FlightSwept, AllRejected, Resent, Accepted, ApplyAck, ApplySendError;
    var s, wire, timeoutMs := a.sends, a.bucket.wire, a.config.sendTimeoutMs;
    match e
    case Enqueue(key, transient, _) =>
      AcceptedIsFine(s, Request(key, transient, now), wire, timeoutMs);
      PumpedIsSound(a.(sends := Accepted(s, Request(key, transient, now), timeoutMs)), now, room);
    case PumpTimer => PumpedIsSound(a.(link := a.link.(pumpTimer := false)), now, room);
    case Welcome =>
      ResentIsFine(s, wire, timeoutMs);
      PumpedIsSound(a.(link := a.link.(connected := true), sends := Resent(s)), now, room);
    case Ack(key) => AnswerIsSound(a, key, false, "", now, room);
    case SendError(key, retryable, code) => AnswerIsSound(a, key, retryable, code, now, room);
    case RetryTimer(i) =>
      if i < |s.retrying| {
        RetryMovedIsFine(s, i, wire, timeoutMs);
        PumpedIsSound(a.(sends := RetryRequeued(s, i)), now, room);
      }
    case Tick =>
      var t := QueueSwept(s, |s.queue|, Overdue(now));
      QueueSweptIsFine(s, |s.queue|, Overdue(now), wire, timeoutMs);
      FlightSweptIsFine(a.config, a.link.connected, t, 0, now, wire, timeoutMs);
      PumpedIsSound(a.(sends := FlightSwept(a.config, a.link.connected, t, 0, now)), now, room);
    case Close(_) =>
      QueueSweptIsFine(s, |s.queue|, Transient, wire, timeoutMs);
      AllRejectedIsFine(QueueSwept(s, |s.queue|, Transient), wire, timeoutMs);
    case Stop => AllRejectedIsFine(s, wire, timeoutMs);
    case _ =>
  }

  lemma {:induction false} RunIsSound(a: Agent, es: seq<Timed>)
    requires Sound(a)
    ensures Sound(Run(a, es)) && Run(a, es).config == a.config
    decreases |es|
  {
    hide Sound, Apply;
    if es != [] {
      EventIsSound(a, es[0].event, es[0].now, es[0].room);
      RunIsSound(Apply(a, es[0].event, es[0].now, es[0].room), es[1..]);
    }
  }

  lemma {:induction false} AscendsInOrder(q: seq<Outgoing>, lo: int)
    requires Ascends(q, lo)
    ensures forall i :: 0 <= i < |q| && q[i].attempts == 0 ==> lo < q[i].id
    ensures forall i, j :: 0 <= i < j < |q| && q[i].attempts == 0 && q[j].attempts == 0 ==> q[i].id < q[j].id
    decreases |q|
  {
    if q != [] {
      AscendsInOrder(q[1..], if q[0].attempts == 0 then q[0].id else lo);
      assert forall i :: 1 <= i < |q| ==> q[i] == q[1..][i - 1];
    }
  }

  /**
   * In every run, whatever keys are used: sends are written for the first time in the order in which
   * they were accepted; those in the queue that were never written are in that order, after all that
   * were; and a send that waits anywhere has the key, the kind and the deadline of its request, has
   * been attempted as often as it was written, and carries the time of the last time.
   */
  lemma FirstWritesInOrder(config: Config, start: int, es: seq<Timed>)
    ensures var a := Run(Started(config, start), es);
      var (s, wire) := (a.sends, a.bucket.wire);
      && FirstsAscend(wire)
      && (forall i, j :: 0 <= i < j < |s.queue| && s.queue[i].attempts == 0 && s.queue[j].attempts == 0 ==> s.queue[i].id < s.queue[j].id)
      && (forall i, j :: 0 <= i < |wire| && 0 <= j < |s.queue| && s.queue[j].attempts == 0 ==> wire[i].id < s.queue[j].id)
      && AllTruthful(s.queue, s.accepted, wire, config.sendTimeoutMs)
      && AllTruthful(s.inflight, s.accepted, wire, config.sendTimeoutMs) && AllTruthful(s.retrying, s.accepted, wire, config.sendTimeoutMs)
  {
    hide Run;
    RunIsSound(Started(config, start), es);
    var a := Run(Started(config, start), es);
    AscendsInOrder(a.sends.queue, Top(a.bucket.wire));
    TopBounds(a.bucket.wire);
  }
}
