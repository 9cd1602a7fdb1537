/**
 * What each event means for the sends of the TypeScript session: which are accepted, written, delayed
 * and settled, in which order they wait, and what their callers are told.
 */
module ConversationCalls {
  import opened Prefix
  import opened Outbox
  import opened ConversationProtocol
  import opened ConversationReceive
  import opened ConversationSend
  import opened ConversationClaims

  // ---------------------------------------------------------------------
  // A flush
  // ---------------------------------------------------------------------

  /** How many entries a flush tries: one more than the transport takes, if the window has room for it. */
  function Tries(c: Client, env: Env): nat {
    var free := c.window.maxInFlight - |c.window.inFlight|;
    if free <= 0 then 0 else if free <= env.room then free else env.room + 1
  }

  function Attempted(es: seq<Entry>, ids: set<string>): seq<Entry> {
    seq(|es|, i requires 0 <= i < |es| => if es[i].clientId in ids then es[i].(attempts := es[i].attempts + 1) else es[i])
  }

  lemma AttemptedFirst(e: Entry, rest: seq<Entry>, ids: set<string>)
    ensures Attempted([e] + rest, ids) ==
      [if e.clientId in ids then e.(attempts := e.attempts + 1) else e] + Attempted(rest, ids)
  {
  }

  lemma AttemptedOthers(es: seq<Entry>, id: string, ids: set<string>)
    requires id !in Ids(es)
    ensures Attempted(es, {id} + ids) == Attempted(es, ids)
  {
    forall i | 0 <= i < |es|
      ensures es[i].clientId != id
    {
      assert es[i] in es;
    }
  }

  lemma IdsFirst(e: Entry, rest: seq<Entry>)
    ensures Ids([e] + rest) == {e.clientId} + Ids(rest)
  {
    var all := [e] + rest;
    assert all[0] == e;
    assert forall x :: x in all <==> x == e || x in rest;
  }

  lemma {:induction false} DueAreEntries(es: seq<Entry>, c: Client, now: int)
    ensures forall e :: e in DueEntries(es, c, now) ==> e in es
  {
    if es != [] {
      DueAreEntries(es[1..], c, now);
    }
  }

  lemma TakenAreEntries(es: seq<Entry>, c: Client, now: int, k: nat)
    ensures Ids(Take(DueEntries(es, c, now), k)) <= Ids(es)
  {
    hide DueEntries;
    DueAreEntries(es, c, now);
    var due := DueEntries(es, c, now);
    assert forall e :: e in Take(due, k) ==> e in due;
    assert forall e :: e in Take(due, k) ==> e.clientId in Ids(es);
  }

  lemma TouchedAt(s: Store, i: nat)
    requires i < |s.entries| && Distinct(s.entries)
    ensures var e := s.entries[i]; Touched(s, e.clientId).entries == s.entries[i := e.(attempts := e.attempts + 1)]
    ensures Touched(s, s.entries[i].clientId).state == s.state
  {
    var k := IndexOf(s.entries, s.entries[i].clientId);
    assert s.entries[i] in s.entries;
    assert k == i;
  }

  /** What a flush from the `i`th entry on leaves behind. */
  ghost predicate FlushedInto(c: Client, i: nat, d: Client, env: Env)
    requires i <= |c.store.entries|
  {
    var due := DueEntries(c.store.entries[i..], c, env.now);
    var written := Ids(Take(due, Slots(c, env)));
    && d.window == c.window.(inFlight := c.window.inFlight + written, retryAt := c.window.retryAt - Ids(Take(due, Tries(c, env))))
    && d.store.entries == c.store.entries[..i] + Attempted(c.store.entries[i..], written)
    && d.store.state == c.store.state
  }

  lemma LaterIsOther(es: seq<Entry>, i: nat)
    requires i < |es| && Distinct(es)
    ensures es[i].clientId !in Ids(es[i + 1..]) && es[i..] == [es[i]] + es[i + 1..]
  {
    forall e | e in es[i + 1..]
      ensures e.clientId != es[i].clientId
    {
      var j :| 0 <= j < |es[i + 1..]| && es[i + 1..][j] == e;
      assert es[i + 1 + j] == e;
    }
  }

  lemma FlushedPastDue(c: Client, i: nat, d: Client, env: Env)
    requires i < |c.store.entries| && Distinct(c.store.entries) && !Due(c, c.store.entries[i], env.now)
    requires FlushedInto(c, i + 1, d, env)
    ensures FlushedInto(c, i, d, env)
  {
    var es, e := c.store.entries, c.store.entries[i];
    LaterIsOther(es, i);
    DueAt(c, i, env.now);
    hide DueEntries, Due, Attempted, Ids;
    TakenAreEntries(es[i + 1..], c, env.now, Slots(c, env));
    var written := Ids(Take(DueEntries(es[i + 1..], c, env.now), Slots(c, env)));
    AttemptedFirst(e, es[i + 1..], written);
    assert es[..i + 1] == es[..i] + [e];
    AppendOne(es[..i], e, Attempted(es[i + 1..], written));
  }

  /** The session after writing the entry at `i`. */
  lemma OneWritten(c: Client, i: nat, env: Env)
    requires i < |c.store.entries| && Distinct(c.store.entries) && env.room > 0
    requires |c.window.inFlight| < c.window.maxInFlight && Due(c, c.store.entries[i], env.now)
    ensures var (es, e, less) := (c.store.entries, c.store.entries[i], env.(room := env.room - 1));
      var next := WrittenOnce(c, e);
      && next.window == c.window.(inFlight := c.window.inFlight + {e.clientId}, retryAt := c.window.retryAt - {e.clientId})
      && next.store.entries == es[i := e.(attempts := e.attempts + 1)] && next.store.state == c.store.state
      && Slots(next, less) == Slots(c, env) - 1 && Tries(next, less) == Tries(c, env) - 1
      && DueEntries(es[i..], c, env.now) == [e] + DueEntries(es[i + 1..], c, env.now)
      && DueEntries(es[i + 1..], next, env.now) == DueEntries(es[i + 1..], c, env.now)
  {
    DueAt(c, i, env.now);
    WriteLeavesLaterDue(c, i, env);
    TouchedAt(c.store, i);
    hide DueEntries, Touched;
    assert WrittenOnce(c, c.store.entries[i]).store.entries[i + 1..] == c.store.entries[i + 1..];
  }

  lemma AttemptedAfterWrite(es: seq<Entry>, i: nat, written: set<string>)
    requires i < |es| && Distinct(es)
    ensures var e := es[i];
      var next := es[i := e.(attempts := e.attempts + 1)];
      next[..i + 1] + Attempted(next[i + 1..], written) == es[..i] + Attempted(es[i..], {e.clientId} + written)
  {
    LaterIsOther(es, i);
    hide Attempted, Ids, Distinct;
    var e := es[i];
    var more := e.(attempts := e.attempts + 1);
    assert es[i := more][i + 1..] == es[i + 1..] && es[i := more][..i + 1] == es[..i] + [more];
    AttemptedFirst(e, es[i + 1..], {e.clientId} + written);
    AttemptedOthers(es[i + 1..], e.clientId, written);
    AppendOne(es[..i], more, Attempted(es[i + 1..], written));
  }

  lemma WindowTwice(w: Window, id: string, written: set<string>, tried: set<string>)
    ensures var v := w.(inFlight := w.inFlight + {id}, retryAt := w.retryAt - {id});
      v.(inFlight := v.inFlight + written, retryAt := v.retryAt - tried)
      == w.(inFlight := w.inFlight + ({id} + written), retryAt := w.retryAt - ({id} + tried))
  {
    assert w.inFlight + {id} + written == w.inFlight + ({id} + written);
    assert w.retryAt - {id} - tried == w.retryAt - ({id} + tried);
  }

  lemma FlushedAfterWrite(c: Client, i: nat, d: Client, env: Env)
    requires i < |c.store.entries| && Distinct(c.store.entries) && env.room > 0
    requires |c.window.inFlight| < c.window.maxInFlight && Due(c, c.store.entries[i], env.now)
    requires var next := WrittenOnce(c, c.store.entries[i]);
      i + 1 <= |next.store.entries| && FlushedInto(next, i + 1, d, env.(room := env.room - 1))
    ensures FlushedInto(c, i, d, env)
  {
    hide *;
    var e := c.store.entries[i];
    OneWritten(c, i, env);
    assert c.store.entries[i := e.(attempts := e.attempts + 1)][i + 1..] == c.store.entries[i + 1..];
    FlushJoins(c, WrittenOnce(c, e), i, d, env, env.(room := env.room - 1));
  }

  lemma FlushJoins(c: Client, next: Client, i: nat, d: Client, env: Env, less: Env)
    requires i < |c.store.entries| == |next.store.entries| && Distinct(c.store.entries) && less.now == env.now
    requires Slots(next, less) == Slots(c, env) - 1 && Tries(next, less) == Tries(c, env) - 1
    requires var (es, e) := (c.store.entries, c.store.entries[i]);
      && next.window == c.window.(inFlight := c.window.inFlight + {e.clientId}, retryAt := c.window.retryAt - {e.clientId})
      && next.store.entries == es[i := e.(attempts := e.attempts + 1)] && next.store.state == c.store.state
      && DueEntries(es[i..], c, env.now) == [e] + DueEntries(es[i + 1..], c, env.now)
      && DueEntries(next.store.entries[i + 1..], next, env.now) == DueEntries(es[i + 1..], c, env.now)
    requires FlushedInto(next, i + 1, d, less)
    ensures FlushedInto(c, i, d, env)
  {
    hide DueEntries, Attempted, Ids, Slots, Tries, Take, Distinct;
    var es, e := c.store.entries, c.store.entries[i];
    var later := DueEntries(es[i + 1..], c, env.now);
    TakeFirst(e, later, Slots(c, env));
    TakeFirst(e, later, Tries(c, env));
    var written, tried := Take(later, Slots(c, env) - 1), Take(later, Tries(c, env) - 1);
    IdsFirst(e, written);
    IdsFirst(e, tried);
    AttemptedAfterWrite(es, i, Ids(written));
    WindowTwice(c.window, e.clientId, Ids(written), Ids(tried));
  }

  lemma FlushedNowhere(c: Client, i: nat, env: Env)
    requires i <= |c.store.entries| && (i == |c.store.entries| || |c.window.inFlight| >= c.window.maxInFlight)
    ensures FlushedInto(c, i, c, env)
  {
    var es := c.store.entries;
    assert es[i..] == [] || Slots(c, env) == Tries(c, env) == 0;
    assert Ids([]) == {};
    assert Attempted(es[i..], {}) == es[i..] && es[..i] + es[i..] == es;
    assert c.window.inFlight + {} == c.window.inFlight && c.window.retryAt - {} == c.window.retryAt;
  }

  lemma FlushRefused(c: Client, i: nat, env: Env)
    requires i < |c.store.entries| && |c.window.inFlight| < c.window.maxInFlight
    requires Due(c, c.store.entries[i], env.now) && env.room == 0
    ensures FlushedInto(c, i, c.(window := c.window.(retryAt := c.window.retryAt - {c.store.entries[i].clientId})), env)
  {
    var es, e := c.store.entries, c.store.entries[i];
    DueAt(c, i, env.now);
    var later := DueEntries(es[i + 1..], c, env.now);
    assert Slots(c, env) == 0 && Tries(c, env) == 1;
    assert Take([e] + later, 0) == [] && Take([e] + later, 1) == [e];
    IdsFirst(e, []);
    assert [e] + [] == [e] && Ids([]) == {};
    assert Attempted(es[i..], {}) == es[i..] && es[..i] + es[i..] == es;
    assert c.window.inFlight + {} == c.window.inFlight;
  }

  lemma {:induction false} FlushedFromInto(c: Client, i: nat, env: Env)
    requires i <= |c.store.entries| && Distinct(c.store.entries)
    ensures FlushedInto(c, i, FlushedFrom(c, i, env).0, env)
    decreases |c.store.entries| - i
  {
    hide FlushedInto, Due, Touched;
    if i == |c.store.entries| || |c.window.inFlight| >= c.window.maxInFlight {
      FlushedNowhere(c, i, env);
    } else {
      var e := c.store.entries[i];
      if !Due(c, e, env.now) {
        FlushedFromInto(c, i + 1, env);
        FlushedPastDue(c, i, FlushedFrom(c, i + 1, env).0, env);
      } else if env.room == 0 {
        FlushRefused(c, i, env);
      } else {
        WriteLeavesLaterDue(c, i, env);
        var next, less := WrittenOnce(c, e), env.(room := env.room - 1);
        FlushedFromInto(next, i + 1, less);
        FlushedAfterWrite(c, i, FlushedFrom(next, i + 1, less).0, env);
      }
    }
  }

  // ---------------------------------------------------------------------
  // What an event does before anything is written
  // ---------------------------------------------------------------------

  /** The ranges of characters that a client id is made of. */
  const ALPHABET := [('A', 'Z'), ('a', 'z'), ('0', '9'), ('.', '.'), ('_', '_'), (':', ':'), ('~', '~'), ('-', '-')]

  predicate InAlphabet(x: char) {
    exists k :: 0 <= k < |ALPHABET| && ALPHABET[k].0 <= x <= ALPHABET[k].1
  }

  /** A send is taken unless the session has failed for good, or the id is malformed or waits already. */
  ghost predicate Takes(c: Client, at: Place, id: string) {
    && at != Over(true) && 1 <= |id| <= 128 && (forall i :: 0 <= i < |id| ==> InAlphabet(id[i]))
    && id !in Ids(c.store.entries) && id !in c.window.waiting
  }

  /** The server may take the send later. */
  predicate Passing(fault: Fault) {
    || fault.code == "rate_limited" || fault.code == "too_many_in_flight" || fault.code == "unavailable" || fault.code == "internal"
    || (fault.retryable && fault.code != "token_expired")
  }

  function Others(es: seq<Entry>, id: string): seq<Entry> {
    if es == [] then [] else if es[0].clientId == id then Others(es[1..], id) else [es[0]] + Others(es[1..], id)
  }

  /** The window and the outbox before an event writes anything, and whether it writes what it can. */
  datatype Plan = Plan(window: Window, entries: seq<Entry>, flushes: bool)

  /** A send is no longer in the outbox, in flight, delayed or waited for. */
  function Ended(c: Client, id: string, flushes: bool): Plan {
    var w := c.window;
    Plan(Window(w.maxInFlight, w.inFlight - {id}, w.retryAt - {id}, w.waiting - {id}), Others(c.store.entries, id), flushes)
  }

  /** The own send whose turn the activity is, if it is new. */
  predicate SettlesTurn(c: Client, a: Activity) {
    && a.seqNo > 0 && !Accounted(c.inbox, a.seqNo)
    && a.clientId.Some? && a.fromUser && a.clientId.value in Ids(c.store.entries)
  }

  function FramePlan(c: Client, f: Frame, now: int): Plan {
    var same := Plan(c.window, c.store.entries, false);
    match f
    case Ack(id, _, _) => Ended(c, id, true)
    case Persistent(a) =>
      var ends := c.link.replaying && a.seqNo > 0 && a.seqNo >= c.link.replayTarget;
      if SettlesTurn(c, a) then Ended(c, a.clientId.value, ends) else same.(flushes := ends)
    case Error(fault) =>
      if !NamesSend(c, fault) then same.(flushes := c.link.replaying && (fault.code == "replay_unavailable" || Disowned(c, fault)))
      else if !Passing(fault) then Ended(c, fault.clientId.value, true)
      else
        var (id, delay) := (fault.clientId.value, if fault.retryAfterMs.Some? then fault.retryAfterMs.value else 1000);
        same.(window := c.window.(inFlight := c.window.inFlight - {id}, retryAt := c.window.retryAt[id := now + delay]))
    case Welcome(_, _, limit) => if limit.Some? && limit.value > 0 then same.(window := c.window.(maxInFlight := limit.value)) else same
    case _ => same
  }

  ghost function PlanOf(c: Client, at: Place, e: Event, now: int): Plan {
    var (same, w) := (Plan(c.window, c.store.entries, false), c.window);
    match e
    case Receive(f) => if at.Up? then FramePlan(c, f, now) else same
    case Send(id, body) =>
      if Takes(c, at, id) then Plan(w.(waiting := w.waiting + {id}), c.store.entries + [Entry(id, body, 0)], true) else same
    case Close(fatal) => if at.Up? then same.(window := w.(inFlight := {}, waiting := if fatal then {} else w.waiting)) else same
    case ConnectFailed(fatal) => if at.Down? && fatal then same.(window := w.(waiting := {})) else same
    case Disconnect => same.(window := w.(waiting := {}))
    case Attached(raw) =>
      if c.link.attaching && raw.Some? then Plan(w, Unknown(raw.value.outbox, Ids(c.store.entries)) + c.store.entries, true)
      else same.(flushes := true)
    case RetryTimer => same.(flushes := true)
    case ReplayTimer => same.(flushes := c.link.replaying)
    case _ => same
  }

  // ---------------------------------------------------------------------
  // What an event leaves behind
  // ---------------------------------------------------------------------

  /**
   * From the plan to what is left: on a welcomed connection that awaits no replay, the oldest entries
   * that are due are written, as many as fit, and are in flight then; and those that were tried are no
   * longer delayed.
   */
  ghost predicate Carried(p: Plan, d: Client, writes: seq<Entry>, env: Env) {
    var c := d.(window := p.window);
    var due := DueEntries(p.entries, c, env.now);
    if p.flushes && d.link.connected && d.link.phase == Open && Awaited(d.link).None? then
      && writes == Take(due, Slots(c, env))
      && d.store.entries == Attempted(p.entries, Ids(writes))
      && d.window == p.window.(inFlight := p.window.inFlight + Ids(writes), retryAt := p.window.retryAt - Ids(Take(due, Tries(c, env))))
    else writes == [] && d.store.entries == p.entries && d.window == p.window
  }

  lemma {:induction false} DueDependsOnWindow(es: seq<Entry>, c: Client, d: Client, now: int)
    requires c.window == d.window
    ensures DueEntries(es, c, now) == DueEntries(es, d, now)
  {
    if es != [] {
      DueDependsOnWindow(es[1..], c, d, now);
    }
  }

  /** A flush carries out the plan of the session it finds. */
  lemma FlushCarries(m: Client, env: Env)
    requires Distinct(m.store.entries)
    ensures var (d, out) := Flushed(m, env);
      && Carried(Plan(m.window, m.store.entries, true), d, Writes(out), env)
      && d.link == m.link && d.inbox == m.inbox && d.store.state == m.store.state
  {
    hide FlushedFrom, DueEntries, Attempted, Slots, Tries, Take, Distinct, Ids;
    FlushedKeepsRest(m, env);
    FlushWritesOldestDue(m, env);
    FlushedFromInto(m, 0, env);
    var es := m.store.entries;
    var attempted := Attempted(es, Ids(Take(DueEntries(es, m, env.now), Slots(m, env))));
    assert es[0..] == es && es[..0] + attempted == attempted;
    var d := Flushed(m, env).0;
    DueDependsOnWindow(es, m, d.(window := m.window), env.now);
    SlotsDependOnWindow(m, d.(window := m.window), env);
  }

  lemma SlotsDependOnWindow(c: Client, d: Client, env: Env)
    requires c.window == d.window
    ensures Slots(c, env) == Slots(d, env) && Tries(c, env) == Tries(d, env)
  {
  }

  lemma RelinkedCarries(p: Plan, m: Client, d: Client, writes: seq<Entry>, env: Env)
    requires Carried(p, m, writes, env) && Relinked(m, d)
    ensures Carried(p, d, writes, env)
  {
    hide DueEntries, Attempted, Slots, Tries, Take, Ids;
    DueDependsOnWindow(p.entries, m.(window := p.window), d.(window := p.window), env.now);
    SlotsDependOnWindow(m.(window := p.window), d.(window := p.window), env);
  }

  /** Nothing is written. */
  lemma CalmCarries(d: Client, env: Env)
    ensures Carried(Plan(d.window, d.store.entries, false), d, [], env)
  {
  }

  lemma {:induction false} NoWrites(out: seq<Output>)
    requires forall o :: o in out ==> !o.Written?
    ensures Writes(out) == []
  {
    if out != [] {
      NoWrites(out[1..]);
    }
  }

  lemma {:induction false} QuietFirst(out: seq<Output>, rest: seq<Output>)
    requires forall o :: o in out ==> !o.Written?
    ensures Writes(out + rest) == Writes(rest)
  {
    if out == [] {
      assert out + rest == rest;
    } else {
      assert (out + rest)[1..] == out[1..] + rest && (out + rest)[0] == out[0] && out[0] in out;
      QuietFirst(out[1..], rest);
    }
  }

  lemma {:induction false} QuietLast(out: seq<Output>, o: Output)
    requires !o.Written?
    ensures Writes(out + [o]) == Writes(out)
  {
    if out == [] {
      assert out + [o] == [o] && [o][1..] == [];
    } else {
      assert (out + [o])[1..] == out[1..] + [o] && (out + [o])[0] == out[0];
      QuietLast(out[1..], o);
    }
  }

  lemma {:induction false} OthersAbsent(es: seq<Entry>, id: string)
    requires forall e :: e in es ==> e.clientId != id
    ensures Others(es, id) == es
  {
    if es != [] {
      OthersAbsent(es[1..], id);
      assert es[0] in es && es == [es[0]] + es[1..];
    }
  }

  lemma {:induction false} OthersAt(es: seq<Entry>, i: nat)
    requires i < |es| && Distinct(es)
    ensures Others(es, es[i].clientId) == Without(es, i)
  {
    var id, rest := es[i].clientId, es[1..];
    if i == 0 {
      LaterIsOther(es, 0);
      OthersAbsent(rest, id);
      assert Without(es, 0) == rest;
    } else {
      OthersAt(rest, i - 1);
      assert es[0].clientId != id && rest[i - 1] == es[i];
      assert Without(es, i) == [es[0]] + Without(rest, i - 1);
    }
  }

  lemma RemovedIsOthers(s: Store, id: string)
    requires Distinct(s.entries)
    ensures Removed(s, id).entries == Others(s.entries, id) && Removed(s, id).state == s.state
  {
    var i := IndexOf(s.entries, id);
    if i < |s.entries| {
      OthersAt(s.entries, i);
    } else {
      forall e | e in s.entries
        ensures e.clientId != id
      {
        assert e.clientId in Ids(s.entries);
      }
      OthersAbsent(s.entries, id);
    }
  }

  // ---------------------------------------------------------------------
  // Event by event
  // ---------------------------------------------------------------------

  lemma SettledIsEnded(c: Client, m: Client, clientId: string, id: string, n: Option<int>, flushes: bool)
    requires Distinct(c.store.entries) && m.store.entries == c.store.entries && m.window == c.window
    ensures var d := SettledSend(m, clientId, id, n).0;
      && Plan(d.window, d.store.entries, flushes) == Ended(c, clientId, flushes) && Distinct(d.store.entries) && d.link == m.link
    ensures forall o :: o in SettledSend(m, clientId, id, n).1 ==> !o.Written?
  {
    hide Removed, Others, Distinct, Ids;
    RemovedIsOthers(m.store, clientId);
    RemovedIds(m.store, clientId);
  }

  lemma SeenStays(c: Client, n: int)
    ensures var d := Seen(c, n); d.store.entries == c.store.entries && d.window == c.window && d.link == c.link
  {
    hide Marked;
  }

  /** A quiet change, and then a flush. */
  lemma ThenFlushes(m: Client, first: seq<Output>, env: Env)
    requires Distinct(m.store.entries) && forall o :: o in first ==> !o.Written?
    ensures var (d, out) := Flushed(m, env); Carried(Plan(m.window, m.store.entries, true), d, Writes(first + out), env)
  {
    hide Flushed, Carried, Distinct;
    FlushCarries(m, env);
    QuietFirst(first, Flushed(m, env).1);
  }

  lemma AckCarries(c: Client, f: Frame, env: Env)
    requires f.Ack? && Distinct(c.store.entries)
    ensures var (d, out) := ApplyAck(c, f, env); Carried(FramePlan(c, f, env.now), d, Writes(out), env)
  {
    hide Flushed, Carried, Distinct, Seen, SettledSend, Ended;
    if f.seqNo.Some? {
      SeenStays(c, f.seqNo.value);
    }
    var m := if f.seqNo.Some? then Seen(c, f.seqNo.value) else c;
    SettledIsEnded(c, m, f.clientId, f.id, f.seqNo, true);
    var (d, first) := SettledSend(m, f.clientId, f.id, f.seqNo);
    ThenFlushes(d, first, env);
  }

  lemma ReceivedPlan(c: Client, a: Activity, ends: bool)
    requires Distinct(c.store.entries) && a.seqNo > 0
    ensures var (d, first) := Received(c, a);
      && Plan(d.window, d.store.entries, ends) ==
        (if SettlesTurn(c, a) then Ended(c, a.clientId.value, ends) else Plan(c.window, c.store.entries, ends))
      && Distinct(d.store.entries) && d.link == c.link && forall o :: o in first ==> !o.Written?
  {
    hide Distinct, Seen, SettledSend, Ended;
    SeenStays(c, a.seqNo);
    if SettlesTurn(c, a) {
      SettledIsEnded(c, Seen(c, a.seqNo), a.clientId.value, if a.id.Some? then a.id.value else "undefined", Some(a.seqNo), ends);
    }
  }

  predicate Relinked(m: Client, d: Client) {
    d.window == m.window && d.store == m.store && d.link.(gapTimer := m.link.gapTimer, syncFrom := m.link.syncFrom) == m.link
  }

  /** The gap check at the end changes no more than its timer. */
  lemma PersistentIs(c: Client, a: Activity, env: Env)
    ensures var ((m, first), (d, out)) := (Received(c, a), ApplyPersistent(c, a, env));
      if m.link.replaying && a.seqNo >= m.link.replayTarget then
        Relinked(Flushed(Caught(m), env).0, d) && out == first + Flushed(Caught(m), env).1
      else Relinked(m, d) && out == first
  {
    hide Flushed, Received;
    assert Received(c, a).1 + [] == Received(c, a).1;
  }

  lemma PersistentCarries(c: Client, a: Activity, env: Env)
    requires Distinct(c.store.entries) && a.seqNo > 0
    ensures var (d, out) := ApplyPersistent(c, a, env); Carried(FramePlan(c, Persistent(a), env.now), d, Writes(out), env)
  {
    hide Flushed, Carried, Distinct, Received, Ended, ApplyPersistent, SettlesTurn, Relinked;
    var ends := c.link.replaying && a.seqNo >= c.link.replayTarget;
    ReceivedPlan(c, a, ends);
    PersistentIs(c, a, env);
    var ((m, first), d) := (Received(c, a), ApplyPersistent(c, a, env).0);
    var p := Plan(m.window, m.store.entries, ends);
    if ends {
      ThenFlushes(Caught(m), first, env);
      RelinkedCarries(p, Flushed(Caught(m), env).0, d, Writes(first + Flushed(Caught(m), env).1), env);
    } else {
      CalmCarries(m, env);
      NoWrites(first);
      RelinkedCarries(p, m, d, [], env);
    }
  }

  lemma ErrorCarries(c: Client, fault: Fault, env: Env)
    requires Distinct(c.store.entries)
    ensures var (d, out) := ApplyError(c, fault, env); Carried(FramePlan(c, Error(fault), env.now), d, Writes(out), env)
  {
    hide Flushed, Carried, Distinct, Others, Removed, Ids;
    DisownedResets(c, fault);
    hide Resets, Disowned;
    var d := ApplyError(c, fault, env).0;
    if NamesSend(c, fault) {
      var id := fault.clientId.value;
      if Passing(fault) {
        CalmCarries(d, env);
      } else {
        RemovedIsOthers(c.store, id);
        RemovedIds(c.store, id);
        ThenFlushes(c.(window := Forgotten(c.window, id), store := Removed(c.store, id)), [SendFailed(id)], env);
      }
    } else if fault.code == "replay_unavailable" {
      EndCarries(c, env);
      var (m, writes) := ReplayEnded(c, env);
      RelinkedCarries(Plan(c.window, c.store.entries, c.link.replaying), m, d, Writes(writes), env);
    } else if Disowned(c, fault) {
      SavedStays(c.(inbox := Restarted(c.inbox)));
      var m := StateSaved(c.(inbox := Restarted(c.inbox)));
      EndCarries(m, env);
      QuietLast(ReplayEnded(m, env).1, SyncSent(0));
    } else {
      CalmCarries(c, env);
    }
  }

  lemma SavedStays(c: Client)
    ensures var d := StateSaved(c); d.store.entries == c.store.entries && d.window == c.window && d.link == c.link && d.inbox == c.inbox
  {
  }

  lemma EndCarries(c: Client, env: Env)
    requires Distinct(c.store.entries)
    ensures var (d, out) := ReplayEnded(c, env); Carried(Plan(c.window, c.store.entries, c.link.replaying), d, Writes(out), env)
  {
    hide Flushed, Carried, Distinct;
    if c.link.replaying {
      FlushCarries(Caught(c), env);
    } else {
      CalmCarries(c, env);
    }
  }

  lemma FrameCarries(c: Client, f: Frame, env: Env)
    requires Distinct(c.store.entries)
    ensures var (d, out) := ApplyFrame(c, f, env); Carried(FramePlan(c, f, env.now), d, Writes(out), env)
  {
    hide Carried, Distinct, ApplyAck, ApplyError, ApplyPersistent, Ids;
    match f
    case Ack(_, _, _) => AckCarries(c, f, env);
    case Error(fault) => ErrorCarries(c, fault, env);
    case Persistent(a) =>
      if a.seqNo > 0 {
        PersistentCarries(c, a, env);
      } else {
        CalmCarries(c, env);
      }
    case Welcome(_, _, limit) =>
      SavedStays(Joined(c, f));
      CalmCarries(ApplyWelcome(c, f), env);
    case _ =>
      CalmCarries(ApplyFrame(c, f, env).0, env);
      NoWrites(ApplyFrame(c, f, env).1);
  }

  lemma CharIsValid(x: char)
    ensures IsClientIdChar(x) <==> InAlphabet(x)
  {
    var k :=
      if 'A' <= x <= 'Z' then 0 else if 'a' <= x <= 'z' then 1 else if '0' <= x <= '9' then 2 else if x == '.' then 3
      else if x == '_' then 4 else if x == ':' then 5 else if x == '~' then 6 else 7;
    assert IsClientIdChar(x) ==> ALPHABET[k].0 <= x <= ALPHABET[k].1;
  }

  lemma TakesIffAccepts(c: Client, at: Place, id: string)
    requires IsAt(c.link, at)
    ensures Takes(c, at, id) <==> Accepts(c, id)
  {
    hide InAlphabet, IsClientIdChar, Ids;
    forall i | 0 <= i < |id|
      ensures IsClientIdChar(id[i]) <==> InAlphabet(id[i])
    {
      CharIsValid(id[i]);
    }
  }

  lemma SendCarries(c: Client, at: Place, id: string, body: string, env: Env)
    requires IsAt(c.link, at) && Distinct(c.store.entries)
    ensures var (d, out) := ApplySend(c, id, body, env); Carried(PlanOf(c, at, Send(id, body), env.now), d, Writes(out), env)
  {
    TakesIffAccepts(c, at, id);
    if Accepts(c, id) {
      AddedIds(c.store, Entry(id, body, 0));
      hide Flushed, Carried, Distinct, Takes, Ids;
      FlushCarries(Enqueued(c, id, body), env);
    } else {
      CalmCarries(c, env);
      NoWrites([Refused(id)]);
    }
  }

  lemma AttachCarries(c: Client, at: Place, raw: Option<Snapshot>, env: Env)
    requires Distinct(c.store.entries) && Proper(c, Attached(raw))
    ensures var (d, out) := ApplyAttached(c, raw, env); Carried(PlanOf(c, at, Attached(raw), env.now), d, Writes(out), env)
  {
    hide Flushed, Carried, Unknown, Ids;
    if c.link.attaching && raw.Some? {
      LoadedIds(c.store, raw.value);
    }
    SavedStays(Attachment(c, raw));
    FlushCarries(StateSaved(Attachment(c, raw)), env);
  }

  /**
   * What every event means for the sends, from any state: which are taken, delayed and ended, and in
   * which order the rest wait; and what is written then.
   */
  lemma EventCarries(c: Client, at: Place, e: Event, env: Env)
    requires IsAt(c.link, at) && Distinct(c.store.entries) && Proper(c, e)
    ensures var (d, out) := Apply(c, e, env); Carried(PlanOf(c, at, e, env.now), d, Writes(out), env)
  {
    hide Flushed, Carried, Distinct, Ids, ApplyFrame, ApplySend, ApplyAttached, FramePlan, ReplayEnded;
    match e
    case Receive(f) =>
      if c.link.connected {
        FrameCarries(c, f, env);
      } else {
        CalmCarries(c, env);
      }
    case Send(id, body) => SendCarries(c, at, id, body, env);
    case Attached(raw) => AttachCarries(c, at, raw, env);
    case RetryTimer => FlushCarries(c, env);
    case ReplayTimer => EndCarries(c, env);
    case _ =>
      CalmCarries(Apply(c, e, env).0, env);
      NoWrites(Apply(c, e, env).1);
  }

  // ---------------------------------------------------------------------
  // What callers are told
  // ---------------------------------------------------------------------

  /** The results of sends among the outputs. */
  function Told(out: seq<Output>): seq<Output> {
    if out == [] then []
    else if out[0].Sent? || out[0].SendFailed? || out[0].Refused? then [out[0]] + Told(out[1..])
    else Told(out[1..])
  }

  predicate Waits(c: Client, id: string) {
    id in Ids(c.store.entries) || id in c.window.waiting
  }

  ghost function ToldAt(c: Client, at: Place, e: Event): seq<Output> {
    match e
    case Send(id, _) => if Takes(c, at, id) then [] else [Refused(id)]
    case Receive(Ack(id, _, n)) => if at.Up? && Waits(c, id) then [Sent(id, n)] else []
    case Receive(Persistent(a)) => if at.Up? && SettlesTurn(c, a) then [Sent(a.clientId.value, Some(a.seqNo))] else []
    case Receive(Error(fault)) => if at.Up? && NamesSend(c, fault) && !Passing(fault) then [SendFailed(fault.clientId.value)] else []
    case _ => []
  }

  lemma {:induction false} NothingTold(out: seq<Output>)
    requires forall o :: o in out ==> o.Written? || o.SyncSent? || o.HelloSent? || o.Emitted?
    ensures Told(out) == []
  {
    if out != [] {
      assert out[0] in out;
      NothingTold(out[1..]);
    }
  }

  lemma ToldFirst(first: seq<Output>, rest: seq<Output>)
    requires |first| <= 1 && OnlyWrites(rest)
    ensures Told(first + rest) == Told(first)
  {
    NothingTold(rest);
    if first == [] {
      assert first + rest == rest;
    } else {
      assert (first + rest)[1..] == rest && first[1..] == [];
    }
  }

  lemma AckTells(c: Client, f: Frame, env: Env)
    requires f.Ack?
    ensures Told(ApplyAck(c, f, env).1) == if Waits(c, f.clientId) then [Sent(f.clientId, f.seqNo)] else []
  {
    hide Flushed, Seen, Removed, Ids;
    if f.seqNo.Some? {
      SeenStays(c, f.seqNo.value);
    }
    var m := if f.seqNo.Some? then Seen(c, f.seqNo.value) else c;
    var (d, first) := SettledSend(m, f.clientId, f.id, f.seqNo);
    FlushedKeepsRest(d, env);
    ToldFirst(first, Flushed(d, env).1);
    assert first != [] ==> first[1..] == [];
  }

  lemma PersistentTells(c: Client, a: Activity, env: Env)
    requires a.seqNo > 0
    ensures Told(ApplyPersistent(c, a, env).1) == if SettlesTurn(c, a) then [Sent(a.clientId.value, Some(a.seqNo))] else []
  {
    ReceivedTells(c, a);
    hide Flushed, Received, SettlesTurn;
    var (m, first) := Received(c, a);
    FlushedKeepsRest(Caught(m), env);
    ToldFirst(first, Flushed(Caught(m), env).1);
    ToldFirst(first, []);
  }

  lemma ReceivedTells(c: Client, a: Activity)
    requires a.seqNo > 0
    ensures Told(Received(c, a).1) == if SettlesTurn(c, a) then [Sent(a.clientId.value, Some(a.seqNo))] else []
    ensures |Received(c, a).1| <= 1
  {
    hide Removed, Seen, Owned, Ids;
    SeenStays(c, a.seqNo);
    assert [Emitted(a)][1..] == [];
  }

  lemma ErrorTells(c: Client, fault: Fault, env: Env)
    ensures Told(ApplyError(c, fault, env).1) == if NamesSend(c, fault) && !Passing(fault) then [SendFailed(fault.clientId.value)] else []
  {
    hide Flushed, Removed, Ids, Resets, StateSaved;
    if NamesSend(c, fault) {
      var id := fault.clientId.value;
      var d := c.(window := Forgotten(c.window, id), store := Removed(c.store, id));
      FlushedKeepsRest(d, env);
      ToldFirst([SendFailed(id)], Flushed(d, env).1);
    } else if fault.code == "replay_unavailable" {
      FlushedKeepsRest(Caught(c), env);
      NothingTold(ApplyError(c, fault, env).1);
    } else if Resets(c, Error(fault)) {
      FlushedKeepsRest(Caught(StateSaved(c.(inbox := Restarted(c.inbox)))), env);
      NothingTold(ApplyError(c, fault, env).1);
    }
  }

  /** A caller is told exactly this: a refused call at once, and a taken one when its send is acknowledged, seen in the log or rejected. */
  lemma EventTells(c: Client, at: Place, e: Event, env: Env)
    requires IsAt(c.link, at)
    ensures Told(Apply(c, e, env).1) == ToldAt(c, at, e)
  {
    hide Flushed, ApplyAck, ApplyError, ApplyPersistent, StateSaved, Attachment, Takes;
    match e
    case Receive(f) =>
      match f {
        case Ack(_, _, _) => AckTells(c, f, env);
        case Persistent(a) =>
          if a.seqNo > 0 {
            PersistentTells(c, a, env);
          }
        case Error(fault) => ErrorTells(c, fault, env);
        case _ => NothingTold(ApplyFrame(c, f, env).1);
      }
    case Send(id, body) =>
      TakesIffAccepts(c, at, id);
      FlushedKeepsRest(Enqueued(c, id, body), env);
      ToldFirst([Refused(id)], []);
      if Accepts(c, id) {
        NothingTold(Apply(c, e, env).1);
      }
    case Attached(raw) =>
      FlushedKeepsRest(StateSaved(Attachment(c, raw)), env);
      NothingTold(Apply(c, e, env).1);
    case _ =>
      FlushedKeepsRest(c, env);
      FlushedKeepsRest(Caught(c), env);
      NothingTold(Apply(c, e, env).1);
  }

  // ---------------------------------------------------------------------
  // Whole runs
  // ---------------------------------------------------------------------

  lemma {:induction false} RunIsDisciplined(c: Client, h: History, wire: set<string>, es: seq<(Event, Env)>) returns (after: set<string>)
    requires Disciplined(c, wire) && ProperRun(c, es)
    ensures Disciplined(Run(c, h, es).0, after)
    decreases |es|
  {
    hide Apply, Disciplined, Recorded;
    if es == [] {
      after := wire;
    } else {
      var (e, env) := es[0];
      EventIsClean(c, wire, e, env);
      after := RunIsDisciplined(Apply(c, e, env).0, Recorded(c, h, e, env), Wire(c, wire, e, env), es[1..]);
    }
  }

  lemma DisciplinedIsDistinct(c: Client, wire: set<string>)
    requires Disciplined(c, wire)
    ensures Distinct(c.store.entries)
  {
  }

  /**
   * In every run, and for every event after it: the sends are taken, delayed, ended and written exactly
   * as the events say, and their callers are told exactly this.
   */
  lemma SendsFollowEvents(c: Client, es: seq<(Event, Env)>, e: Event, env: Env)
    requires Fresh(c) && Unopened(c) && ProperRun(c, es) && Proper(From(c, es).0, e)
    ensures var d := From(c, es).0;
      var (f, out) := Apply(d, e, env);
      && Carried(PlanOf(d, PlaceOf(es), e, env.now), f, Writes(out), env)
      && Told(out) == ToldAt(d, PlaceOf(es), e)
  {
    hide Run, Apply, Carried, PlanOf, ToldAt, Proper, ProperRun, Disciplined;
    SessionStands(c, es);
    assert Disciplined(c, {}) by {
      UnopenedIsDisciplined(c);
    }
    var wire := RunIsDisciplined(c, History(c.inbox.watermark, [], {}, 0), {}, es);
    DisciplinedIsDistinct(From(c, es).0, wire);
    EventCarries(From(c, es).0, PlaceOf(es), e, env);
    EventTells(From(c, es).0, PlaceOf(es), e, env);
  }

  lemma UnopenedIsDisciplined(c: Client)
    requires Unopened(c)
    ensures Disciplined(c, {})
  {
  }

  // ---------------------------------------------------------------------
  // A delay is waited out
  // ---------------------------------------------------------------------

  /** The server speaks of the send: an ack, its turn, or an error. */
  predicate Names(e: Event, id: string) {
    match e
    case Receive(Ack(x, _, _)) => x == id
    case Receive(Persistent(a)) => a.clientId == Some(id)
    case Receive(Error(fault)) => fault.clientId == Some(id)
    case _ => false
  }

  predicate Delayed(w: Window, id: string, until: int) {
    id in w.retryAt && w.retryAt[id] == until
  }

  lemma {:induction false} DelayedIsNotDue(es: seq<Entry>, c: Client, now: int, id: string, until: int)
    requires Delayed(c.window, id, until) && now < until
    ensures forall e :: e in DueEntries(es, c, now) ==> e.clientId != id
  {
    if es != [] {
      DelayedIsNotDue(es[1..], c, now, id, until);
    }
  }

  lemma PlanKeepsDelay(c: Client, at: Place, e: Event, now: int, id: string, until: int)
    requires Delayed(c.window, id, until) && !Names(e, id)
    ensures Delayed(PlanOf(c, at, e, now).window, id, until)
  {
    hide Takes, Others, Unknown, Ids, Disowned, Passing;
  }

  lemma CarriedKeepsDelay(p: Plan, d: Client, writes: seq<Entry>, env: Env, id: string, until: int)
    requires Carried(p, d, writes, env) && Delayed(p.window, id, until) && env.now < until
    ensures Delayed(d.window, id, until) && forall w :: w in writes ==> w.clientId != id
  {
    hide DueEntries, Attempted;
    var c := d.(window := p.window);
    var due := DueEntries(p.entries, c, env.now);
    DelayedIsNotDue(p.entries, c, env.now, id, until);
    assert forall e :: e in Take(due, Slots(c, env)) ==> e in due;
    assert forall e :: e in Take(due, Tries(c, env)) ==> e in due;
  }

  /** The events so far all come before `until`, and the server speaks of the send in none of them. */
  ghost predicate Before(es: seq<(Event, Env)>, id: string, until: int) {
    forall i :: 0 <= i < |es| ==> es[i].1.now < until && !Names(es[i].0, id)
  }

  /** No event of the run writes the send. */
  ghost predicate Unwritten(c: Client, es: seq<(Event, Env)>, id: string)
    decreases |es|
  {
    es == [] ||
      (var (d, out) := Apply(c, es[0].0, es[0].1);
       (forall w :: w in Writes(out) ==> w.clientId != id) && Unwritten(d, es[1..], id))
  }

  /**
   * A send that the server put off until a time is not written before, whatever else happens: reconnects,
   * replays, other answers and timers included.
   */
  lemma {:induction false} DelayIsWaitedOut(c: Client, at: Place, wire: set<string>, es: seq<(Event, Env)>, id: string, until: int)
    requires IsAt(c.link, at) && Disciplined(c, wire) && ProperRun(c, es)
    requires Delayed(c.window, id, until) && Before(es, id, until)
    ensures Unwritten(c, es, id)
    decreases |es|
  {
    hide Apply, Disciplined, Carried, PlanOf, IsAt, Delayed, Names;
    if es != [] {
      var (e, env) := es[0];
      var (d, out) := Apply(c, e, env);
      DisciplinedIsDistinct(c, wire);
      EventCarries(c, at, e, env);
      PlanKeepsDelay(c, at, e, env.now, id, until);
      CarriedKeepsDelay(PlanOf(c, at, e, env.now), d, Writes(out), env, id, until);
      EventMoves(c, at, e, env);
      EventIsClean(c, wire, e, env);
      DelayIsWaitedOut(d, ConversationClaims.Next(at, e), Wire(c, wire, e, env), es[1..], id, until);
    }
  }
}
