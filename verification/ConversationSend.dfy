/** The send side of the TypeScript session: what is written to the wire, and when. */
module ConversationSend {
  import opened Prefix
  import opened Outbox
  import opened ConversationProtocol
  import opened ConversationReceive

  // ---------------------------------------------------------------------
  // A flush writes the oldest due entries
  // ---------------------------------------------------------------------

  /** The entries that are neither in flight nor waiting for a retry. */
  function DueEntries(es: seq<Entry>, c: Client, now: int): seq<Entry> {
    if es == [] then []
    else
      var (id, rest) := (es[0].clientId, DueEntries(es[1..], c, now));
      if id in c.window.inFlight || (id in c.window.retryAt && now < c.window.retryAt[id]) then rest else [es[0]] + rest
  }

  function Writes(out: seq<Output>): seq<Entry> {
    if out == [] then [] else (if out[0].Written? then [out[0].entry] else []) + Writes(out[1..])
  }

  function Slots(c: Client, env: Env): nat {
    var free := c.window.maxInFlight - |c.window.inFlight|;
    if free <= 0 then 0 else if free <= env.room then free else env.room
  }

  function Take<T>(s: seq<T>, k: nat): seq<T> {
    if k <= |s| then s[..k] else s
  }

  lemma {:induction false} DueUnaffected(es: seq<Entry>, c: Client, d: Client, id: string, now: int)
    requires forall e :: e in es ==> e.clientId != id
    requires d.window.inFlight == c.window.inFlight + {id} && d.window.retryAt == c.window.retryAt - {id}
    ensures DueEntries(es, d, now) == DueEntries(es, c, now)
    decreases |es|
  {
    if es != [] {
      assert es[0] in es;
      DueUnaffected(es[1..], c, d, id, now);
    }
  }

  lemma TouchedTail(s: Store, i: nat)
    requires i < |s.entries| && Distinct(s.entries)
    ensures Touched(s, s.entries[i].clientId).entries[i + 1..] == s.entries[i + 1..]
    ensures Distinct(Touched(s, s.entries[i].clientId).entries)
  {
    TouchedIds(s, s.entries[i].clientId);
  }

  /** Writing the entry at `i` leaves the later entries as due as they were. */
  lemma WriteLeavesLaterDue(c: Client, i: nat, env: Env)
    requires i < |c.store.entries| && Distinct(c.store.entries) && env.room > 0
    requires |c.window.inFlight| < c.window.maxInFlight && Due(c, c.store.entries[i], env.now)
    ensures var d, env' := WrittenOnce(c, c.store.entries[i]), env.(room := env.room - 1);
      && |d.store.entries| == |c.store.entries| && Distinct(d.store.entries)
      && DueEntries(d.store.entries[i + 1..], d, env.now) == DueEntries(c.store.entries[i + 1..], c, env.now)
      && Slots(d, env') == Slots(c, env) - 1
  {
    var e := c.store.entries[i];
    TouchedTail(c.store, i);
    TouchedIds(c.store, e.clientId);
    DueUnaffected(c.store.entries[i + 1..], c, WrittenOnce(c, e), e.clientId, env.now);
  }

  lemma WritesFirst(e: Entry, out: seq<Output>)
    ensures Writes([Written(e)] + out) == [e] + Writes(out)
  {
    assert ([Written(e)] + out)[1..] == out;
  }

  lemma TakeFirst<T>(x: T, s: seq<T>, k: nat)
    requires k >= 1
    ensures Take([x] + s, k) == [x] + Take(s, k - 1)
  {
  }

  lemma DueAt(c: Client, i: nat, now: int)
    requires i < |c.store.entries|
    ensures var e, later := c.store.entries[i], DueEntries(c.store.entries[i + 1..], c, now);
      DueEntries(c.store.entries[i..], c, now) == if Due(c, e, now) then [e] + later else later
  {
    assert c.store.entries[i..][1..] == c.store.entries[i + 1..];
  }

  lemma FlushedAtDue(c: Client, i: nat, env: Env)
    requires i < |c.store.entries| && |c.window.inFlight| < c.window.maxInFlight && env.room > 0
    requires Due(c, c.store.entries[i], env.now)
    ensures var d := WrittenOnce(c, c.store.entries[i]);
      && i + 1 <= |d.store.entries|
      && FlushedFrom(c, i, env).1 == [Written(c.store.entries[i])] + FlushedFrom(d, i + 1, env.(room := env.room - 1)).1
  {
    hide Touched;
    TouchedIds(c.store, c.store.entries[i].clientId);
  }

  lemma {:induction false} FlushedFromWritesDue(c: Client, i: nat, env: Env)
    requires i <= |c.store.entries| && Distinct(c.store.entries)
    ensures Writes(FlushedFrom(c, i, env).1) == Take(DueEntries(c.store.entries[i..], c, env.now), Slots(c, env))
    decreases |c.store.entries| - i
  {
    hide Touched;
    if i < |c.store.entries| && |c.window.inFlight| < c.window.maxInFlight {
      var e := c.store.entries[i];
      DueAt(c, i, env.now);
      if !Due(c, e, env.now) {
        FlushedFromWritesDue(c, i + 1, env);
      } else if env.room > 0 {
        hide FlushedFrom, DueEntries, WrittenOnce, Writes, Take, Distinct;
        FlushedAtDue(c, i, env);
        WriteLeavesLaterDue(c, i, env);
        var d, env' := WrittenOnce(c, e), env.(room := env.room - 1);
        FlushedFromWritesDue(d, i + 1, env');
        WritesFirst(e, FlushedFrom(d, i + 1, env').1);
        TakeFirst(e, DueEntries(c.store.entries[i + 1..], c, env.now), Slots(c, env));
      }
    }
  }

  /**
   * A flush writes, in outbox order, the oldest entries that are neither in
   * flight nor waiting for a retry, as many as the window and the transport take.
   */
  lemma FlushWritesOldestDue(c: Client, env: Env)
    requires Distinct(c.store.entries)
    ensures Writes(Flushed(c, env).1) ==
      if CanWrite(c) then Take(DueEntries(c.store.entries, c, env.now), Slots(c, env)) else []
  {
    FlushedFromWritesDue(c, 0, env);
    assert c.store.entries[0..] == c.store.entries;
  }

  // ---------------------------------------------------------------------
  // Discipline on one connection
  // ---------------------------------------------------------------------

  function WrittenIds(out: seq<Output>): set<string> {
    set o | o in out && o.Written? :: o.entry.clientId
  }

  /** The frames that were written: the clientId and the text of each. */
  function WrittenFrames(out: seq<Output>): set<(string, string)> {
    set o | o in out && o.Written? :: (o.entry.clientId, o.entry.body)
  }

  lemma FrameIds(out: seq<Output>)
    ensures forall f :: f in WrittenFrames(out) ==> f.0 in WrittenIds(out)
  {
  }

  /** No clientId is written twice in `out`. */
  ghost predicate WritesOnce(out: seq<Output>) {
    forall i, j :: 0 <= i < j < |out| && out[i].Written? && out[j].Written?
      ==> out[i].entry.clientId != out[j].entry.clientId
  }

  /**
   * `wire` are the clientIds written on this connection and since then neither given back by a
   * retryable error nor merged again by the attach nor used for another send: the ones still in the
   * outbox are in flight.
   */
  ghost predicate Disciplined(c: Client, wire: set<string>) {
    && Distinct(c.store.entries)
    && wire * Ids(c.store.entries) <= c.window.inFlight
    && |c.window.inFlight| <= c.window.maxInFlight
    && (c.link.phase == Open ==> c.link.connected)
    && (c.link.phase == Closed ==> c.link.stopped) && (c.link.stopped ==> !c.link.connected)
    && (c.link.phase !in {Open, Closed} ==> c.window.inFlight == {})
  }

  lemma PrependWrite(e: Entry, rest: seq<Output>)
    requires WritesOnce(rest) && e.clientId !in WrittenIds(rest)
    ensures WrittenIds([Written(e)] + rest) == {e.clientId} + WrittenIds(rest)
    ensures WritesOnce([Written(e)] + rest)
  {
    var all := [Written(e)] + rest;
    assert all[0] == Written(e);
    assert forall o :: o in all <==> o == Written(e) || o in rest;
    forall j | 0 < j < |all| && all[j].Written?
      ensures all[j].entry.clientId != e.clientId
    {
      assert all[j] == rest[j - 1] && rest[j - 1] in rest;
    }
  }

  /** A flush puts in flight exactly what it writes, and leaves the set of entries alone. */
  ghost predicate FlushEffect(c: Client, d: Client, out: seq<Output>) {
    && d.window.inFlight == c.window.inFlight + WrittenIds(out)
    && WrittenIds(out) !! c.window.inFlight
    && WrittenIds(out) <= Ids(c.store.entries)
    && |d.window.inFlight| <= d.window.maxInFlight == c.window.maxInFlight
    && Ids(d.store.entries) == Ids(c.store.entries) && Distinct(d.store.entries)
    && WritesOnce(out)
  }

  lemma WriteEffect(c: Client, e: Entry, now: int)
    requires Distinct(c.store.entries) && e in c.store.entries
    requires |c.window.inFlight| < c.window.maxInFlight && Due(c, e, now)
    ensures var d := WrittenOnce(c, e);
      && d.window.inFlight == c.window.inFlight + {e.clientId} && e.clientId in Ids(c.store.entries)
      && e.clientId !in c.window.inFlight && |d.window.inFlight| <= d.window.maxInFlight == c.window.maxInFlight
      && Ids(d.store.entries) == Ids(c.store.entries) && Distinct(d.store.entries)
      && |d.store.entries| == |c.store.entries|
  {
    TouchedIds(c.store, e.clientId);
  }

  lemma FlushEffectAfterWrite(c: Client, e: Entry, now: int, d: Client, rest: seq<Output>)
    requires Distinct(c.store.entries) && e in c.store.entries
    requires |c.window.inFlight| < c.window.maxInFlight && Due(c, e, now)
    requires FlushEffect(WrittenOnce(c, e), d, rest)
    ensures FlushEffect(c, d, [Written(e)] + rest)
  {
    hide Due, WrittenOnce, WritesOnce, WrittenIds, Ids, Distinct;
    WriteEffect(c, e, now);
    PrependWrite(e, rest);
  }

  lemma {:induction false} FlushedFromEffect(c: Client, i: nat, env: Env)
    requires i <= |c.store.entries| && Distinct(c.store.entries) && |c.window.inFlight| <= c.window.maxInFlight
    ensures FlushEffect(c, FlushedFrom(c, i, env).0, FlushedFrom(c, i, env).1)
    decreases |c.store.entries| - i
  {
    hide Touched;
    if i < |c.store.entries| && |c.window.inFlight| < c.window.maxInFlight {
      var e := c.store.entries[i];
      if !Due(c, e, env.now) {
        FlushedFromEffect(c, i + 1, env);
      } else if env.room > 0 {
        WriteEffect(c, e, env.now);
        var (d, rest) := FlushedFrom(WrittenOnce(c, e), i + 1, env.(room := env.room - 1));
        FlushedFromEffect(WrittenOnce(c, e), i + 1, env.(room := env.room - 1));
        FlushEffectAfterWrite(c, e, env.now, d, rest);
      }
    }
  }

  lemma FlushedIsDisciplined(c: Client, wire: set<string>, env: Env)
    requires Disciplined(c, wire)
    ensures var (d, out) := Flushed(c, env);
      && Disciplined(d, wire + WrittenIds(out)) && d.link == c.link
      && WrittenIds(out) !! wire && FlushEffect(c, d, out)
      && (WrittenIds(out) != {} ==> CanWrite(d))
  {
    FlushedKeepsRest(c, env);
    if CanWrite(c) {
      FlushedFromEffect(c, 0, env);
    } else {
      assert WrittenIds([]) == {};
    }
  }

  lemma {:induction false} FlushedFromWritesEntries(c: Client, i: nat, env: Env)
    requires i <= |c.store.entries|
    ensures WrittenIds(FlushedFrom(c, i, env).1) <= Ids(c.store.entries)
    ensures Ids(FlushedFrom(c, i, env).0.store.entries) == Ids(c.store.entries)
    ensures Distinct(c.store.entries) ==> Distinct(FlushedFrom(c, i, env).0.store.entries)
    decreases |c.store.entries| - i
  {
    hide Touched;
    var out := FlushedFrom(c, i, env).1;
    if i < |c.store.entries| && |c.window.inFlight| < c.window.maxInFlight {
      var e := c.store.entries[i];
      assert e in c.store.entries;
      if !Due(c, e, env.now) {
        FlushedFromWritesEntries(c, i + 1, env);
      } else if env.room > 0 {
        TouchedIds(c.store, e.clientId);
        FlushedFromWritesEntries(WrittenOnce(c, e), i + 1, env.(room := env.room - 1));
        assert forall o :: o in out ==> o == out[0] || o in out[1..];
      }
    }
  }

  lemma FlushedWritesEntries(c: Client, env: Env)
    ensures var (d, out) := Flushed(c, env);
      && WrittenIds(out) <= Ids(c.store.entries) && Ids(d.store.entries) == Ids(c.store.entries)
      && (Distinct(c.store.entries) ==> Distinct(d.store.entries))
      && d.inbox == c.inbox && d.link == c.link && OnlyWrites(out)
      && (!CanWrite(c) ==> out == [])
  {
    hide FlushedFrom;
    FlushedKeepsRest(c, env);
    FlushedFromWritesEntries(c, 0, env);
  }

  // ---------------------------------------------------------------------
  // The same over whole runs
  // ---------------------------------------------------------------------

  /** The client ids in a stored snapshot are distinct, and no welcome sets a limit below what is in flight. */
  ghost predicate Proper(c: Client, e: Event) {
    match e
    case Attached(Some(raw)) => Distinct(raw.outbox)
    case Receive(Welcome(_, _, _)) => |c.window.inFlight| <= Joined(c, e.frame).window.maxInFlight
    case _ => true
  }

  /** The send that a retryable error gives back. */
  function GivenBack(c: Client, e: Event): set<string> {
    match e
    case Receive(Error(fault)) =>
      if c.link.connected && NamesSend(c, fault) && RetryableSend(fault) then {fault.clientId.value} else {}
    case _ => {}
  }

  /** The sends of the wire that had left the outbox and that the attach merges into it again. */
  function Remerged(c: Client, wire: set<string>, e: Event): set<string> {
    match e
    case Attached(Some(raw)) => if c.link.attaching then (Ids(raw.outbox) - Ids(c.store.entries)) * wire else {}
    case _ => {}
  }

  /** The send that its caller hands over under an id that may have been used before. */
  function SentAnew(c: Client, e: Event): set<string> {
    match e
    case Send(id, _) => if Accepts(c, id) then {id} else {}
    case _ => {}
  }

  /** The connection of before is over at `e`. */
  predicate EndsConnection(c: Client, e: Event) {
    (e.Close? && c.link.connected) || ((e.Connect? || e.ConnectFailed?) && !c.link.connected)
  }

  /** What stays on the wire at `e`: a new connection starts with nothing. */
  function Kept(c: Client, wire: set<string>, e: Event): set<string> {
    if EndsConnection(c, e) then {} else wire - GivenBack(c, e) - Remerged(c, wire, e) - SentAnew(c, e)
  }

  function Wire(c: Client, wire: set<string>, e: Event, env: Env): set<string> {
    Kept(c, wire, e) + WrittenIds(Apply(c, e, env).1)
  }

  /** The state is disciplined, and `out` wrote clientIds once each, none of them on the wire, and not while replaying. */
  ghost predicate FlushedCleanly(wire: set<string>, d: Client, out: seq<Output>) {
    && Disciplined(d, wire + WrittenIds(out))
    && WritesOnce(out) && WrittenIds(out) !! wire
    && (WrittenIds(out) != {} ==> CanWrite(d))
  }

  ghost predicate Clean(c: Client, wire: set<string>, e: Event, env: Env) {
    FlushedCleanly(Kept(c, wire, e), Apply(c, e, env).0, Apply(c, e, env).1)
  }

  lemma RemovalIsDisciplined(c: Client, wire: set<string>, id: string, d: Client)
    requires Disciplined(c, wire) && d.link == c.link
    requires d.store == Removed(c.store, id) && d.window == Forgotten(c.window, id)
    ensures Disciplined(d, wire)
  {
    hide Removed;
    RemovedIds(c.store, id);
    assert d.window.inFlight <= c.window.inFlight;
    SmallerSet(d.window.inFlight, c.window.inFlight);
  }

  lemma QuietWrites(out: seq<Output>)
    requires forall o :: o in out ==> !o.Written?
    ensures WrittenIds(out) == {} && WritesOnce(out)
  {
  }

  lemma AppendedWrites(a: seq<Output>, b: seq<Output>)
    requires forall o :: o in a ==> !o.Written?
    ensures WrittenIds(a + b) == WrittenIds(b) && (WritesOnce(b) ==> WritesOnce(a + b))
    ensures WrittenIds(b + a) == WrittenIds(b) && (WritesOnce(b) ==> WritesOnce(b + a))
  {
    assert forall o :: o in a + b <==> o in a || o in b;
    assert forall o :: o in b + a <==> o in a || o in b;
    forall i | 0 <= i < |a|
      ensures !(a + b)[i].Written? && !(b + a)[|b| + i].Written?
    {
      assert a[i] in a;
    }
  }

  lemma QuietIsClean(wire: set<string>, d: Client, out: seq<Output>)
    requires Disciplined(d, wire) && forall o :: o in out ==> !o.Written?
    ensures FlushedCleanly(wire, d, out)
  {
    QuietWrites(out);
    assert wire + {} == wire;
  }

  lemma ReplayEndIsClean(c: Client, wire: set<string>, env: Env)
    requires Disciplined(c, wire)
    ensures var (d, out) := ReplayEnded(c, env); FlushedCleanly(wire, d, out) && OnlyWrites(out)
  {
    hide FlushedFrom;
    if c.link.replaying {
      FlushedIsDisciplined(Caught(c), wire, env);
      FlushedKeepsRest(Caught(c), env);
    } else {
      QuietWrites([]);
      assert wire + {} == wire;
    }
  }

  lemma ReceivedIsDisciplined(c: Client, wire: set<string>, a: Activity)
    requires Disciplined(c, wire)
    ensures Disciplined(Received(c, a).0, wire)
    ensures forall o :: o in Received(c, a).1 ==> !o.Written?
  {
    hide Removed;
    var d := Seen(c, a.seqNo);
    if !Accounted(c.inbox, a.seqNo) && IsOwnTurn(d, a) {
      RemovalIsDisciplined(d, wire, a.clientId.value, Received(c, a).0);
    }
  }

  lemma PersistentIsClean(c: Client, wire: set<string>, a: Activity, env: Env)
    requires Disciplined(c, wire)
    ensures FlushedCleanly(wire, ApplyPersistent(c, a, env).0, ApplyPersistent(c, a, env).1)
  {
    hide Received, ReplayEnded;
    ReceivedIsDisciplined(c, wire, a);
    var (d, out) := Received(c, a);
    ReplayEndIsClean(d, wire, env);
    QuietWrites([]);
    var writes := if d.link.replaying && a.seqNo >= d.link.replayTarget then ReplayEnded(d, env).1 else [];
    AppendedWrites(out, writes);
    assert wire + {} == wire;
  }

  /** The session right after an ack, before it flushes. */
  function Acknowledged(c: Client, f: Frame): (Client, seq<Output>)
    requires f.Ack?
  {
    SettledSend(if f.seqNo.Some? then Seen(c, f.seqNo.value) else c, f.clientId, f.id, f.seqNo)
  }

  lemma AckIsDisciplined(c: Client, wire: set<string>, f: Frame)
    requires Disciplined(c, wire) && f.Ack?
    ensures Disciplined(Acknowledged(c, f).0, wire) && forall o :: o in Acknowledged(c, f).1 ==> !o.Written?
  {
    hide Removed, Marked;
    var d := if f.seqNo.Some? then Seen(c, f.seqNo.value) else c;
    SeenIsDisciplined(c, wire, if f.seqNo.Some? then f.seqNo.value else 0);
    hide Seen;
    RemovalIsDisciplined(d, wire, f.clientId, Acknowledged(c, f).0);
  }

  lemma SeenIsDisciplined(c: Client, wire: set<string>, n: int)
    requires Disciplined(c, wire)
    ensures Disciplined(Seen(c, n), wire)
  {
    hide Marked;
  }

  lemma AckIsClean(c: Client, wire: set<string>, f: Frame, env: Env)
    requires Disciplined(c, wire) && f.Ack?
    ensures FlushedCleanly(wire, ApplyAck(c, f, env).0, ApplyAck(c, f, env).1)
  {
    hide Flushed, Disciplined, Seen, SettledSend;
    var (e, out) := Acknowledged(c, f);
    AckIsDisciplined(c, wire, f);
    FlushedIsDisciplined(e, wire, env);
    AppendedWrites(out, Flushed(e, env).1);
  }

  lemma RejectionIsClean(c: Client, wire: set<string>, fault: Fault, env: Env)
    requires Disciplined(c, wire) && NamesSend(c, fault)
    ensures var (d, out) := SendRejected(c, fault, env);
      FlushedCleanly(if RetryableSend(fault) then wire - {fault.clientId.value} else wire, d, out)
  {
    hide Flushed, Removed;
    var id := fault.clientId.value;
    if RetryableSend(fault) {
      SmallerSet(c.window.inFlight - {id}, c.window.inFlight);
      QuietWrites([]);
      assert wire - {id} + {} == wire - {id};
    } else {
      var d := c.(window := Forgotten(c.window, id), store := Removed(c.store, id));
      RemovalIsDisciplined(c, wire, id, d);
      FlushedIsDisciplined(d, wire, env);
      AppendedWrites([SendFailed(id)], Flushed(d, env).1);
    }
  }

  lemma ErrorIsClean(c: Client, wire: set<string>, fault: Fault, env: Env)
    requires Disciplined(c, wire)
    ensures var (d, out) := ApplyError(c, fault, env);
      FlushedCleanly(if NamesSend(c, fault) && RetryableSend(fault) then wire - {fault.clientId.value} else wire, d, out)
  {
    hide SendRejected, ReplayEnded, WrittenIds, WritesOnce;
    QuietWrites([]);
    assert wire + {} == wire;
    if NamesSend(c, fault) {
      RejectionIsClean(c, wire, fault, env);
    } else if fault.code == "replay_unavailable" {
      ReplayEndIsClean(c, wire, env);
    } else if Resets(c, Error(fault)) {
      var d := StateSaved(c.(inbox := Restarted(c.inbox)));
      ReplayEndIsClean(d, wire, env);
      AppendedWrites([SyncSent(0)], ReplayEnded(d, env).1);
    }
  }

  lemma FrameIsClean(c: Client, wire: set<string>, f: Frame, env: Env)
    requires Disciplined(c, wire) && c.link.connected && Proper(c, Receive(f))
    ensures FlushedCleanly(Kept(c, wire, Receive(f)), ApplyFrame(c, f, env).0, ApplyFrame(c, f, env).1)
  {
    hide ApplyPersistent, ApplyAck, ApplyError, ApplyWelcome, FlushedCleanly, Ids;
    var (d, out) := ApplyFrame(c, f, env);
    assert Kept(c, wire, Receive(f)) == wire - GivenBack(c, Receive(f)) && wire - {} == wire;
    hide Kept;
    match f
    case Persistent(a) =>
      if a.seqNo > 0 {
        PersistentIsClean(c, wire, a, env);
      } else {
        QuietIsClean(wire, d, out);
      }
    case Ack(_, _, _) => AckIsClean(c, wire, f, env);
    case Error(fault) =>
      ErrorIsClean(c, wire, fault, env);
    case Welcome(_, _, _) =>
      WelcomeIsDisciplined(c, wire, f);
      QuietIsClean(wire, d, out);
    case _ => QuietIsClean(wire, d, out);
  }

  lemma WelcomeIsDisciplined(c: Client, wire: set<string>, f: Frame)
    requires Disciplined(c, wire) && c.link.connected && f.Welcome? && Proper(c, Receive(f))
    ensures Disciplined(ApplyWelcome(c, f), wire)
  {
  }

  /** The first welcome of a connection finds nothing in flight. */
  lemma FirstWelcomeIsProper(c: Client, wire: set<string>, f: Frame)
    requires Disciplined(c, wire) && c.link.connected && c.link.phase != Open && f.Welcome?
    ensures Proper(c, Receive(f))
  {
  }

  lemma SendIsClean(c: Client, wire: set<string>, id: string, body: string, env: Env)
    requires Disciplined(c, wire)
    ensures FlushedCleanly(Kept(c, wire, Send(id, body)), ApplySend(c, id, body, env).0, ApplySend(c, id, body, env).1)
  {
    hide Flushed, Added;
    if Accepts(c, id) {
      AddedIds(c.store, Entry(id, body, 0));
      FlushedIsDisciplined(Enqueued(c, id, body), Kept(c, wire, Send(id, body)), env);
    } else {
      assert Kept(c, wire, Send(id, body)) == wire;
      QuietIsClean(wire, c, [Refused(id)]);
    }
  }

  lemma AttachmentIsClean(c: Client, wire: set<string>, raw: Option<Snapshot>, env: Env)
    requires Disciplined(c, wire) && Proper(c, Attached(raw))
    ensures FlushedCleanly(Kept(c, wire, Attached(raw)), ApplyAttached(c, raw, env).0, ApplyAttached(c, raw, env).1)
  {
    hide Flushed, Unknown;
    if c.link.attaching && raw.Some? {
      LoadedIds(c.store, raw.value);
    }
    FlushedIsDisciplined(StateSaved(Attachment(c, raw)), Kept(c, wire, Attached(raw)), env);
  }

  lemma ConnectionIsDisciplined(c: Client, wire: set<string>, fatal: bool)
    requires Disciplined(c, wire)
    ensures Disciplined(ApplyConnect(c).0, {}) && Disciplined(ApplyClose(c, fatal), {}) && Disciplined(ApplyConnectFailed(c, fatal), {})
    ensures Disciplined(ApplyDisconnect(c), wire)
  {
  }

  lemma TimerIsClean(c: Client, wire: set<string>, e: Event, env: Env)
    requires Disciplined(c, wire) && !e.Receive? && !e.Send? && !e.Attached?
    ensures Clean(c, wire, e, env)
  {
    hide Flushed, ReplayEnded, FlushedCleanly, Ids;
    var (d, out) := Apply(c, e, env);
    assert wire - {} - {} - {} == wire;
    match e
    case ReplayTimer => ReplayEndIsClean(c, wire, env);
    case RetryTimer => RetryIsClean(c, wire, env);
    case Connect => ConnectionIsDisciplined(c, wire, false); QuietIsClean(Kept(c, wire, e), d, out);
    case ConnectFailed(fatal) => ConnectionIsDisciplined(c, wire, fatal); QuietIsClean(Kept(c, wire, e), d, out);
    case Close(fatal) => ConnectionIsDisciplined(c, wire, fatal); QuietIsClean(Kept(c, wire, e), d, out);
    case Disconnect => ConnectionIsDisciplined(c, wire, false); QuietIsClean(wire, d, out);
    case _ => QuietIsClean(wire, d, out);
  }

  lemma RetryIsClean(c: Client, wire: set<string>, env: Env)
    requires Disciplined(c, wire)
    ensures FlushedCleanly(wire, Flushed(c, env).0, Flushed(c, env).1)
  {
    FlushedIsDisciplined(c, wire, env);
  }

  lemma EventIsClean(c: Client, wire: set<string>, e: Event, env: Env)
    requires Disciplined(c, wire) && Proper(c, e)
    ensures Clean(c, wire, e, env)
  {
    hide ApplyFrame, ApplySend, ApplyAttached, FlushedCleanly, Ids;
    assert wire - {} - {} - {} == wire;
    match e
    case Receive(f) =>
      if c.link.connected {
        FrameIsClean(c, wire, f, env);
      } else {
        QuietIsClean(wire, c, []);
      }
    case Send(id, body) => SendIsClean(c, wire, id, body, env);
    case Attached(raw) => AttachmentIsClean(c, wire, raw, env);
    case _ => TimerIsClean(c, wire, e, env);
  }

  ghost predicate ProperRun(c: Client, es: seq<(Event, Env)>)
    decreases |es|
  {
    es == [] ||
      (var (e, env) := es[0];
       Proper(c, e) && ProperRun(Apply(c, e, env).0, es[1..]))
  }

  ghost predicate CleanRun(c: Client, wire: set<string>, es: seq<(Event, Env)>)
    decreases |es|
  {
    es == [] ||
      (var (e, env) := es[0];
       Clean(c, wire, e, env) && CleanRun(Apply(c, e, env).0, Wire(c, wire, e, env), es[1..]))
  }

  lemma {:induction false} RunIsClean(c: Client, wire: set<string>, es: seq<(Event, Env)>)
    requires Disciplined(c, wire) && ProperRun(c, es)
    ensures CleanRun(c, wire, es)
    decreases |es|
  {
    hide Apply;
    if es != [] {
      var (e, env) := es[0];
      EventIsClean(c, wire, e, env);
      RunIsClean(Apply(c, e, env).0, Wire(c, wire, e, env), es[1..]);
    }
  }

  /**
   * Flush discipline. At every event of every run of a session: on one
   * connection a clientId is written again only if, since it was last written, a
   * retryable error gave it back, the attach merged it into the outbox again or a
   * caller sent something else under it, at most maxInFlight sends are in flight,
   * and nothing is written while a replay is awaited.
   */
  lemma FlushDiscipline(c: Client, es: seq<(Event, Env)>)
    requires Unopened(c) && ProperRun(c, es)
    ensures CleanRun(c, {}, es)
  {
    RunIsClean(c, {}, es);
  }

  /** A session before its first connection, whatever it has loaded and accepted so far. */
  ghost predicate Unopened(c: Client) {
    && c.link.phase == Idle && !c.link.connected && !c.link.stopped && c.window.inFlight == {} && c.window.maxInFlight >= 1
    && Distinct(c.store.entries)
  }
}
