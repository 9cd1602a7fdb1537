/**
 * Sends that are settled while the attach still loads: the answer of the storage may hold them, and
 * then they are merged into the outbox again and written again.
 */
module Rewrites {
  import opened Prefix
  import opened Outbox
  import opened ConversationProtocol
  import opened ConversationReceive
  import opened ConversationSend
  import opened ConversationOutbox
  import opened ServerLog
  import opened ExactlyOnce
  import opened DurableSends
  import opened LateMerge

  // ---------------------------------------------------------------------
  // The exact condition
  // ---------------------------------------------------------------------

  /** The session as the attach leaves it, before it flushes. */
  function Merged(c: Client, raw: Option<Snapshot>): Client {
    StateSaved(Attachment(c, raw))
  }

  ghost predicate IsDue(c: Client, id: string, now: int) {
    exists e :: e in c.store.entries && e.clientId == id && Due(c, e, now)
  }

  /**
   * Of what was written on this connection and not given back since, an attach makes due exactly what
   * it merges into the outbox again.
   */
  lemma DueAgainIffRemerged(c: Client, wire: set<string>, raw: Option<Snapshot>, now: int, id: string)
    requires Disciplined(c, wire) && Tracked(c) && Proper(c, Attached(raw)) && id in wire
    ensures IsDue(Merged(c, raw), id, now) <==> id in Remerged(c, wire, Attached(raw))
  {
    hide Unknown, StateSet, Ids;
    var d := Merged(c, raw);
    SavedKeepsWindow(Attachment(c, raw));
    if c.link.attaching && raw.Some? {
      LoadedIds(c.store, raw.value);
    }
    if id in Ids(d.store.entries) {
      EntryOf(d.store.entries, id);
    } else {
      NoEntryOf(d.store.entries, id);
    }
  }

  lemma EntryOf(es: seq<Entry>, id: string)
    requires id in Ids(es)
    ensures exists e :: e in es && e.clientId == id
  {
  }

  lemma NoEntryOf(es: seq<Entry>, id: string)
    requires id !in Ids(es)
    ensures forall e :: e in es ==> e.clientId != id
  {
  }

  lemma {:induction false} DueEntriesHold(es: seq<Entry>, c: Client, now: int)
    ensures forall e :: e in DueEntries(es, c, now) <==> e in es && Due(c, e, now)
    ensures |DueEntries(es, c, now)| <= |es|
  {
    if es != [] {
      DueEntriesHold(es[1..], c, now);
      assert forall e :: e in es <==> e == es[0] || e in es[1..];
    }
  }

  lemma {:induction false} WritesHold(out: seq<Output>)
    ensures forall e :: e in Writes(out) <==> Written(e) in out
  {
    if out != [] {
      WritesHold(out[1..]);
      assert forall o :: o in out <==> o == out[0] || o in out[1..];
    }
  }

  /** A flush with room for the whole outbox writes exactly what is due. */
  lemma RoomyFlush(c: Client, env: Env, id: string)
    requires Distinct(c.store.entries) && CanWrite(c) && |c.store.entries| <= Slots(c, env)
    ensures id in WrittenIds(Flushed(c, env).1) <==> IsDue(c, id, env.now)
  {
    hide Flushed, Due, DueEntries, Writes;
    var out, due := Flushed(c, env).1, DueEntries(c.store.entries, c, env.now);
    FlushWritesOldestDue(c, env);
    DueEntriesHold(c.store.entries, c, env.now);
    WritesHold(out);
    assert Take(due, Slots(c, env)) == due;
    if id in WrittenIds(out) {
      var o :| o in out && o.Written? && o.entry.clientId == id;
      assert o.entry in Writes(out);
    }
    if IsDue(c, id, env.now) {
      var e :| e in c.store.entries && e.clientId == id && Due(c, e, env.now);
      assert Written(e) in out;
    }
  }

  /**
   * When the attach ends on an open connection with room for the whole outbox, it writes a second time,
   * of what was written on this connection and not given back, exactly what it has merged again.
   */
  lemma WrittenAgainIffRemerged(c: Client, wire: set<string>, raw: Option<Snapshot>, env: Env, id: string)
    requires Disciplined(c, wire) && Tracked(c) && Proper(c, Attached(raw)) && id in wire
    requires CanWrite(c) && |Merged(c, raw).store.entries| <= Slots(Merged(c, raw), env)
    ensures id in WrittenIds(Apply(c, Attached(raw), env).1) <==> id in Remerged(c, wire, Attached(raw))
  {
    hide Flushed, Remerged, Slots, Due;
    MergedIsDistinct(c, raw, wire);
    DueAgainIffRemerged(c, wire, raw, env.now, id);
    RoomyFlush(Merged(c, raw), env, id);
  }

  lemma MergedIsDistinct(c: Client, raw: Option<Snapshot>, wire: set<string>)
    requires Disciplined(c, wire) && Proper(c, Attached(raw))
    ensures Distinct(Merged(c, raw).store.entries) && CanWrite(Merged(c, raw)) == CanWrite(c)
  {
    hide Unknown, StateSet;
    SavedKeepsWindow(Attachment(c, raw));
    if c.link.attaching && raw.Some? {
      LoadedIds(c.store, raw.value);
    }
  }

  /** At every attach of the run, of the wire exactly what is merged again becomes due. */
  ghost predicate ExactRun(c: Client, wire: set<string>, es: seq<(Event, Env)>)
    decreases |es|
  {
    es == [] ||
      (var (e, env) := es[0];
       && (e.Attached? ==> forall id, now :: id in wire ==> (IsDue(Merged(c, e.raw), id, now) <==> id in Remerged(c, wire, e)))
       && ExactRun(Apply(c, e, env).0, Wire(c, wire, e, env), es[1..]))
  }

  lemma {:induction false} RunIsExact(c: Client, wire: set<string>, es: seq<(Event, Env)>)
    requires Disciplined(c, wire) && Tracked(c) && ProperRun(c, es)
    ensures ExactRun(c, wire, es)
    decreases |es|
  {
    hide Apply, Disciplined, Tracked, IsDue, Remerged, Proper, Merged;
    if es != [] {
      var (e, env) := es[0];
      if e.Attached? {
        forall id, now | id in wire
          ensures IsDue(Merged(c, e.raw), id, now) <==> id in Remerged(c, wire, e)
        {
          DueAgainIffRemerged(c, wire, e.raw, now, id);
        }
      }
      NextIsDisciplined(c, wire, e, env);
      RunIsExact(Apply(c, e, env).0, Wire(c, wire, e, env), es[1..]);
    }
  }

  lemma NextIsDisciplined(c: Client, wire: set<string>, e: Event, env: Env)
    requires Disciplined(c, wire) && Tracked(c) && Proper(c, e)
    ensures Disciplined(Apply(c, e, env).0, Wire(c, wire, e, env)) && Tracked(Apply(c, e, env).0)
  {
    hide Apply, Tracked;
    EventIsClean(c, wire, e, env);
    EventTracked(c, e, env);
  }

  /**
   * The exception to the flush discipline is exact. In every run of a session, of what was written on a
   * connection and not given back, an attach makes due again exactly what the storage's answer holds
   * and the outbox does not.
   */
  lemma RewritesAreExact(c: Client, es: seq<(Event, Env)>)
    requires Unopened(c) && c.window.retryAt.Keys <= Ids(c.store.entries) && ProperRun(c, es)
    ensures CleanRun(c, {}, es) && ExactRun(c, {}, es)
  {
    hide Apply;
    RunIsClean(c, {}, es);
    RunIsExact(c, {}, es);
  }

  /** In the whole system every possible event is a proper one, as long as no welcome sets a limit below what is in flight. */
  lemma PossibleIsProper(y: System, e: Event)
    requires Reachable(y) && Possible(y, e)
    requires e.Receive? && e.frame.Welcome? ==> |y.client.window.inFlight| <= Joined(y.client, e.frame).window.maxInFlight
    ensures Proper(y.client, e)
  {
    hide Reachable, Receiving, ExactlyOnce.Kept, OwnFirst, OwnKept, Durable, Ids, Unresolved;
    ReachableIsFine(y);
    if e.Attached? && e.raw.Some? {
      assert Holds(y, e.raw.value) && Fits(e.raw.value, y);
    }
  }

  // ---------------------------------------------------------------------
  // A first connection with a send on it
  // ---------------------------------------------------------------------

  /** What the storage holds once the first snapshot with the send has reached it. */
  function FirstSnapshot(conversation: string, s1: string): Snapshot {
    Snapshot([Entry(s1, "", 0)], Some(ResumeState(conversation, 0)))
  }

  /** The send is in flight on the first connection, and the attach still loads. */
  ghost predicate InFlight(c: Client, conversation: string, s1: string) {
    && c.inbox == Inbox(0, {}, {}, []) && c.store.entries == [Entry(s1, "", 1)]
    && c.link.conversationId == conversation && c.link.attaching && CanWrite(c)
    && c.window == Window(32, {s1}, map[], {s1})
  }

  lemma FirstGreeting(conversation: string, canSync: bool)
    requires conversation != ""
    ensures var c := Apply(Constructed("", None, canSync), Connect, CALM).0;
      var d := Apply(c, Greets(conversation, None), CALM).0;
      && !c.link.attaching && d.link.attaching && CanWrite(d) && d.inbox == Inbox(0, {}, {}, [])
      && d.link.conversationId == conversation && d.window == Window(32, {}, map[], {}) && !d.link.fatal
      && d.store == Store(Some(conversation), [], Some(ResumeState(conversation, 0)), [])
  {
  }

  lemma FirstSend(c: Client, conversation: string, s1: string)
    requires c.link.attaching && CanWrite(c) && c.inbox == Inbox(0, {}, {}, []) && !c.link.fatal && ValidClientId(s1)
    requires c.link.conversationId == conversation && c.window == Window(32, {}, map[], {})
    requires c.store == Store(Some(conversation), [], Some(ResumeState(conversation, 0)), [])
    ensures var (d, out) := Apply(c, Send(s1, ""), ROOM);
      && out == [Written(Entry(s1, "", 0))] && InFlight(d, conversation, s1) && |d.store.writing| == 2
      && d.store.writing[0] == Write(conversation, FirstSnapshot(conversation, s1))
  {
    var entry := Entry(s1, "", 0);
    assert Ids([]) == {} && [] + [entry] == [entry];
    var e := Enqueued(c, s1, "");
    assert e.store.entries == [entry] && Due(e, entry, 0);
    var g := WrittenOnce(e, entry);
    FirstTouched(e.store, s1);
    assert FlushedFrom(g, 1, Env(0, 0)) == (g, []);
    assert FlushedFrom(e, 0, ROOM) == (g, [Written(entry)] + []);
  }

  lemma FirstTouched(s: Store, s1: string)
    requires s.entries == [Entry(s1, "", 0)] && s.key.Some?
    ensures Touched(s, s1).entries == [Entry(s1, "", 1)] && Touched(s, s1).writing == s.writing + [Write(s.key.value, Snapshot([Entry(s1, "", 1)], s.state))]
    ensures Touched(s, s1).key == s.key
  {
    assert IndexOf(s.entries, s1) == 0;
    assert s.entries[0 := Entry(s1, "", 1)] == [Entry(s1, "", 1)];
  }

  /** The outbox is empty again, and the attach still loads. */
  ghost predicate Emptied(c: Client) {
    CanWrite(c) && c.link.attaching && c.store.entries == [] && c.window == Window(32, {}, map[], {})
  }

  lemma RemovedLast(s: Store, s1: string)
    requires s.entries == [Entry(s1, "", 1)]
    ensures Removed(s, s1).entries == [] && s1 in Ids(s.entries)
  {
    assert IndexOf(s.entries, s1) == 0;
    assert s.entries[0] in s.entries;
  }

  lemma AckEmpties(c: Client, conversation: string, s1: string, id: string)
    requires InFlight(c, conversation, s1) && conversation != ""
    ensures var (d, out) := Apply(c, Receive(Ack(s1, id, Some(1))), CALM); Emptied(d) && Sent(s1, Some(1)) in out
  {
    hide Removed, Marked;
    var d := Seen(c, 1);
    RemovedLast(d.store, s1);
    var (e, out) := SettledSend(d, s1, id, Some(1));
    assert e.window == Window(32, {}, map[], {}) && out == [Sent(s1, Some(1))];
    assert FlushedFrom(e, 0, CALM) == (e, []);
    assert out + [] == out;
  }

  function Final(s1: string): Fault {
    Fault("forbidden", false, Some(s1), None, None, None)
  }

  lemma ErrorEmpties(c: Client, conversation: string, s1: string)
    requires InFlight(c, conversation, s1) && s1 != ""
    ensures var (d, out) := Apply(c, Receive(Error(Final(s1))), CALM);
      Emptied(d) && SendFailed(s1) in out && Gone(c, Receive(Error(Final(s1)))) == {s1}
  {
    hide Removed;
    RemovedLast(c.store, s1);
    var d := c.(window := Forgotten(c.window, s1), store := Removed(c.store, s1));
    assert d.window == Window(32, {}, map[], {});
    assert FlushedFrom(d, 0, CALM) == (d, []);
    assert [SendFailed(s1)] + [] == [SendFailed(s1)];
  }

  // ---------------------------------------------------------------------
  // Runs
  // ---------------------------------------------------------------------

  /** start(), a send while the attach loads, its snapshot in the storage, and the storage's answer with it. */
  function SentRun(conversation: string, s1: string): seq<Step> {
    [Local(Connect, CALM)] + [Local(Greets(conversation, None), CALM)] + [Local(Send(s1, ""), ROOM)] + [WriteDone(true)] + [ReadDone(true)]
  }

  /** The state after that: the send is on the wire, and in the answer that the attach has still to merge. */
  ghost predicate HasSent(y: System, conversation: string, s1: string) {
    && y.conversation == conversation && y.server == EMPTY && (s1, "") in y.wire && InFlight(y.client, conversation, s1)
    && y.load.reading == Answered(Some(FirstSnapshot(conversation, s1))) && !y.load.opening
  }

  lemma SentRunSends(conversation: string, canSync: bool, s1: string)
    requires conversation != "" && ValidClientId(s1)
    ensures var y0 := Beginning(conversation, EMPTY, Starts, canSync);
      IsRun(y0, SentRun(conversation, s1)) && HasSent(After(y0, SentRun(conversation, s1)), conversation, s1)
  {
    hide IsRun, After, AfterLocal, AfterWrite, Apply;
    EmptyIsReady(conversation);
    FirstGreeting(conversation, canSync);
    var y0 := Beginning(conversation, EMPTY, Starts, canSync);
    var ts := [Local(Connect, CALM)];
    assert [] + ts == ts;
    NoSteps(y0);
    LocalFields(y0, Connect, CALM);
    LedLocal(y0, [], y0, Connect, CALM);
    var a := AfterLocal(y0, Connect, CALM);
    LocalFields(a, Greets(conversation, None), CALM);
    LedLocal(y0, ts, a, Greets(conversation, None), CALM);
    var b := AfterLocal(a, Greets(conversation, None), CALM);
    ts := ts + [Local(Greets(conversation, None), CALM)];
    FirstSend(b.client, conversation, s1);
    LocalFields(b, Send(s1, ""), ROOM);
    LedLocal(y0, ts, b, Send(s1, ""), ROOM);
    var c := AfterLocal(b, Send(s1, ""), ROOM);
    ts := ts + [Local(Send(s1, ""), ROOM)];
    OneWritten(Entry(s1, "", 0));
    LeadsOn(y0, ts, c, WriteDone(true));
    FirstWrite(c, conversation, s1);
    var d := AfterWrite(c, true);
    ts := ts + [WriteDone(true)];
    LeadsOn(y0, ts, d, ReadDone(true));
  }

  lemma NoSteps(y: System)
    ensures Leads(y, [], y)
  {
  }

  lemma OneWritten(e: Entry)
    ensures WrittenFrames([Written(e)]) == {(e.clientId, e.body)}
  {
    assert Written(e) in [Written(e)];
  }

  lemma FirstWrite(y: System, conversation: string, s1: string)
    requires InFlight(y.client, conversation, s1) && |y.client.store.writing| == 2 && y.conversation == conversation
    requires y.client.store.writing[0] == Write(conversation, FirstSnapshot(conversation, s1))
    ensures var z := AfterWrite(y, true);
      && InFlight(z.client, conversation, s1) && OnDisk(z) == Some(FirstSnapshot(conversation, s1))
      && z.conversation == y.conversation && z.server == y.server && z.wire == y.wire
      && z.load.reading == y.load.reading && z.load.opening == y.load.opening
  {
    hide Ids, Unresolved;
  }

  /** The message reaches the server, its ack the session, and then the attach ends. */
  function SettledRun(conversation: string, s1: string, id: string): seq<Step> {
    SentRun(conversation, s1) + [Arrives(Message(Some(s1), id, true, ""), false)] + [Local(Receive(Ack(s1, id, Some(1))), CALM)]
  }

  /**
   * A run from the beginning, over one connection and without an error: the send is acknowledged and
   * reported to its caller while the attach loads, the storage's answer still holds it, and the attach
   * merges it and writes it a second time.
   */
  lemma SettledSendIsWrittenAgain(conversation: string, canSync: bool, s1: string, id: string)
    requires conversation != "" && ValidClientId(s1)
    ensures var y0 := Beginning(conversation, EMPTY, Starts, canSync);
      && IsRun(y0, SettledRun(conversation, s1, id))
      && var y, merge := After(y0, SettledRun(conversation, s1, id)), Attached(Some(FirstSnapshot(conversation, s1)));
      && Log(y) == [Turn(s1, id)] && (s1, "") in y.wire && s1 !in Memory(y) && y.client.link.connected
      && Possible(y, merge) && s1 in WrittenIds(Apply(y.client, merge, ROOM).1) && s1 in Memory(AfterLocal(y, merge, ROOM))
  {
    hide IsRun, After, AfterLocal, AfterArrival, Apply;
    SentRunSends(conversation, canSync, s1);
    var y0 := Beginning(conversation, EMPTY, Starts, canSync);
    var ts := SentRun(conversation, s1);
    var a := After(y0, ts);
    var m := Message(Some(s1), id, true, "");
    FirstArrival(a, s1, id);
    LeadsOn(y0, ts, a, Arrives(m, false));
    var b := AfterArrival(a, m, false);
    ts := ts + [Arrives(m, false)];
    var ack := Receive(Ack(s1, id, Some(1)));
    AckEmpties(b.client, conversation, s1, id);
    LocalFields(b, ack, CALM);
    LedLocal(y0, ts, b, ack, CALM);
    var c := AfterLocal(b, ack, CALM);
    StillAttaching(b, ack, CALM);
    MergeFollows(c, conversation, s1);
  }

  lemma FirstArrival(y: System, s1: string, id: string)
    requires y.server == EMPTY && (s1, "") in y.wire
    ensures Enabled(y, Arrives(Message(Some(s1), id, true, ""), false))
    ensures var z := AfterArrival(y, Message(Some(s1), id, true, ""), false);
      && Log(z) == [Turn(s1, id)] && Ack(s1, id, Some(1)) in z.acks && z.client == y.client && z.load == y.load && z.wire == y.wire
      && z.conversation == y.conversation && z.ledger == y.ledger
  {
  }

  /** The answer of the storage waits for the attach, whatever else the session receives. */
  lemma StillAttaching(y: System, e: Event, env: Env)
    requires y.client.link.attaching && e.Receive? && AfterLocal(y, e, env).client.link.attaching
    ensures AfterLocal(y, e, env).load.reading == y.load.reading && AfterLocal(y, e, env).load.opening == y.load.opening
  {
    hide Apply, Observed, Recorded, Entered, Gone;
  }

  lemma MergeFollows(y: System, conversation: string, s1: string)
    requires Emptied(y.client) && !y.load.opening && y.load.reading == Answered(Some(FirstSnapshot(conversation, s1)))
    ensures var merge := Attached(Some(FirstSnapshot(conversation, s1)));
      && s1 !in Memory(y) && Possible(y, merge) && s1 in WrittenIds(Apply(y.client, merge, ROOM).1)
      && s1 in Memory(AfterLocal(y, merge, ROOM))
  {
    hide Apply, AfterLocal;
    var merge := Attached(Some(FirstSnapshot(conversation, s1)));
    MergeIsWritten(y.client, FirstSnapshot(conversation, s1), s1);
    LocalFields(y, merge, ROOM);
    assert Ids([]) == {};
  }

  // ---------------------------------------------------------------------
  // Rejected sends
  // ---------------------------------------------------------------------

  /** The step brings a send into the outbox from the storage's answer. */
  predicate Brings(y: System, t: Step, id: string) {
    || (t.Local? && t.event.Attached? && y.client.link.attaching && id in IdsOf(t.event.raw))
    || (t.LoadDone? && id in Fetched(y))
  }

  /**
   * In every reachable state: a rejected send that is not in the outbox gets there again at exactly the
   * steps that bring it from the storage's answer, and is written at no other step.
   */
  lemma RejectedReturnsIffBrought(y: System, t: Step, id: string, text: string)
    requires Reachable(y) && Enabled(y, t) && id in y.ledger.rejected && id !in Memory(y)
    ensures id in Memory(Next(y, t)) <==> Brings(y, t, id)
    ensures (id, text) !in y.wire && (id, text) in Next(y, t).wire ==> Brings(y, t, id)
  {
    hide Reachable, Apply, Handled, Observed, Recorded, Ids, Unresolved, ServerTells, Receiving, ExactlyOnce.Kept, Journal, OwnFirst, OwnKept;
    ReachableIsFine(y);
    match t
    case Local(e, env) =>
      LocalSets(y, e, env);
      EntriesMove(y, e, env);
    case LoadDone => LoadBrings(y);
    case Crash(birth) => CrashSets(y, birth);
    case _ =>
  }

  /**
   * In every reachable state a rejected send can still be stored by the server if and only if it was ever
   * written: a copy that is on the way is enough, and a send that comes back may be written then.
   */
  lemma RejectedStoredIffWritten(y: System, m: Message, swallowAck: bool, id: string)
    requires Reachable(y) && id in y.ledger.rejected && id !in Turns(Log(y)) && m.clientId == Some(id) && FreshId(Log(y), m.id)
    ensures Enabled(y, Arrives(m, swallowAck)) <==> (id, m.text) in y.wire
    ensures (id, m.text) in y.wire ==> id in Turns(Log(AfterArrival(y, m, swallowAck)))
    ensures forall t :: Enabled(y, t) && id in Turns(Log(Next(y, t))) ==> t.Arrives? && t.message.clientId == Some(id) && (id, t.message.text) in y.wire
  {
    hide Reachable, Receiving, ExactlyOnce.Kept, Journal, OwnFirst, OwnKept, Ids, Unresolved;
    ReachableIsFine(y);
    if (id, m.text) in y.wire {
      ArrivalIsLogged(y, m, swallowAck, id);
    }
    forall t | Enabled(y, t) && id in Turns(Log(Next(y, t)))
      ensures t.Arrives? && t.message.clientId == Some(id) && (id, t.message.text) in y.wire
    {
      OnlyArrivalsLog(y, t, id);
    }
  }

  lemma ArrivalIsLogged(y: System, m: Message, swallowAck: bool, id: string)
    requires ServerTells(y) && m.clientId == Some(id)
    ensures id in Turns(Log(AfterArrival(y, m, swallowAck)))
  {
    hide Handled, Transcript;
    HandlingIsConsistent(y.server, y.conversation, m, None, swallowAck);
    var z := AfterArrival(y, m, swallowAck);
    var k := (y.conversation, id);
    assert KeyHolds(z.server, k);
    assert z.server.keys[k] in Log(z);
  }

  lemma OnlyArrivalsLog(y: System, t: Step, id: string)
    requires Enabled(y, t) && id !in Turns(Log(y)) && id in Turns(Log(Next(y, t))) && id in y.ledger.accepted
    ensures t.Arrives? && t.message.clientId == Some(id) && (id, t.message.text) in y.wire
  {
    hide Next, Turns, AfterArrival;
    OthersKeepLog(y, t);
    if t.Arrives? {
      ArrivalAppends(y, t.message, t.swallowAck);
    }
  }

  lemma OthersKeepLog(y: System, t: Step)
    requires Enabled(y, t)
    ensures if t.Arrives? then Next(y, t) == AfterArrival(y, t.message, t.swallowAck) else Log(Next(y, t)) == Log(y)
  {
    hide Apply, Observed, Recorded, Ids, Unresolved, Entered, Gone, LoadEnded, Handled;
  }

  lemma ArrivalAppends(y: System, m: Message, swallowAck: bool)
    ensures Turns(Log(AfterArrival(y, m, swallowAck))) <= Turns(Log(y)) + (if m.clientId.Some? then {m.clientId.value} else {})
  {
  }

  /** The send is rejected instead, while the attach loads. */
  function RejectedRun(conversation: string, s1: string): seq<Step> {
    SentRun(conversation, s1) + [Local(Receive(Error(Final(s1))), CALM)]
  }

  /**
   * A run from the beginning: the caller is told that the send has failed for good; a copy of it may
   * still reach the server; and the attach merges the send and writes it again.
   */
  lemma RejectedSendIsWrittenAgain(conversation: string, canSync: bool, s1: string, id: string)
    requires conversation != "" && ValidClientId(s1)
    ensures var y0 := Beginning(conversation, EMPTY, Starts, canSync);
      && IsRun(y0, RejectedRun(conversation, s1))
      && var y, merge := After(y0, RejectedRun(conversation, s1)), Attached(Some(FirstSnapshot(conversation, s1)));
      && s1 in y.ledger.rejected && s1 !in Turns(Log(y))
      && Enabled(y, Arrives(Message(Some(s1), id, true, ""), false))
      && s1 in Turns(Log(AfterArrival(y, Message(Some(s1), id, true, ""), false)))
      && Possible(y, merge) && s1 in WrittenIds(Apply(y.client, merge, ROOM).1)
  {
    hide IsRun, After, AfterLocal, AfterArrival, Apply;
    SentRunSends(conversation, canSync, s1);
    var y0 := Beginning(conversation, EMPTY, Starts, canSync);
    var ts := SentRun(conversation, s1);
    var a := After(y0, ts);
    var e := Receive(Error(Final(s1)));
    ErrorEmpties(a.client, conversation, s1);
    LocalFields(a, e, CALM);
    LedLocal(y0, ts, a, e, CALM);
    var b := AfterLocal(a, e, CALM);
    StillAttaching(a, e, CALM);
    Rejects(a, e, CALM);
    MergeFollows(b, conversation, s1);
    EmptyIsReady(conversation);
    FirstArrival(b, s1, id);
    assert Turn(s1, id) in [Turn(s1, id)];
  }

  lemma Rejects(y: System, e: Event, env: Env)
    requires e.Receive? && e.frame.Error?
    ensures AfterLocal(y, e, env).ledger.rejected == y.ledger.rejected + Gone(y.client, e)
  {
    hide Apply, Observed, Recorded, Entered, Gone;
  }
}
