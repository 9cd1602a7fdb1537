/** From every state that is not stopped, something can happen that delivers everything in both directions. */
module Convergence {
  import opened Prefix
  import opened Outbox
  import opened ConversationProtocol
  import opened ConversationReceive
  import opened ConversationSend
  import opened ConversationOutbox
  import opened ServerLog
  import opened ExactlyOnce
  import opened DurableSends

  // ---------------------------------------------------------------------
  // Pieces of runs
  // ---------------------------------------------------------------------

  /** The conversation and the fate of the accepted sends are as they were; the log may have grown. */
  ghost predicate SameFate(y: System, z: System) {
    && z.conversation == y.conversation && Log(y) <= Log(z)
    && z.ledger.accepted == y.ledger.accepted && z.ledger.rejected == y.ledger.rejected && z.ledger.lost == y.ledger.lost
  }

  /** The session may go on, and resume() does not wait for its load. */
  predicate Running(y: System) {
    !y.client.link.stopped && !y.load.opening
  }

  ghost predicate Goes(y: System, ts: seq<Step>, z: System) {
    Leads(y, ts, z) && Inv(z) && SameFate(y, z)
  }

  lemma {:induction false} GoesOn(y: System, a: seq<Step>, z: System, b: seq<Step>, w: System)
    requires Goes(y, a, z) && Goes(z, b, w)
    ensures Goes(y, a + b, w)
    decreases |a|
  {
    LeadsAcross(y, a, z, b, w);
  }

  lemma {:induction false} LeadsAcross(y: System, a: seq<Step>, z: System, b: seq<Step>, w: System)
    requires Leads(y, a, z) && Leads(z, b, w)
    ensures Leads(y, a + b, w)
    decreases |a|
  {
    hide Next, Enabled;
    if a == [] {
      assert a + b == b;
    } else {
      assert (a + b)[0] == a[0] && (a + b)[1..] == a[1..] + b;
      LeadsAcross(Next(y, a[0]), a[1..], z, b, w);
    }
  }

  lemma OneStep(y: System, t: Step)
    requires Enabled(y, t)
    ensures Leads(y, [t], Next(y, t))
  {
    hide Next, Enabled;
    assert [] + [t] == [t];
    assert Leads(y, [], y);
    LeadsOn(y, [], y, t);
  }

  /** An event that enters and rejects no send. */
  predicate Harmless(e: Event) {
    !e.Send? && (e.Receive? ==> !e.frame.Error?)
  }

  lemma GoLocal(y: System, e: Event, env: Env)
    requires Inv(y) && Possible(y, e) && Harmless(e)
    ensures var z := AfterLocal(y, e, env);
      && Goes(y, [Local(e, env)], z) && z.client == Apply(y.client, e, env).0
      && Memory(z) == Memory(y) + Entered(y.client, e) - Gone(y.client, e)
      && z.load == LoadAfter(y, e, z.client) && z.conversation == y.conversation && z.server == y.server
      && z.acks == y.acks && z.wire == y.wire + WrittenFrames(Apply(y.client, e, env).1)
  {
    hide Apply, Inv, Observed, Recorded, IsRun, After, Memory, Entered, Gone;
    LocalKeepsInv(y, e, env);
    LocalSets(y, e, env);
    OneStep(y, Local(e, env));
  }

  /** A run, and then such an event. */
  lemma ThenLocal(y: System, ts: seq<Step>, z: System, e: Event, env: Env)
    requires Goes(y, ts, z) && Possible(z, e) && Harmless(e)
    ensures var w := AfterLocal(z, e, env);
      && Goes(y, ts + [Local(e, env)], w) && w.client == Apply(z.client, e, env).0
      && Memory(w) == Memory(z) + Entered(z.client, e) - Gone(z.client, e)
      && w.load == LoadAfter(z, e, w.client) && w.conversation == y.conversation && w.server == z.server
      && w.acks == z.acks && w.wire == z.wire + WrittenFrames(Apply(z.client, e, env).1)
  {
    hide Apply, Inv, AfterLocal, Memory, Entered, Gone, Leads, Possible;
    GoLocal(z, e, env);
    GoesOn(y, ts, z, [Local(e, env)], AfterLocal(z, e, env));
  }

  // ---------------------------------------------------------------------
  // A new connection
  // ---------------------------------------------------------------------

  /** An open connection with an empty window of one, behind nothing. */
  predicate Fresh(c: Client, conversation: string) {
    && c.link.connected && c.link.phase == Open && !c.link.replaying && !c.link.stopped
    && c.link.conversationId == conversation && c.store.key == Some(conversation)
    && c.window.inFlight == {} && c.window.maxInFlight == 1
  }

  function Hello(conversation: string): Event {
    Receive(Welcome(conversation, None, Some(1)))
  }

  /** A connection that has just begun. */
  predicate Dialled(c: Client, conversation: string) {
    c.link.connected && !c.link.stopped && c.window.inFlight == {} && c.link.conversationId in {"", conversation}
  }

  /** What a new connection does not change: the conversation, the key and the attach that is under way. */
  predicate SameAttach(c: Client, d: Client) {
    && d.link.conversationId == c.link.conversationId && d.link.stopped == c.link.stopped
    && d.link.attaching == c.link.attaching && d.store.key == c.store.key
  }

  lemma Dials(c: Client)
    requires !c.link.stopped
    ensures var d := Apply(c, Connect, CALM).0; d.link.connected && SameAttach(c, d)
    ensures c.window.inFlight == {} ==> Apply(c, Connect, CALM).0.window.inFlight == {}
  {
  }

  lemma HangsUp(c: Client)
    requires c.link.connected && !c.link.stopped
    ensures var d := Apply(c, Close(false), CALM).0; d.window.inFlight == {} && SameAttach(c, d)
  {
  }

  lemma Welcomed(c: Client, conversation: string)
    requires Dialled(c, conversation) && conversation != ""
    ensures var d := Apply(c, Hello(conversation), CALM).0;
      && Fresh(d, conversation)
      && d.link.attaching == (c.link.attaching || c.store.key != Some(conversation))
  {
    assert Apply(c, Hello(conversation), CALM).0 == ApplyWelcome(c, Welcome(conversation, None, Some(1)));
  }

  /** The store follows the conversation. */
  predicate Keyed(y: System) {
    !y.client.link.attaching && y.client.store.key == Some(y.conversation)
  }

  /** The connection is closed and opened anew. */
  lemma Reconnect(y: System) returns (ts: seq<Step>, z: System)
    requires Inv(y) && Running(y)
    ensures Goes(y, ts, z) && Fresh(z.client, y.conversation) && z.conversation == y.conversation && !z.load.opening
    ensures Memory(z) == Memory(y) && (Keyed(y) ==> Keyed(z))
    ensures !z.client.link.attaching ==> z.load.done == y.load.done
  {
    hide Inv, Apply, AfterLocal, Goes, Memory;
    Named(y);
    Dials(y.client);
    GoLocal(y, Connect, CALM);
    var a := AfterLocal(y, Connect, CALM);
    HangsUp(a.client);
    ThenLocal(y, [Local(Connect, CALM)], a, Close(false), CALM);
    var b := AfterLocal(a, Close(false), CALM);
    Dials(b.client);
    ts := [Local(Connect, CALM)] + [Local(Close(false), CALM)];
    ThenLocal(y, ts, b, Connect, CALM);
    var d := AfterLocal(b, Connect, CALM);
    ts := ts + [Local(Connect, CALM)];
    Welcomed(d.client, y.conversation);
    ThenLocal(y, ts, d, Hello(y.conversation), CALM);
    z := AfterLocal(d, Hello(y.conversation), CALM);
    ts := ts + [Local(Hello(y.conversation), CALM)];
  }

  lemma Named(y: System)
    requires Inv(y)
    ensures y.conversation != "" && y.client.link.conversationId in {"", y.conversation}
    ensures !Outstanding(y) ==> y.load.reading.Unread? && Fetched(y) == {}
  {
  }

  // ---------------------------------------------------------------------
  // The load is finished
  // ---------------------------------------------------------------------

  lemma Attaches(c: Client, raw: Option<Snapshot>, conversation: string)
    requires Fresh(c, conversation)
    ensures var d := Apply(c, Attached(raw), CALM).0; Fresh(d, conversation) && !d.link.attaching
  {
    hide Loaded;
    var d := StateSaved(Attachment(c, raw));
    assert d.store.key == c.store.key by {
      LoadKeepsKey(c.store, raw);
    }
    if CanWrite(d) {
      NoRoom(d, 0, CALM);
    }
  }

  lemma LoadKeepsKey(s: Store, raw: Option<Snapshot>)
    ensures Loaded(s, raw).key == s.key
  {
  }

  /** The storage answers. */
  lemma GoRead(y: System)
    requires Inv(y) && Outstanding(y) && y.load.reading.Unread?
    ensures Goes(y, [ReadDone(true)], AfterRead(y, true))
  {
    hide Inv, IsRun, After;
    ReadKeepsInv(y, true);
    OneStep(y, ReadDone(true));
  }

  lemma FinishAttach(y: System) returns (ts: seq<Step>, z: System)
    requires Inv(y) && Fresh(y.client, y.conversation) && !y.load.opening
    ensures Goes(y, ts, z) && Fresh(z.client, y.conversation) && z.conversation == y.conversation && !z.load.opening
    ensures !z.client.link.attaching && (!y.client.link.attaching ==> z == y)
  {
    hide Inv, Apply, AfterLocal, Goes, Memory, Fresh, OnDisk;
    ts, z := [], y;
    Stays(y);
    if y.client.link.attaching {
      if y.load.reading.Unread? {
        GoRead(y);
        ts, z := [ReadDone(true)], AfterRead(y, true);
      }
      var raw := Raw(z.load.reading);
      Attaches(z.client, raw, y.conversation);
      ThenLocal(y, ts, z, Attached(raw), CALM);
      ts, z := ts + [Local(Attached(raw), CALM)], AfterLocal(z, Attached(raw), CALM);
    }
  }

  lemma Stays(y: System)
    requires Inv(y)
    ensures Goes(y, [], y)
  {
  }

  /** resume() gets what the storage holds. */
  lemma FinishLoad(y: System) returns (ts: seq<Step>, z: System)
    requires Inv(y) && y.load.opening && !y.client.link.stopped
    ensures Goes(y, ts, z) && Running(z) && Keyed(z)
    ensures y.load.reading.Unread? ==> z.load.done
  {
    hide Inv, Leads, SameFate, OnDisk, AfterLoad;
    ts, z := [], y;
    Stays(y);
    if y.load.reading.Unread? {
      GoRead(y);
      ts, z := [ReadDone(true)], AfterRead(y, true);
    }
    GoLoad(z);
    GoesOn(y, ts, z, [LoadDone], AfterLoad(z));
    ts, z := ts + [LoadDone], AfterLoad(z);
  }

  lemma GoLoad(y: System)
    requires Inv(y) && y.load.opening && !y.load.reading.Unread?
    ensures var z := AfterLoad(y);
      && Goes(y, [LoadDone], z) && z.client.link == y.client.link && !z.load.opening
      && Keyed(z) && z.load.done == y.load.reading.Answered?
  {
    hide IsRun, After;
    LoadKeepsInv(y);
    LoadKeepsKey(y.client.store, Raw(y.load.reading));
    OneStep(y, LoadDone);
  }

  // ---------------------------------------------------------------------
  // The outbox is emptied
  // ---------------------------------------------------------------------

  /** An id that no activity of the log has: it is longer than all of them. */
  function NewId(log: seq<Activity>): (id: string)
    ensures forall a :: a in log ==> a.id != Some(id)
    ensures forall a :: a in log && a.id.Some? ==> |a.id.value| < |id|
  {
    if log == [] then "x"
    else
      var rest := NewId(log[1..]);
      assert forall a :: a in log ==> a == log[0] || a in log[1..];
      if log[0].id.Some? && |log[0].id.value| >= |rest| then log[0].id.value + "x" else rest
  }

  /** Connected, with nothing left to load and a store of the conversation. */
  ghost predicate Settled(y: System) {
    Inv(y) && Running(y) && Keyed(y) && y.client.link.connected
  }

  /** The clock shows a time when the oldest entry may be sent. */
  function DueTime(c: Client): int
    requires c.store.entries != []
  {
    var id := c.store.entries[0].clientId;
    if id in c.window.retryAt then c.window.retryAt[id] else 0
  }

  lemma WritesOldest(c: Client, conversation: string)
    requires Fresh(c, conversation) && c.store.entries != []
    ensures var (d, out) := Apply(c, RetryTimer, Env(DueTime(c), 1));
      (c.store.entries[0].clientId, c.store.entries[0].body) in WrittenFrames(out)
  {
    hide Touched;
    var env := Env(DueTime(c), 1);
    var e := c.store.entries[0];
    assert Due(c, e, env.now) && CanWrite(c) && |c.window.inFlight| == 0;
    TouchedIds(c.store, e.clientId);
    var rest := FlushedFrom(WrittenOnce(c, e), 1, env.(room := 0)).1;
    assert FlushedFrom(c, 0, env).1 == [Written(e)] + rest;
    assert Written(e) in [Written(e)] + rest;
  }

  /** The timer that retries sends, and what the server sends of the log. */
  predicate Ordinary(e: Event) {
    e.RetryTimer? || (e.Receive? && (e.frame.Ack? || e.frame.Persistent?))
  }

  predicate SameLink(c: Client, d: Client) {
    && d.link.connected == c.link.connected && d.link.stopped == c.link.stopped
    && d.link.attaching == c.link.attaching && d.store.key == c.store.key
  }

  lemma StaysConnectedAtAck(c: Client, f: Frame, env: Env)
    requires f.Ack?
    ensures SameLink(c, ApplyAck(c, f, env).0)
  {
    hide Flushed;
    var d := if f.seqNo.Some? then Seen(c, f.seqNo.value) else c;
    assert SameLink(c, d) by {
      hide Marked;
    }
    hide Seen;
    var e := SettledSend(d, f.clientId, f.id, f.seqNo).0;
    assert SameLink(d, e);
    hide SettledSend;
    FlushedKeepsRest(e, env);
  }

  lemma StaysConnectedAtTurn(c: Client, a: Activity, env: Env)
    ensures SameLink(c, ApplyPersistent(c, a, env).0)
  {
    hide Flushed, Marked, Owned;
    assert SameLink(c, Received(c, a).0);
    hide Received;
    FlushedKeepsRest(Caught(Received(c, a).0), env);
  }

  lemma StaysConnected(c: Client, e: Event, env: Env)
    requires Ordinary(e)
    ensures SameLink(c, Apply(c, e, env).0)
  {
    hide Flushed, ApplyAck, ApplyPersistent;
    if e.RetryTimer? {
      FlushedKeepsRest(c, env);
    } else if e.frame.Ack? {
      StaysConnectedAtAck(c, e.frame, env);
    } else {
      StaysConnectedAtTurn(c, e.frame.activity, env);
    }
  }

  /** Such an event leaves a settled session settled. */
  lemma ThenOrdinary(y: System, ts: seq<Step>, z: System, e: Event, env: Env)
    requires Goes(y, ts, z) && Settled(z) && Possible(z, e) && Ordinary(e)
    ensures var w := AfterLocal(z, e, env);
      && Goes(y, ts + [Local(e, env)], w) && Settled(w) && w.client == Apply(z.client, e, env).0
      && Memory(w) == Memory(z) - Gone(z.client, e) && w.load.done == z.load.done
      && w.conversation == y.conversation && w.server == z.server && w.wire == z.wire + WrittenFrames(Apply(z.client, e, env).1)
  {
    hide Apply, Inv, AfterLocal, Memory, Gone, Leads, Possible;
    ThenLocal(y, ts, z, e, env);
    StaysConnected(z.client, e, env);
  }

  /** The server stores the send or knows it already, and acknowledges it. */
  lemma GoArrive(y: System, id: string, text: string) returns (t: Step, f: Frame)
    requires Inv(y) && (id, text) in y.wire
    ensures Enabled(y, t) && t.Arrives? && f.Ack? && f.clientId == id
    ensures var z := Next(y, t);
      && Goes(y, [t], z) && z.client == y.client && z.load == y.load && z.conversation == y.conversation && f in z.acks
  {
    hide Inv, IsRun, After, Handled, Consistent;
    var m := Message(Some(id), NewId(Log(y)), true, text);
    t := Arrives(m, false);
    ArrivalKeepsInv(y, m, false);
    assert Consistent(y.server) by {
      Tells(y);
    }
    HandlingIsConsistent(y.server, y.conversation, m, None, false);
    f := Answer(y.server, y.conversation, m);
    OneStep(y, t);
  }

  lemma Tells(y: System)
    requires Inv(y)
    ensures Consistent(y.server)
  {
  }

  lemma Answer(s: Server, conversation: string, m: Message) returns (f: Frame)
    requires m.clientId.Some?
    ensures Handled(s, conversation, m, None, false).1 == Some(f) && f.Ack?
  {
    f := Handled(s, conversation, m, None, false).1.value;
  }

  /** One send is written, reaches the server and is acknowledged. */
  lemma DeliverOne(y: System) returns (ts: seq<Step>, z: System)
    requires Settled(y) && Memory(y) != {}
    ensures Goes(y, ts, z) && Settled(z) && z.load.done == y.load.done && Memory(z) < Memory(y)
  {
    hide Inv, Apply, AfterLocal, Leads, SameFate, Fresh, Enabled, Next, Handled;
    var us, a := Reconnect(y);
    assert Settled(a) by {
      Connected(a.client, y.conversation);
    }
    var entries := a.client.store.entries;
    assert entries != [] by {
      assert Memory(a) != {};
    }
    var id := entries[0].clientId;
    var env := Env(DueTime(a.client), 1);
    WritesOldest(a.client, y.conversation);
    ThenOrdinary(y, us, a, RetryTimer, env);
    var b := AfterLocal(a, RetryTimer, env);
    us := us + [Local(RetryTimer, env)];
    var t, f := GoArrive(b, id, entries[0].body);
    var d := Next(b, t);
    GoesOn(y, us, b, [t], d);
    us := us + [t];
    ThenOrdinary(y, us, d, Receive(f), CALM);
    ts, z := us + [Local(Receive(f), CALM)], AfterLocal(d, Receive(f), CALM);
    assert id in Memory(y) && Memory(d) == Memory(y) && Memory(z) == Memory(y) - {id};
  }

  lemma Connected(c: Client, conversation: string)
    requires Fresh(c, conversation)
    ensures c.link.connected && !c.link.stopped && c.store.key == Some(conversation)
  {
  }

  lemma {:induction false} Drain(y: System) returns (ts: seq<Step>, z: System)
    requires Settled(y)
    ensures Goes(y, ts, z) && Settled(z) && z.load.done == y.load.done && Memory(z) == {}
    decreases Memory(y)
  {
    hide Inv, Settled, Goes, Memory;
    if Memory(y) == {} {
      assert Goes(y, [], y) by {
        SettledIsFine(y);
        Stays(y);
      }
      ts, z := [], y;
    } else {
      var us, a := DeliverOne(y);
      var vs, b := Drain(a);
      GoesOn(y, us, a, vs, b);
      ts, z := us + vs, b;
    }
  }

  lemma SettledIsFine(y: System)
    requires Settled(y)
    ensures Inv(y)
  {
  }

  // ---------------------------------------------------------------------
  // The log is received
  // ---------------------------------------------------------------------

  /** The next activity of the log. */
  lemma NextFrame(y: System)
    requires Inv(y) && y.client.link.connected && y.client.inbox.watermark < |Log(y)|
    ensures y.client.inbox.watermark >= 0
    ensures var e := Receive(Persistent(Log(y)[y.client.inbox.watermark]));
      && (!y.load.opening ==> Possible(y, e))
      && y.client.inbox.watermark < Apply(y.client, e, CALM).0.inbox.watermark
  {
    hide Apply, Outgoing;
    var w := y.client.inbox.watermark;
    assert w >= 0;
    var e := Receive(Persistent(Log(y)[w]));
    assert Log(y)[w].seqNo == w + 1;
    EventAccounts(y.client, e, CALM);
    assert Accounted(Apply(y.client, e, CALM).0.inbox, w + 1);
  }

  lemma WithinLog(y: System)
    requires Inv(y)
    ensures y.client.inbox.watermark <= |Log(y)|
  {
  }

  lemma {:induction false} CatchUp(y: System) returns (ts: seq<Step>, z: System)
    requires Settled(y)
    ensures Goes(y, ts, z) && Memory(z) <= Memory(y) && z.client.inbox.watermark == |Log(z)| && z.server == y.server
    decreases |Log(y)| - y.client.inbox.watermark
  {
    hide Inv, Apply, AfterLocal, Leads, SameFate, Memory, Gone, Possible;
    WithinLog(y);
    Stays(y);
    if y.client.inbox.watermark == |Log(y)| {
      ts, z := [], y;
    } else {
      NextFrame(y);
      var e := Receive(Persistent(Log(y)[y.client.inbox.watermark]));
      ThenOrdinary(y, [], y, e, CALM);
      var a := AfterLocal(y, e, CALM);
      WithinLog(a);
      var us, b := CatchUp(a);
      GoesOn(y, [] + [Local(e, CALM)], a, us, b);
      ts, z := [] + [Local(e, CALM)] + us, b;
    }
  }

  // ---------------------------------------------------------------------
  // Convergence
  // ---------------------------------------------------------------------

  lemma Settle(y: System) returns (ts: seq<Step>, z: System)
    requires Inv(y) && Running(y)
    ensures Goes(y, ts, z) && Settled(z) && (Keyed(y) ==> z.load.done == y.load.done)
  {
    hide Inv, Leads, SameFate, Fresh, Memory;
    var us, a := Reconnect(y);
    var vs, b := FinishAttach(a);
    GoesOn(y, us, a, vs, b);
    Connected(b.client, y.conversation);
    ts, z := us + vs, b;
  }

  /** A new process loads what is left in the storage; with nothing in memory, no send is lost. */
  lemma Restart(y: System) returns (ts: seq<Step>, z: System)
    requires Settled(y) && Memory(y) == {}
    ensures Goes(y, ts, z) && Running(z) && Keyed(z) && z.load.done
  {
    hide Inv, Memory, IsRun, After, Unresolved, Disk;
    var a := AfterCrash(y, Resumes);
    assert Inv(a) && SameFate(y, a) by {
      StepKeepsInv(y, Crash(Resumes));
      CrashSets(y, Resumes);
      OnlyOnDisk(y);
    }
    OneStep(y, Crash(Resumes));
    var us, b := FinishLoad(a);
    GoesOn(y, [Crash(Resumes)], a, us, b);
    ts, z := [Crash(Resumes)] + us, b;
  }

  lemma OnlyOnDisk(y: System)
    requires Inv(y) && Memory(y) == {} && !Outstanding(y)
    ensures Unresolved(y) <= Disk(y)
  {
    hide Unresolved, Disk, Memory;
    Named(y);
  }

  lemma NothingLeft(y: System)
    requires Inv(y) && Memory(y) == {} && y.load.done
    ensures Unresolved(y) == {}
  {
    hide Unresolved, Memory;
  }

  /** Everything that was accepted is in the log, rejected or lost, and everything in the log is accounted for. */
  ghost predicate Converged(y: System) {
    && y.client.store.entries == [] && y.client.inbox.watermark == |Log(y)|
    && y.ledger.accepted <= Turns(Log(y)) + y.ledger.rejected + y.ledger.lost
  }

  /** The outbox is emptied, and so is what only the storage holds. */
  lemma Deliver(y: System) returns (ts: seq<Step>, z: System)
    requires Inv(y) && Running(y)
    ensures Goes(y, ts, z) && Settled(z) && Memory(z) == {} && Unresolved(z) == {}
  {
    hide Inv, Goes, Memory, Unresolved, Running, Keyed;
    var us, a := Settle(y);
    var vs, b := Drain(a);
    GoesOn(y, us, a, vs, b);
    ts, z := us + vs, b;
    if Unresolved(b) != {} {
      var ws, d := Restart(b);
      GoesOn(y, ts, b, ws, d);
      var xs, e := Settle(d);
      GoesOn(y, ts + ws, d, xs, e);
      var zs, g := Drain(e);
      GoesOn(y, ts + ws + xs, e, zs, g);
      NothingLeft(g);
      ts, z := ts + ws + xs + zs, g;
    }
  }

  /**
   * From every state that a run can lead to, as long as the session is not stopped, some further run
   * empties the outbox and brings the watermark to the head; every accepted send is then in the log,
   * unless it was rejected or lost before, and no send is rejected or lost on the way.
   */
  lemma Converges(y: System)
    requires Reachable(y) && !y.client.link.stopped
    ensures exists ts, z :: Leads(y, ts, z) && SameFate(y, z) && Converged(z)
  {
    hide Inv, Reachable, Leads, Memory, Unresolved;
    ReachableIsFine(y);
    Stays(y);
    var ts, a := [], y;
    if y.load.opening {
      ts, a := FinishLoad(y);
    }
    var us, b := Deliver(a);
    GoesOn(y, ts, a, us, b);
    var vs, z := CatchUp(b);
    GoesOn(y, ts + us, b, vs, z);
    assert Converged(z) by {
      Arrived(b, z);
    }
    assert Leads(y, ts + us + vs, z) && SameFate(y, z);
  }

  lemma Arrived(y: System, z: System)
    requires Unresolved(y) == {} && SameFate(y, z) && z.server == y.server
    requires Memory(z) == {} && z.client.inbox.watermark == |Log(z)|
    ensures Converged(z)
  {
    assert Log(z) == Log(y);
    assert z.client.store.entries != [] ==> z.client.store.entries[0].clientId in Memory(z);
    forall id | id in z.ledger.accepted
      ensures id in Turns(Log(z)) + z.ledger.rejected + z.ledger.lost
    {
      assert id !in Unresolved(y);
    }
  }
}
