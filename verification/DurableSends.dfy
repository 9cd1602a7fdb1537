/**
 * When a send that had reached the storage can still be lost: exactly when a snapshot that another
 * process had queued before it had loaded the storage replaces the one that holds it.
 */
module DurableSends {
  import opened Prefix
  import opened Outbox
  import opened ConversationProtocol
  import opened ConversationReceive
  import opened ConversationOutbox
  import opened ServerLog
  import opened ExactlyOnce

  // ---------------------------------------------------------------------
  // The exact condition
  // ---------------------------------------------------------------------

  /** A send that is in the storage, and whose fate is open. */
  predicate InStorage(y: System, id: string) {
    id in Disk(y) && id in Unresolved(y)
  }

  /** Whether the oldest pending write holds a stored send. */
  lemma OldestWriteHolds(y: System, id: string)
    requires Inv(y) && InStorage(y, id) && y.client.store.writing != []
    ensures id !in Ids(Queue(y)[0].outbox) <==> y.load.early > 0 && id !in y.ledger.mine
  {
    hide Receiving, ServerTells, Ids, Unresolved, Queue, Kept, Journal, OwnFirst, OwnKept, Durable, Disk;
    QueueLength(y);
    EarlyWriteHoldsOwn(y);
    assert id !in Ids(Queue(y)[0].outbox) <==> id in Disk(y) * Unresolved(y) - Ids(Queue(y)[0].outbox);
  }

  /**
   * The oldest pending write reaches the storage and the process dies. A stored send is lost if and
   * only if that write was queued before the load had ended, and another process had accepted the send.
   */
  lemma StoredLostIffEarly(y: System, id: string, birth: Birth)
    requires Reachable(y) && InStorage(y, id) && y.client.store.writing != []
    ensures IsRun(y, [WriteDone(true), Crash(birth)])
    ensures id in After(y, [WriteDone(true), Crash(birth)]).ledger.lost <==> y.load.early > 0 && id !in y.ledger.mine
  {
    hide Reachable, AfterWrite, AfterCrash, Unresolved, Ids, ServerTells, Receiving, Kept, Journal, OwnFirst, OwnKept, Durable, Identified;
    ReachableIsFine(y);
    OldestWriteHolds(y, id);
    WriteSets(y, true);
    var y' := AfterWrite(y, true);
    CrashSets(y', birth);
    UnresolvedIsAccepted(y);
    TwoSteps(y, WriteDone(true), Crash(birth));
  }

  lemma TwoSteps(y: System, t: Step, u: Step)
    requires Enabled(y, t) && Enabled(Next(y, t), u)
    ensures IsRun(y, [t, u]) && After(y, [t, u]) == Next(Next(y, t), u)
  {
    hide Next, Enabled;
    var z := Next(y, t);
    assert [t, u][1..] == [u] && [u][1..] == [];
    assert IsRun(Next(z, u), []) && After(Next(z, u), []) == Next(z, u);
    assert IsRun(z, [u]) && After(z, [u]) == Next(z, u);
  }

  /**
   * Without any crash it is lost at once if and only if, besides, the storage has neither been loaded
   * nor answered the load yet: then the send is nowhere else.
   */
  lemma StoredLostAtOnceIffUnread(y: System, id: string)
    requires Reachable(y) && InStorage(y, id) && y.client.store.writing != []
    ensures id in AfterWrite(y, true).ledger.lost <==>
      !y.load.done && !y.load.reading.Answered? && id !in y.ledger.mine
  {
    hide Reachable, AfterWrite, Unresolved, Ids, ServerTells, Receiving, Journal, Sound, Durable;
    ReachableIsFine(y);
    OldestWriteHolds(y, id);
    WriteSets(y, true);
    UnresolvedIsAccepted(y);
    assert id in Disk(y) * Unresolved(y);
    assert !y.load.reading.Answered? ==> Fetched(y) == {};
  }

  /** Of the unresolved sends that ever were in the storage, a crash loses exactly those that have been replaced. */
  lemma CrashLosesIffReplaced(y: System, id: string, birth: Birth)
    requires Reachable(y) && id in y.ledger.durable && id in Unresolved(y)
    ensures id in AfterCrash(y, birth).ledger.lost <==> id in y.ledger.replaced
  {
    hide Reachable, AfterCrash, Unresolved, ServerTells, Receiving, Kept, Journal, OwnFirst, OwnKept, Disk;
    ReachableIsFine(y);
    CrashSets(y, birth);
    UnresolvedIsAccepted(y);
    assert id in y.ledger.durable * Unresolved(y);
  }

  // ---------------------------------------------------------------------
  // Whole runs
  // ---------------------------------------------------------------------

  /** An early snapshot reaches the storage while that holds an open send of another process. */
  predicate Displaces(y: System, t: Step) {
    t == WriteDone(true) && y.load.early > 0 && !(Disk(y) * Unresolved(y) <= y.ledger.mine)
  }

  ghost predicate NoneDisplaced(y: System, ts: seq<Step>)
    requires IsRun(y, ts)
    decreases |ts|
  {
    ts == [] || (!Displaces(y, ts[0]) && NoneDisplaced(Next(y, ts[0]), ts[1..]))
  }

  /** Every open send that ever was in the storage is there, and none that ever was there is lost. */
  ghost predicate AllStored(y: System) {
    y.ledger.durable * Unresolved(y) <= Disk(y) && y.ledger.durable !! y.ledger.lost
  }

  ghost predicate AlwaysStored(y: System, ts: seq<Step>)
    requires IsRun(y, ts)
    decreases |ts|
  {
    AllStored(y) && (ts == [] || AlwaysStored(Next(y, ts[0]), ts[1..]))
  }

  lemma DisplacingWrite(y: System)
    requires Inv(y) && y.client.store.writing != [] && y.ledger.replaced == {}
    ensures Displaces(y, WriteDone(true)) ==> !AllStored(AfterWrite(y, true))
    ensures !Displaces(y, WriteDone(true)) ==> AfterWrite(y, true).ledger.replaced == {}
  {
    hide Ids, Queue, ServerTells, Receiving, Kept, Journal, OwnFirst, OwnKept, Identified, AfterWrite, Disk, Unresolved;
    WriteSets(y, true);
    WriteShifts(y, true);
    WritesDurable(y, true);
    QueueLength(y);
    UnresolvedIsAccepted(y);
    if Displaces(y, WriteDone(true)) {
      var id :| id in Disk(y) * Unresolved(y) && id !in y.ledger.mine;
      OldestWriteHolds(y, id);
    }
  }

  lemma OthersKeepReplaced(y: System, t: Step)
    requires Enabled(y, t) && t != WriteDone(true)
    ensures Next(y, t).ledger.replaced == y.ledger.replaced
  {
    hide Apply, Observed, Recorded, Handled, Unresolved, Disk, Entered, Gone;
  }

  /**
   * In every run from the beginning: every open send that ever was in the storage is there all the
   * time, and none that ever was there is lost, if and only if no early snapshot reaches the storage
   * while that holds an open send of another process.
   */
  lemma StoredStaysIffNoneDisplaced(conversation: string, server: Server, birth: Birth, canSync: bool, ts: seq<Step>)
    requires Ready(conversation, server) && IsRun(Beginning(conversation, server, birth, canSync), ts)
    ensures var y := Beginning(conversation, server, birth, canSync); AlwaysStored(y, ts) <==> NoneDisplaced(y, ts)
  {
    hide IsRun, AlwaysStored, NoneDisplaced, Inv;
    BeginningIsFine(conversation, server, birth, canSync);
    AlwaysStoredIff(Beginning(conversation, server, birth, canSync), ts);
  }

  lemma {:induction false} AlwaysStoredIff(y: System, ts: seq<Step>)
    requires Inv(y) && IsRun(y, ts) && y.ledger.replaced == {}
    ensures AlwaysStored(y, ts) <==> NoneDisplaced(y, ts)
    decreases |ts|
  {
    hide Inv, Next, Enabled, AllStored, Displaces;
    NoneReplaced(y);
    if ts != [] {
      var t, z := ts[0], Next(y, ts[0]);
      assert (Displaces(y, t) ==> !AllStored(z)) && (!Displaces(y, t) ==> z.ledger.replaced == {}) by {
        StepDisplaces(y, t);
      }
      StepKeepsInv(y, t);
      if !Displaces(y, t) {
        AlwaysStoredIff(z, ts[1..]);
      } else {
        assert !AlwaysStored(z, ts[1..]);
      }
    }
  }

  lemma StepDisplaces(y: System, t: Step)
    requires Inv(y) && Enabled(y, t) && y.ledger.replaced == {}
    ensures Displaces(y, t) ==> !AllStored(Next(y, t))
    ensures !Displaces(y, t) ==> Next(y, t).ledger.replaced == {}
  {
    hide Inv, AllStored, AfterWrite;
    if t == WriteDone(true) {
      DisplacingWrite(y);
    } else {
      OthersKeepReplaced(y, t);
    }
  }

  lemma NoneReplaced(y: System)
    requires Inv(y) && y.ledger.replaced == {}
    ensures AllStored(y)
  {
    hide ServerTells, Receiving, Kept, Journal, OwnFirst, OwnKept, Disk, Unresolved;
    assert forall id :: id in y.ledger.durable && id in y.ledger.lost ==> id in y.ledger.durable * y.ledger.lost;
  }

  // ---------------------------------------------------------------------
  // Runs that lose a stored send
  // ---------------------------------------------------------------------

  ghost predicate Leads(y: System, ts: seq<Step>, z: System) {
    IsRun(y, ts) && After(y, ts) == z
  }

  lemma {:induction false} LeadsOn(y: System, ts: seq<Step>, z: System, t: Step)
    requires Leads(y, ts, z) && Enabled(z, t)
    ensures Leads(y, ts + [t], Next(z, t))
    decreases |ts|
  {
    hide Next, Enabled;
    if ts == [] {
      assert [t][1..] == [] && ts + [t] == [t];
      assert IsRun(Next(y, t), []) && After(y, [t]) == After(Next(y, t), []);
    } else {
      assert (ts + [t])[0] == ts[0] && (ts + [t])[1..] == ts[1..] + [t];
      LeadsOn(Next(y, ts[0]), ts[1..], z, t);
    }
  }

  /** A send while there is no connection is queued, and written to the storage if there is a key. */
  lemma SendOffline(y: System, id: string)
    requires Inv(y) && !y.client.link.connected && Accepts(y.client, id) && Possible(y, Send(id, ""))
    ensures var y' := AfterLocal(y, Send(id, ""), CALM);
      && y'.client == Enqueued(y.client, id, "") && y'.server == y.server && y'.storage == y.storage
      && y'.conversation == y.conversation
      && y'.ledger.accepted == y.ledger.accepted + {id} && y'.ledger.mine == y.ledger.mine + {id}
      && y'.ledger.rejected == y.ledger.rejected && y'.ledger.lost == y.ledger.lost && y'.ledger.durable == y.ledger.durable
      && y'.ledger.replaced == y.ledger.replaced
      && y'.load == y.load.(early := if y.load.done then y.load.early else |y'.client.store.writing|)
  {
    hide Observed, Recorded, Flushed;
    NothingFlushed(Enqueued(y.client, id, ""), CALM);
  }

  /** A resumed session that loads an empty storage, accepts a send and gets it into the storage. */
  function StoringRun(s1: string): seq<Step> {
    [ReadDone(true), LoadDone, Local(Send(s1, ""), CALM), WriteDone(true)]
  }

  function FirstLoaded(conversation: string, server: Server, canSync: bool): System {
    AfterLoad(AfterRead(Beginning(conversation, server, Resumes, canSync), true))
  }

  lemma FirstLoad(conversation: string, server: Server, canSync: bool)
    requires Ready(conversation, server)
    ensures var y0, y := Beginning(conversation, server, Resumes, canSync), FirstLoaded(conversation, server, canSync);
      && Leads(y0, [ReadDone(true), LoadDone], y)
      && y == y0.(load := Load(false, Unread, true, 0))
  {
    var y0 := Beginning(conversation, server, Resumes, canSync);
    TwoSteps(y0, ReadDone(true), LoadDone);
  }

  /** The state after the storing run: the send is in the storage, and nothing has been replaced there. */
  ghost predicate HasStored(y: System, conversation: string, server: Server, s1: string) {
    && y.conversation == conversation && y.server == server
    && y.ledger.accepted == {s1} && y.ledger.durable == {s1} && y.ledger.lost == {} && y.ledger.rejected == {}
    && y.ledger.replaced == {}
  }

  /** The session after the storing run. */
  function Waiting(conversation: string, canSync: bool, s1: string): Client {
    var c := Constructed(conversation, Some(conversation), canSync);
    c.(window := c.window.(waiting := {s1}), store := Store(Some(conversation), [Entry(s1, "", 0)], None, []))
  }

  lemma StoringRunStores(conversation: string, server: Server, canSync: bool, s1: string)
    requires Ready(conversation, server) && ValidClientId(s1) && s1 !in Turns(Transcript(server, conversation))
    ensures var y0 := Beginning(conversation, server, Resumes, canSync);
      && IsRun(y0, StoringRun(s1))
      && var y := After(y0, StoringRun(s1));
      && HasStored(y, conversation, server, s1) && !y.load.opening
      && y.client == Waiting(conversation, canSync, s1) && OnDisk(y) == Some(Snapshot([Entry(s1, "", 0)], None))
  {
    hide Inv, IsRun, After, AfterLocal, Enabled;
    var y0 := Beginning(conversation, server, Resumes, canSync);
    var first := [ReadDone(true), LoadDone];
    var y := FirstLoaded(conversation, server, canSync);
    BeginningIsFine(conversation, server, Resumes, canSync);
    FirstLoad(conversation, server, canSync);
    LedTo(y0, first, y);
    assert Ids([]) == {};
    SendOffline(y, s1);
    var z := AfterLocal(y, Send(s1, ""), CALM);
    SendsThenStores(y, z, s1);
    assert first + [Local(Send(s1, ""), CALM)] + [WriteDone(true)] == StoringRun(s1);
    LeadsOn(y0, first, y, Local(Send(s1, ""), CALM));
    LeadsOn(y0, first + [Local(Send(s1, ""), CALM)], z, WriteDone(true));
  }

  lemma LedTo(y: System, ts: seq<Step>, z: System)
    requires Inv(y) && Leads(y, ts, z)
    ensures Inv(z)
  {
    hide Inv;
    RunKeepsInv(y, ts);
  }

  lemma SendsThenStores(y: System, z: System, s1: string)
    requires y.client.store == Store(Some(y.conversation), [], None, []) && z.client == Enqueued(y.client, s1, "")
    requires z.conversation == y.conversation
    requires y.load == Load(false, Unread, true, 0) && z.load == y.load && z.ledger.replaced == {}
    requires z.ledger.accepted == {s1} && z.ledger.durable == {} && z.ledger.lost == {} && z.ledger.rejected == {}
    requires s1 !in y.ledger.accepted && s1 !in Turns(Log(y)) && !y.load.opening
    ensures Enabled(y, Local(Send(s1, ""), CALM)) && Enabled(z, WriteDone(true))
    ensures HasStored(AfterWrite(z, true), z.conversation, z.server, s1)
    ensures var w := AfterWrite(z, true);
      && w.client == y.client.(window := z.client.window, store := y.client.store.(entries := [Entry(s1, "", 0)]))
      && OnDisk(w) == Some(Snapshot([Entry(s1, "", 0)], None)) && w.load.opening == y.load.opening
  {
    var e := Entry(s1, "", 0);
    assert [] + [e] == [e];
    assert e in [e] && Ids([e]) == {s1};
  }

  lemma LedIsReachable(conversation: string, server: Server, birth: Birth, canSync: bool, ts: seq<Step>, z: System)
    requires Ready(conversation, server) && Leads(Beginning(conversation, server, birth, canSync), ts, z)
    ensures Reachable(z)
  {
    hide IsRun, After;
  }

  /** A process that dies after the storing run leaves the send in the storage. */
  lemma CrashKeepsStored(y: System, conversation: string, server: Server, s1: string, birth: Birth)
    requires Inv(y) && HasStored(y, conversation, server, s1) && s1 !in Turns(Transcript(server, conversation))
    ensures var z := AfterCrash(y, birth); HasStored(z, conversation, server, s1) && InStorage(z, s1) && z.ledger.mine == {}
  {
    hide ServerTells, Receiving, Kept, Journal, OwnFirst, OwnKept, Ids, Identified;
    assert s1 in y.ledger.durable * Unresolved(y);
    CrashSets(y, birth);
  }

  /** resume(), and a send before its load has read the storage. */
  function EarlySendRun(s1: string, s2: string): seq<Step> {
    StoringRun(s1) + [Crash(Resumes)] + [Local(Send(s2, ""), CALM)] + [WriteDone(true)]
  }

  /**
   * A run that loses a stored send without any further crash: a session that resumes accepts
   * another send before its load has read the storage, and the snapshot with only that one
   * reaches the storage first.
   */
  lemma SendBeforeLoadLosesStored(conversation: string, server: Server, canSync: bool, s1: string, s2: string)
    requires Ready(conversation, server) && ValidClientId(s1) && ValidClientId(s2) && s1 != s2
    requires s1 !in Turns(Transcript(server, conversation)) && s2 !in Turns(Transcript(server, conversation))
    ensures var y0 := Beginning(conversation, server, Resumes, canSync);
      && IsRun(y0, EarlySendRun(s1, s2))
      && s1 in After(y0, EarlySendRun(s1, s2)).ledger.lost * After(y0, EarlySendRun(s1, s2)).ledger.durable
  {
    hide Inv, IsRun, After, AfterLocal, AfterCrash, AfterWrite, Unresolved, Reachable;
    var y0 := Beginning(conversation, server, Resumes, canSync);
    BeginningIsFine(conversation, server, Resumes, canSync);
    StoringRunStores(conversation, server, canSync, s1);
    var a := After(y0, StoringRun(s1));
    LedTo(y0, StoringRun(s1), a);
    CrashKeepsStored(a, conversation, server, s1, Resumes);
    var b := AfterCrash(a, Resumes);
    LeadsOn(y0, StoringRun(s1), a, Crash(Resumes));
    LedTo(y0, StoringRun(s1) + [Crash(Resumes)], b);
    NewProcess(a, s2, Resumes);
    SendOffline(b, s2);
    var z := AfterLocal(b, Send(s2, ""), CALM);
    var early := StoringRun(s1) + [Crash(Resumes)] + [Local(Send(s2, ""), CALM)];
    LeadsOn(y0, StoringRun(s1) + [Crash(Resumes)], b, Local(Send(s2, ""), CALM));
    LeadsOn(y0, early, z, WriteDone(true));
    LedIsReachable(conversation, server, Resumes, canSync, early, z);
    SentButUnread(b, z, s1, s2);
    StoredLostAtOnceIffUnread(z, s1);
    WritesDurable(z, true);
  }

  lemma NewProcess(y: System, s2: string, birth: Birth)
    requires ValidClientId(s2) && s2 !in y.ledger.accepted && s2 !in Turns(Log(y)) && birth == Resumes
    ensures var b := AfterCrash(y, birth);
      && !b.client.link.connected && Accepts(b.client, s2) && Possible(b, Send(s2, ""))
      && b.client.store.key == Some(b.conversation) && b.load == Load(true, Unread, false, 0)
  {
    assert Ids([]) == {};
  }

  lemma SentButUnread(b: System, z: System, s1: string, s2: string)
    requires b.client.store.key.Some? && z.client == Enqueued(b.client, s2, "") && InStorage(b, s1) && b.ledger.durable == {s1} && b.ledger.mine == {} && s1 != s2
    requires z.server == b.server && z.conversation == b.conversation && z.ledger.accepted == b.ledger.accepted + {s2}
    requires z.ledger.rejected == b.ledger.rejected && z.ledger.lost == b.ledger.lost && z.ledger.durable == b.ledger.durable
    requires z.ledger.mine == b.ledger.mine + {s2} && z.storage == b.storage
    ensures z.client.store.writing != [] && s1 in z.ledger.durable && InStorage(z, s1) && s1 !in z.ledger.mine
  {
    assert Log(z) == Log(b);
  }

  // ---------------------------------------------------------------------
  // start() over a stored conversation
  // ---------------------------------------------------------------------

  /** A transport without room takes nothing. */
  lemma {:induction false} NoRoom(c: Client, i: nat, env: Env)
    requires i <= |c.store.entries| && env.room == 0
    ensures var (d, out) := FlushedFrom(c, i, env);
      && d.link == c.link && d.store == c.store && out == []
      && d.window.inFlight == c.window.inFlight && d.window.maxInFlight == c.window.maxInFlight
    decreases |c.store.entries| - i
  {
    hide Due;
    if i < |c.store.entries| && |c.window.inFlight| < c.window.maxInFlight && !Due(c, c.store.entries[i], env.now) {
      NoRoom(c, i + 1, env);
    }
  }

  /** A local step other than the end of the attach leaves stored what is stored, and an unloaded store unloaded. */
  lemma StaysStored(y: System, e: Event, s1: string)
    requires Inv(y) && Possible(y, e) && !e.Attached? && (e.Receive? ==> e.frame.Welcome?)
    requires !y.load.done && s1 in y.ledger.durable && InStorage(y, s1) && s1 !in y.ledger.mine + Entered(y.client, e)
    ensures var y' := AfterLocal(y, e, CALM);
      && Inv(y') && !y'.load.done && s1 in y'.ledger.durable && InStorage(y', s1) && s1 !in y'.ledger.mine
      && y'.conversation == y.conversation && y'.server == y.server && y'.ledger.accepted == y.ledger.accepted + Entered(y.client, e)
      && y'.client == Apply(y.client, e, CALM).0 && y'.load.opening == y.load.opening
  {
    hide Apply, Inv, Observed, Recorded;
    LocalKeepsInv(y, e, CALM);
    assert Log(AfterLocal(y, e, CALM)) == Log(y);
  }

  function Rejoin(conversation: string): Event {
    Receive(Welcome(conversation, None, None))
  }

  /** start() joins the stored conversation, and a send before the attach has loaded it; then a crash. */
  function StartOverRun(conversation: string, s1: string, s2: string): seq<Step> {
    StoringRun(s1) + [Crash(Starts)] + [Local(Connect, CALM)] + [Local(Rejoin(conversation), CALM)] + [Local(Send(s2, ""), CALM)]
  }

  lemma NewStart(y: System)
    ensures var b := AfterCrash(y, Starts);
      && b.client == Constructed("", None, b.client.link.canSync) && b.load == Load(false, Unread, false, 0)
      && b.ledger.accepted == y.ledger.accepted && b.conversation == y.conversation && b.server == y.server
  {
  }

  /** The session that start() has opened on the stored conversation. */
  lemma RejoinedSends(conversation: string, canSync: bool, s2: string)
    requires conversation != "" && ValidClientId(s2)
    ensures var c := Apply(Constructed("", None, canSync), Connect, CALM).0;
      var d := Apply(c, Rejoin(conversation), CALM).0;
      Accepts(d, s2) && Apply(d, Send(s2, ""), CALM).0.store.writing != []
  {
    hide Flushed;
    var c := Apply(Constructed("", None, canSync), Connect, CALM).0;
    var d := Apply(c, Rejoin(conversation), CALM).0;
    assert Ids([]) == {};
    NoRoomKeepsStore(Enqueued(d, s2, ""));
  }

  lemma NoRoomKeepsStore(c: Client)
    ensures Flushed(c, CALM).0.store == c.store
  {
    NoRoom(c, 0, CALM);
  }

  /**
   * A run that loses a stored send to start(): the session joins the conversation again, accepts
   * a send while the attach is still loading, and the process dies once the snapshot without the
   * stored send has replaced the one that held it.
   */
  lemma StartOverStoredLosesIt(conversation: string, server: Server, canSync: bool, s1: string, s2: string)
    requires Ready(conversation, server) && ValidClientId(s1) && ValidClientId(s2) && s1 != s2
    requires s1 !in Turns(Transcript(server, conversation)) && s2 !in Turns(Transcript(server, conversation))
    ensures var y0, ts := Beginning(conversation, server, Resumes, canSync), StartOverRun(conversation, s1, s2) + [WriteDone(true)] + [Crash(Resumes)];
      IsRun(y0, ts) && s1 in After(y0, ts).ledger.lost * After(y0, ts).ledger.durable
  {
    hide Inv, IsRun, After, AfterLocal, AfterCrash, AfterWrite, Unresolved, Reachable, Apply;
    var y0 := Beginning(conversation, server, Resumes, canSync);
    BeginningIsFine(conversation, server, Resumes, canSync);
    StoringRunStores(conversation, server, canSync, s1);
    var a := After(y0, StoringRun(s1));
    LedTo(y0, StoringRun(s1), a);
    CrashKeepsStored(a, conversation, server, s1, Starts);
    var b := AfterCrash(a, Starts);
    var toB := StoringRun(s1) + [Crash(Starts)];
    LeadsOn(y0, StoringRun(s1), a, Crash(Starts));
    LedTo(y0, toB, b);
    NewStart(a);
    var one, two, three := Local(Connect, CALM), Local(Rejoin(conversation), CALM), Local(Send(s2, ""), CALM);
    assert Possible(b, Connect);
    StaysStored(b, Connect, s1);
    var c := AfterLocal(b, Connect, CALM);
    LeadsOn(y0, toB, b, one);
    assert Possible(c, Rejoin(conversation));
    StaysStored(c, Rejoin(conversation), s1);
    var d := AfterLocal(c, Rejoin(conversation), CALM);
    LeadsOn(y0, toB + [one], c, two);
    RejoinedSends(conversation, b.client.link.canSync, s2);
    SendPossible(d, s1, s2);
    StaysStored(d, Send(s2, ""), s1);
    var z := AfterLocal(d, Send(s2, ""), CALM);
    LeadsOn(y0, toB + [one] + [two], d, three);
    LastSteps(y0, conversation, server, canSync, StartOverRun(conversation, s1, s2), z, s1);
  }

  lemma SendPossible(d: System, s1: string, s2: string)
    requires d.ledger.accepted == {s1} && s1 != s2 && s2 !in Turns(Log(d)) && !d.load.opening
    ensures Possible(d, Send(s2, ""))
  {
  }

  lemma LastSteps(y0: System, conversation: string, server: Server, canSync: bool, ts: seq<Step>, z: System, s1: string)
    requires Ready(conversation, server) && y0 == Beginning(conversation, server, Resumes, canSync) && Leads(y0, ts, z)
    requires Inv(z) && !z.load.done && s1 in z.ledger.durable && InStorage(z, s1) && s1 !in z.ledger.mine && z.client.store.writing != []
    ensures IsRun(y0, ts + [WriteDone(true)] + [Crash(Resumes)])
    ensures var y := After(y0, ts + [WriteDone(true)] + [Crash(Resumes)]); s1 in y.ledger.lost * y.ledger.durable
  {
    hide IsRun, After, AfterWrite, AfterCrash, Unresolved, Reachable, ServerTells, Receiving, Outgoing;
    LedIsReachable(conversation, server, Resumes, canSync, ts, z);
    StoredLostIffEarly(z, s1, Resumes);
    TwoSteps(z, WriteDone(true), Crash(Resumes));
    LeadsOn(y0, ts, z, WriteDone(true));
    LeadsOn(y0, ts + [WriteDone(true)], AfterWrite(z, true), Crash(Resumes));
    WritesDurable(z, true);
    CrashKeepsDurable(AfterWrite(z, true));
  }

  lemma CrashKeepsDurable(y: System)
    ensures AfterCrash(y, Resumes).ledger.durable == y.ledger.durable
  {
  }
}
