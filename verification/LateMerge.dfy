/**
 * Sends that the attach merges during a replay: those whose turns have gone by are not recognised in
 * it any more, and are sent again.
 */
module LateMerge {
  import opened Prefix
  import opened Outbox
  import opened ConversationProtocol
  import opened ConversationReceive
  import opened ConversationSend
  import opened ConversationOutbox
  import opened ConversationReplay
  import opened ServerLog
  import opened ExactlyOnce
  import opened DurableSends

  // ---------------------------------------------------------------------
  // A send whose turn has gone by stays
  // ---------------------------------------------------------------------

  /** Position `k` of the log holds a user's turn under `id`. */
  predicate IsTurn(log: seq<Activity>, k: int, id: string) {
    0 <= k < |log| && log[k].fromUser && log[k].clientId == Some(id)
  }

  /** The server acknowledges or rejects the send. */
  predicate Answers(e: Event, id: string) {
    && e.Receive?
    && match e.frame
      case Ack(clientId, _, _) => clientId == id
      case Error(fault) => fault.clientId == Some(id) && !RetryableSend(fault)
      case _ => false
  }

  predicate NoAnswerTo(es: seq<(Event, Env)>, id: string) {
    forall i :: 0 <= i < |es| ==> !Answers(es[i].0, id)
  }

  /** The send waits in an outbox whose load is over, and its turn has been accounted for. */
  ghost predicate GoneBy(c: Client, log: seq<Activity>, k: int, id: string) {
    && IsLog(log) && IsTurn(log, k, id)
    && Sound(c) && (forall n :: n in c.inbox.seen ==> c.inbox.watermark + 1 < n) && !c.link.attaching
    && id in Ids(c.store.entries) && Accounted(c.inbox, k + 1)
  }

  lemma AccountedIsQuiet(c: Client, a: Activity, env: Env)
    requires Accounted(c.inbox, a.seqNo)
    ensures forall o :: o in ApplyPersistent(c, a, env).1 ==> !o.Sent?
  {
    hide Flushed;
    FlushedKeepsRest(Caught(c), env);
    var out := ApplyPersistent(c, a, env).1;
    assert Received(c, a) == (c, []);
    assert out == [] + Flushed(Caught(c), env).1 || out == [] + [];
  }

  /** The only turn of the log under the id. */
  lemma OnlyTurn(log: seq<Activity>, k: int, id: string, a: Activity)
    requires IsLog(log) && IsTurn(log, k, id) && 1 <= a.seqNo <= |log| && a == log[a.seqNo - 1] && a.clientId == Some(id)
    ensures a.seqNo == k + 1
  {
  }

  lemma GoneByStep(c: Client, e: Event, env: Env, m: Missing, from: int, k: int, id: string)
    requires GoneBy(c, m.log, k, id) && Meanwhile(c, e, m, from) && !Answers(e, id)
    ensures GoneBy(Apply(c, e, env).0, m.log, k, id) && forall n :: Sent(id, n) !in Apply(c, e, env).1
  {
    hide Apply, Sound, Ids, Journalled;
    MeanwhileBrings(c, e, m, from);
    EventAccounts(c, e, env);
    IdentityOf(c, e, env);
    StaysInOutbox(c, e, env, m, from, k, id);
    forall n | Sent(id, n) in Apply(c, e, env).1
      ensures false
    {
      SentOutputs(c, e, env, Sent(id, n));
      var a := e.frame.activity;
      OnlyTurn(m.log, k, id, a);
      AccountedIsQuiet(c, a, env);
      TurnOutputs(c, a, env);
    }
  }

  lemma TurnOutputs(c: Client, a: Activity, env: Env)
    ensures Apply(c, Receive(Persistent(a)), env).1 in {[], ApplyPersistent(c, a, env).1}
  {
  }

  lemma StaysInOutbox(c: Client, e: Event, env: Env, m: Missing, from: int, k: int, id: string)
    requires GoneBy(c, m.log, k, id) && Meanwhile(c, e, m, from) && !Answers(e, id)
    ensures var d := Apply(c, e, env).0; Sound(d) && id in Ids(d.store.entries)
  {
    hide Apply, Sound, Ids, Journalled;
    var e' := if e.Attached? then Attached(None) else e;
    assert Apply(c, e, env) == Apply(c, e', env) by {
      AttachedAgain(c, e, env);
    }
    EventOutcome(c, e', env);
    if id in Gone(c, e') {
      OnlyTurn(m.log, k, id, e.frame.activity);
    }
  }

  lemma AttachedAgain(c: Client, e: Event, env: Env)
    requires !c.link.attaching
    ensures e.Attached? ==> Apply(c, e, env) == Apply(c, Attached(None), env)
  {
    hide Flushed;
  }

  lemma {:induction false} GoneByStays(c: Client, es: seq<(Event, Env)>, m: Missing, from: int, k: int, id: string)
    requires GoneBy(c, m.log, k, id) && IsReplay(c, es, m, from) && NoAnswerTo(es, id)
    ensures var (d, out) := RunEvents(c, es); id in Ids(d.store.entries) && forall n :: Sent(id, n) !in out
    decreases |es|
  {
    hide Apply, Meanwhile;
    if es != [] {
      var (e, env) := es[0];
      assert !Answers(es[0].0, id);
      assert GoneBy(Apply(c, e, env).0, m.log, k, id) && forall n :: Sent(id, n) !in Apply(c, e, env).1 by {
        GoneByStep(c, e, env, m, from, k, id);
      }
      hide GoneBy;
      GoneByStays(Apply(c, e, env).0, es[1..], m, Advanced(e, from), k, id);
    }
  }

  // ---------------------------------------------------------------------
  // The exact condition
  // ---------------------------------------------------------------------

  lemma {:induction false} NothingMorePassed(c: Client, es: seq<(Event, Env)>, m: Missing, from: int)
    requires !c.link.attaching && IsReplay(c, es, m, from)
    ensures Passed(c, es, m.log) == {}
    decreases |es|
  {
    hide Apply;
    if es != [] {
      var (e, env) := es[0];
      IdentityOf(c, e, env);
      NothingMorePassed(Apply(c, e, env).0, es[1..], m, Advanced(e, from));
    }
  }

  /** A session that awaits a replay misses what it has not accounted for. */
  lemma MissesAfresh(c: Client, m: Missing, from: int)
    requires InReplay(c, m, from)
    ensures InReplay(c, MissingFrom(c, m.log), from)
  {
    hide Ids;
  }

  /** The session as the attach leaves it: it awaits the rest of the replay, and has the merged sends. */
  lemma AttachAwaits(c: Client, raw: Snapshot, env: Env, log: seq<Activity>, from: nat)
    requires InReplay(c, MissingFrom(c, log), from) && Sound(c) && c.link.attaching && Loadable(c, raw)
    ensures var d := Apply(c, Attached(Some(raw)), env).0;
      && InReplay(d, MissingFrom(d, log), from) && d.inbox == c.inbox && Sound(d) && !d.link.attaching
      && Ids(d.store.entries) == Ids(c.store.entries) + Ids(raw.outbox)
  {
    hide Apply, InReplay, Ids, PassedAt, Sound, Journalled;
    var e, m := Attached(Some(raw)), MissingFrom(c, log);
    var d := Apply(c, e, env).0;
    var now := PassedAt(c, e, log);
    MissesLess(c, m, now, from);
    EventStep(c, e, env, Except(m, now), from);
    MissesAfresh(d, Except(m, now), from);
    EventOutcome(c, e, env);
    InboxOf(c, e, env);
    IdentityOf(c, e, env);
  }

  /**
   * The attach merges a send during a replay, and the replay goes on to its end without an ack or a
   * final error of it. The replay settles the send, with its position, if and only if its turn had not
   * been accounted for when it was merged; otherwise the send stays in the outbox and nobody is told.
   */
  lemma MergedSettledIffNotGoneBy(c: Client, raw: Snapshot, env: Env, log: seq<Activity>, from: nat, es: seq<(Event, Env)>, k: int, id: string)
    requires InReplay(c, MissingFrom(c, log), from) && Sound(c) && c.link.attaching && Loadable(c, raw)
    requires IsTurn(log, k, id) && id in Ids(raw.outbox)
    requires var d := Apply(c, Attached(Some(raw)), env).0; IsReplay(d, es, MissingFrom(d, log), from)
    requires NoAnswerTo(es, id)
    ensures var (g, out) := RunEvents(Apply(c, Attached(Some(raw)), env).0, es);
      && (Sent(id, Some(k + 1)) in out <==> !Accounted(c.inbox, k + 1))
      && (id in Ids(g.store.entries) <==> Accounted(c.inbox, k + 1))
      && (Accounted(c.inbox, k + 1) ==> forall n :: Sent(id, n) !in out)
  {
    hide Apply, RunEvents, IsReplay, Ids, Sound;
    AttachAwaits(c, raw, env, log, from);
    var d := Apply(c, Attached(Some(raw)), env).0;
    var m := MissingFrom(d, log);
    if Accounted(c.inbox, k + 1) {
      GoneByStays(d, es, m, from, k, id);
    } else {
      NothingMorePassed(d, es, m, from);
      ReplayRun(d, es, m, from);
      assert Except(m, {}) == m;
      assert TurnAt(m, k);
    }
  }

  // ---------------------------------------------------------------------
  // What has gone by is sent again
  // ---------------------------------------------------------------------

  /** Only entries of the outbox are in flight or wait for a retry. */
  ghost predicate Tracked(c: Client) {
    c.window.inFlight + c.window.retryAt.Keys <= Ids(c.store.entries)
  }

  lemma {:induction false} FlushedFromTracked(c: Client, i: nat, env: Env)
    requires i <= |c.store.entries| && Tracked(c)
    ensures Tracked(FlushedFrom(c, i, env).0)
    decreases |c.store.entries| - i
  {
    hide Touched, Ids;
    if i < |c.store.entries| && |c.window.inFlight| < c.window.maxInFlight {
      var e := c.store.entries[i];
      if !Due(c, e, env.now) {
        FlushedFromTracked(c, i + 1, env);
      } else if env.room > 0 {
        TouchedIds(c.store, e.clientId);
        EntryIsKnown(c.store.entries, i);
        FlushedFromTracked(WrittenOnce(c, e), i + 1, env.(room := env.room - 1));
      }
    }
  }

  lemma EntryIsKnown(es: seq<Entry>, i: nat)
    requires i < |es|
    ensures es[i].clientId in Ids(es)
  {
    assert es[i] in es;
  }

  lemma FlushedTracked(c: Client, env: Env)
    requires Tracked(c)
    ensures Tracked(Flushed(c, env).0)
  {
    hide FlushedFrom, Ids;
    if CanWrite(c) {
      FlushedFromTracked(c, 0, env);
    }
  }

  lemma RemovedTracked(c: Client, d: Client, id: string)
    requires Tracked(c) && Distinct(c.store.entries)
    requires d.window == Forgotten(c.window, id) && d.store == Removed(c.store, id)
    ensures Tracked(d)
  {
    hide Ids, Removed;
    RemovedIds(c.store, id);
  }

  lemma ReceivedTracked(c: Client, a: Activity)
    requires Tracked(c) && Distinct(c.store.entries)
    ensures Tracked(Received(c, a).0)
  {
    hide Ids, Removed, Seen;
    SeenKeepsStore(c, a.seqNo);
    var d := Seen(c, a.seqNo);
    if !Accounted(c.inbox, a.seqNo) && IsOwnTurn(d, a) {
      RemovedTracked(d, Received(c, a).0, a.clientId.value);
    }
  }

  lemma FrameTracked(c: Client, f: Frame, env: Env)
    requires Tracked(c) && Distinct(c.store.entries)
    ensures Tracked(ApplyFrame(c, f, env).0)
  {
    hide Ids, Flushed, Received, Removed, Seen;
    match f
    case Persistent(a) =>
      ReceivedTracked(c, a);
      FlushedTracked(Caught(Received(c, a).0), env);
    case Ack(id, actId, n) =>
      var d := if n.Some? then Seen(c, n.value) else c;
      SeenKeepsStore(c, if n.Some? then n.value else 0);
      var e := SettledSend(d, id, actId, n).0;
      RemovedTracked(d, e, id);
      FlushedTracked(e, env);
    case Error(fault) => ErrorTracked(c, fault, env);
    case _ =>
  }

  lemma ErrorTracked(c: Client, fault: Fault, env: Env)
    requires Tracked(c) && Distinct(c.store.entries)
    ensures Tracked(ApplyError(c, fault, env).0)
  {
    hide Ids, Flushed, Removed, StateSaved;
    if NamesSend(c, fault) {
      var id := fault.clientId.value;
      var d := c.(window := Forgotten(c.window, id), store := Removed(c.store, id));
      RemovedTracked(c, d, id);
      FlushedTracked(d, env);
    } else {
      FlushedTracked(Caught(c), env);
      var d := StateSaved(c.(inbox := Restarted(c.inbox)));
      SavedKeepsWindow(c.(inbox := Restarted(c.inbox)));
      FlushedTracked(Caught(d), env);
    }
  }

  lemma SavedKeepsWindow(c: Client)
    ensures StateSaved(c).window == c.window && StateSaved(c).store.entries == c.store.entries
  {
  }

  lemma EventTracked(c: Client, e: Event, env: Env)
    requires Tracked(c) && Distinct(c.store.entries) && (e.Attached? && e.raw.Some? ==> Distinct(e.raw.value.outbox))
    ensures Tracked(Apply(c, e, env).0)
  {
    hide Ids, Flushed, ApplyFrame, StateSaved, Unknown;
    match e
    case Receive(f) => FrameTracked(c, f, env);
    case Send(id, body) =>
      if Accepts(c, id) {
        AddedIds(c.store, Entry(id, body, 0));
        FlushedTracked(Enqueued(c, id, body), env);
      }
    case Attached(raw) =>
      if c.link.attaching && raw.Some? {
        LoadedIds(c.store, raw.value);
      }
      SavedKeepsWindow(Attachment(c, raw));
      FlushedTracked(StateSaved(Attachment(c, raw)), env);
    case ReplayTimer => FlushedTracked(Caught(c), env);
    case RetryTimer => FlushedTracked(c, env);
    case _ =>
  }

  lemma StepTracked(y: System, t: Step)
    requires Inv(y) && Enabled(y, t) && Tracked(y.client)
    ensures Tracked(Next(y, t).client)
  {
    hide Apply, Handled, Observed, Recorded, Ids, Unknown, ServerTells, Receiving, OwnFirst, OwnKept, Durable;
    match t
    case Local(e, env) =>
      if e.Attached? && e.raw.Some? {
        assert Holds(y, e.raw.value) && Fits(e.raw.value, y);
      }
      EventTracked(y.client, e, env);
    case LoadDone => LoadBrings(y);
    case _ => assert Ids([]) == {} by { NoEntries(); }
  }

  lemma NoEntries()
    ensures Ids([]) == {}
  {
  }

  lemma {:induction false} RunTracked(y: System, ts: seq<Step>)
    requires Inv(y) && Tracked(y.client) && IsRun(y, ts)
    ensures Tracked(After(y, ts).client)
    decreases |ts|
  {
    hide Inv, Next, Enabled, Tracked;
    if ts != [] {
      StepKeepsInv(y, ts[0]);
      StepTracked(y, ts[0]);
      RunTracked(Next(y, ts[0]), ts[1..]);
    }
  }

  lemma ReachableIsTracked(y: System)
    requires Reachable(y)
    ensures Tracked(y.client)
  {
    hide Inv, IsRun, After;
    var conversation, server, birth, canSync, ts :|
      && Ready(conversation, server) && IsRun(Beginning(conversation, server, birth, canSync), ts)
      && y == After(Beginning(conversation, server, birth, canSync), ts);
    BeginningIsFine(conversation, server, birth, canSync);
    RunTracked(Beginning(conversation, server, birth, canSync), ts);
  }

  /** In a reachable state, what the attach adds to the outbox is due at once, whether the log holds it or not. */
  lemma MergedIsDue(y: System, raw: Option<Snapshot>, env: Env, id: string)
    requires Reachable(y) && y.client.link.attaching && Possible(y, Attached(raw)) && raw.Some?
    requires id in Ids(raw.value.outbox) && id !in Memory(y)
    ensures var d := StateSaved(Attachment(y.client, raw));
      && Apply(y.client, Attached(raw), env) == Flushed(d, env) && id in Ids(d.store.entries)
      && forall e :: e in d.store.entries && e.clientId == id ==> Due(d, e, env.now)
  {
    hide Ids, Unknown, StateSaved, Reachable, ServerTells, Receiving, OwnFirst, OwnKept, Durable;
    ReachableIsFine(y);
    ReachableIsTracked(y);
    assert Holds(y, raw.value) && Fits(raw.value, y);
    LoadedIds(y.client.store, raw.value);
    SavedKeepsWindow(Attachment(y.client, raw));
  }

  // ---------------------------------------------------------------------
  // A run
  // ---------------------------------------------------------------------

  const ROOM := Env(0, 1)

  function Greets(conversation: string, head: Option<int>): Event {
    Receive(Welcome(conversation, head, None))
  }

  function Turn(s1: string, id: string): Activity {
    Activity(1, Some(id), Some(s1), true, "")
  }

  function StoredSend(s1: string): Snapshot {
    Snapshot([Entry(s1, "", 0)], None)
  }

  /** Over its first connection the stored send is written. */
  lemma FirstConnectionWrites(conversation: string, canSync: bool, s1: string)
    requires conversation != ""
    ensures var c := Apply(Waiting(conversation, canSync, s1), Connect, CALM).0;
      var d := Apply(c, Greets(conversation, None), CALM).0;
      !c.link.attaching && !d.link.attaching && (s1, "") in WrittenFrames(Apply(d, Attached(None), ROOM).1)
  {
    var c := Apply(Waiting(conversation, canSync, s1), Connect, CALM).0;
    var d := Apply(c, Greets(conversation, None), CALM).0;
    var e, entry := StateSaved(d), Entry(s1, "", 0);
    assert e.store.entries == [entry] && CanWrite(e) && e.window.inFlight == {} && Due(e, entry, 0);
    hide Touched;
    TouchedIds(e.store, s1);
    var out := FlushedFrom(e, 0, ROOM).1;
    assert out[0] == Written(entry);
  }

  /** start() has joined the conversation and awaits a replay of one activity; its outbox is still to be loaded. */
  ghost predicate Rejoined(c: Client, conversation: string) {
    && c.inbox == Inbox(0, {}, {}, []) && c.store.key == Some(conversation) && c.store.entries == []
    && c.link.conversationId == conversation && c.link.phase == Open && c.link.connected && c.link.attaching
    && c.link.replaying && c.link.replayTarget == 1
    && c.window == Window(32, {}, map[], {})
  }

  lemma Rejoins(conversation: string, canSync: bool)
    requires conversation != ""
    ensures var c := Apply(Constructed("", None, canSync), Connect, CALM).0;
      !c.link.attaching && Rejoined(Apply(c, Greets(conversation, Some(1)), CALM).0, conversation)
  {
  }

  /** The turn is taken for another participant's, and the wait for the replay is over. */
  lemma TurnIsEmitted(c: Client, conversation: string, a: Activity)
    requires Rejoined(c, conversation) && conversation != "" && a.seqNo == 1
    ensures var (d, out) := Apply(c, Receive(Persistent(a)), CALM);
      && out == [Emitted(a)] && Accounted(d.inbox, 1) && d.store.entries == [] && d.link.attaching
      && CanWrite(d) && d.window == c.window
  {
    var i := Marked(c.inbox, 1);
    assert Accounted(i, 1) && i.ownSeqs == {} && i.ownIds == [] by {
      AbsorbsFirst();
    }
    assert Ids([]) == {};
  }

  lemma AbsorbsFirst()
    ensures Absorb(0, {1}) == 1
  {
    assert {1} - {1} == {};
  }

  lemma MergeIsWritten(c: Client, raw: Snapshot, s1: string)
    requires CanWrite(c) && c.link.attaching && c.store.entries == [] && c.window == Window(32, {}, map[], {})
    requires raw.outbox == [Entry(s1, "", 0)]
    ensures var (d, out) := Apply(c, Attached(Some(raw)), ROOM);
      Written(Entry(s1, "", 0)) in out && s1 in Ids(d.store.entries)
  {
    var e, entry := StateSaved(Attachment(c, Some(raw))), Entry(s1, "", 0);
    assert Ids([]) == {} && Unknown([entry], {}) == [entry] && [entry] + [] == [entry];
    assert e.store.entries == [entry] && CanWrite(e) && Due(e, entry, 0);
    FlushedWritesEntries(e, ROOM);
    assert s1 in Ids([entry]) by {
      assert entry in [entry];
    }
    hide Touched;
    TouchedIds(e.store, s1);
    var out := FlushedFrom(e, 0, ROOM).1;
    assert out[0] == Written(entry);
  }

  // ---------------------------------------------------------------------
  // The same run in the whole system
  // ---------------------------------------------------------------------

  lemma LocalFields(y: System, e: Event, env: Env)
    ensures var z := AfterLocal(y, e, env);
      && z.client == Apply(y.client, e, env).0 && z.server == y.server && z.storage == y.storage && z.conversation == y.conversation
      && z.wire == y.wire + WrittenFrames(Apply(y.client, e, env).1) && z.load == LoadAfter(y, e, z.client)
      && (!e.Send? ==> z.ledger.accepted == y.ledger.accepted) && Log(z) == Log(y) && OnDisk(z) == OnDisk(y)
  {
    hide Apply, Observed, Recorded, Entered, Gone;
  }

  /** One more event of a session that is not waiting for its load. */
  lemma LedLocal(y0: System, ts: seq<Step>, y: System, e: Event, env: Env)
    requires Leads(y0, ts, y) && Possible(y, e)
    ensures Leads(y0, ts + [Local(e, env)], AfterLocal(y, e, env))
  {
    hide AfterLocal, Possible, IsRun, After;
    LeadsOn(y0, ts, y, Local(e, env));
  }

  const EMPTY := Server(map[], map[])

  lemma EmptyIsReady(conversation: string)
    requires conversation != ""
    ensures Ready(conversation, EMPTY) && Transcript(EMPTY, conversation) == [] && Turns([]) == {}
  {
  }

  /** The send is stored, written and in the log, but its ack is lost. */
  function LoggedRun(conversation: string, s1: string, id: string): seq<Step> {
    StoringRun(s1) + [Local(Connect, CALM)] + [Local(Greets(conversation, None), CALM)] + [Local(Attached(None), ROOM)]
    + [Arrives(Message(Some(s1), id, true, ""), true)]
  }

  lemma LoggedRunLogs(conversation: string, canSync: bool, s1: string, id: string)
    requires conversation != "" && ValidClientId(s1)
    ensures var y0 := Beginning(conversation, EMPTY, Resumes, canSync);
      && IsRun(y0, LoggedRun(conversation, s1, id))
      && var y := After(y0, LoggedRun(conversation, s1, id));
      Log(y) == [Turn(s1, id)] && OnDisk(y) == Some(StoredSend(s1)) && y.conversation == conversation
  {
    hide IsRun, After, AfterLocal, AfterArrival, Apply, Waiting;
    EmptyIsReady(conversation);
    StoringRunStores(conversation, EMPTY, canSync, s1);
    FirstConnectionWrites(conversation, canSync, s1);
    var y0 := Beginning(conversation, EMPTY, Resumes, canSync);
    var ts := StoringRun(s1);
    var a := After(y0, ts);
    LocalFields(a, Connect, CALM);
    LedLocal(y0, ts, a, Connect, CALM);
    var b := AfterLocal(a, Connect, CALM);
    ts := ts + [Local(Connect, CALM)];
    LocalFields(b, Greets(conversation, None), CALM);
    LedLocal(y0, ts, b, Greets(conversation, None), CALM);
    var c := AfterLocal(b, Greets(conversation, None), CALM);
    ts := ts + [Local(Greets(conversation, None), CALM)];
    LocalFields(c, Attached(None), ROOM);
    LedLocal(y0, ts, c, Attached(None), ROOM);
    var d := AfterLocal(c, Attached(None), ROOM);
    ts := ts + [Local(Attached(None), ROOM)];
    ArrivesFirst(d, s1, id);
    LeadsOn(y0, ts, d, Arrives(Message(Some(s1), id, true, ""), true));
  }

  lemma ArrivesFirst(y: System, s1: string, id: string)
    requires Transcript(y.server, y.conversation) == [] && y.server.keys == map[] && (s1, "") in y.wire
    ensures Enabled(y, Arrives(Message(Some(s1), id, true, ""), true))
    ensures var z := AfterArrival(y, Message(Some(s1), id, true, ""), true);
      Log(z) == [Turn(s1, id)] && OnDisk(z) == OnDisk(y) && z.conversation == y.conversation
  {
  }

  /** A new process joins the conversation by start(); the welcome reports the turn of the stored send. */
  function RejoiningRun(conversation: string, s1: string, id: string): seq<Step> {
    LoggedRun(conversation, s1, id) + [Crash(Starts)] + [Local(Connect, CALM)] + [Local(Greets(conversation, Some(1)), CALM)]
  }

  lemma RejoiningRunJoins(conversation: string, canSync: bool, s1: string, id: string)
    requires conversation != "" && ValidClientId(s1)
    ensures var y0 := Beginning(conversation, EMPTY, Resumes, canSync);
      && IsRun(y0, RejoiningRun(conversation, s1, id))
      && var y := After(y0, RejoiningRun(conversation, s1, id));
      && Log(y) == [Turn(s1, id)] && OnDisk(y) == Some(StoredSend(s1)) && y.conversation == conversation
      && Rejoined(y.client, conversation) && !y.load.opening && y.load.reading.Unread?
  {
    hide IsRun, After, AfterLocal, AfterCrash, Apply, Rejoined;
    LoggedRunLogs(conversation, canSync, s1, id);
    var y0 := Beginning(conversation, EMPTY, Resumes, canSync);
    var ts := LoggedRun(conversation, s1, id);
    var a := After(y0, ts);
    LeadsOn(y0, ts, a, Crash(Starts));
    CrashSets(a, Starts);
    NewStart(a);
    var b := AfterCrash(a, Starts);
    ts := ts + [Crash(Starts)];
    Rejoins(conversation, b.client.link.canSync);
    LocalFields(b, Connect, CALM);
    LedLocal(y0, ts, b, Connect, CALM);
    var c := AfterLocal(b, Connect, CALM);
    ts := ts + [Local(Connect, CALM)];
    LocalFields(c, Greets(conversation, Some(1)), CALM);
    LedLocal(y0, ts, c, Greets(conversation, Some(1)), CALM);
  }

  /** Then the turn is replayed, the storage answers, and the attach ends. */
  function LateMergeRun(conversation: string, s1: string, id: string): seq<Step> {
    RejoiningRun(conversation, s1, id) + [Local(Receive(Persistent(Turn(s1, id))), CALM)] + [ReadDone(true)]
    + [Local(Attached(Some(StoredSend(s1))), ROOM)]
  }

  /**
   * A run from the beginning: the replay that start() gets brings the turn of a stored send before the
   * attach has loaded it. The turn is shown to the application as another participant's, and when the
   * attach ends the send is in the outbox again and is written again, although the log holds it.
   */
  lemma LateMergeIsSentAgain(conversation: string, canSync: bool, s1: string, id: string)
    requires conversation != "" && ValidClientId(s1)
    ensures var y0 := Beginning(conversation, EMPTY, Resumes, canSync);
      && IsRun(y0, RejoiningRun(conversation, s1, id))
      && var y := After(y0, RejoiningRun(conversation, s1, id));
      && Log(y) == [Turn(s1, id)] && y.client.inbox.watermark == 0 && y.client.link.replaying && y.client.link.replayTarget == |Log(y)|
      && Apply(y.client, Receive(Persistent(Turn(s1, id))), CALM).1 == [Emitted(Turn(s1, id))]
    ensures var y0 := Beginning(conversation, EMPTY, Resumes, canSync);
      var before := RejoiningRun(conversation, s1, id) + [Local(Receive(Persistent(Turn(s1, id))), CALM)] + [ReadDone(true)];
      && IsRun(y0, before) && IsRun(y0, LateMergeRun(conversation, s1, id))
      && s1 in WrittenIds(Apply(After(y0, before).client, Attached(Some(StoredSend(s1))), ROOM).1)
      && s1 in Memory(After(y0, LateMergeRun(conversation, s1, id)))
  {
    hide IsRun, After, AfterLocal, Apply;
    RejoiningRunJoins(conversation, canSync, s1, id);
    var y0 := Beginning(conversation, EMPTY, Resumes, canSync);
    var ts := RejoiningRun(conversation, s1, id);
    var a := After(y0, ts);
    var e := Receive(Persistent(Turn(s1, id)));
    TurnIsEmitted(a.client, conversation, Turn(s1, id));
    LocalFields(a, e, CALM);
    LedLocal(y0, ts, a, e, CALM);
    var b := AfterLocal(a, e, CALM);
    ts := ts + [Local(e, CALM)];
    LeadsOn(y0, ts, b, ReadDone(true));
    var c := AfterRead(b, true);
    ts := ts + [ReadDone(true)];
    var merge := Attached(Some(StoredSend(s1)));
    MergeIsWritten(c.client, StoredSend(s1), s1);
    LocalFields(c, merge, ROOM);
    LedLocal(y0, ts, c, merge, ROOM);
  }
}
