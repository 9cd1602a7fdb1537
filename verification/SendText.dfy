/** A send keeps its text: in memory, in the storage, on the wire and in the log. */
module SendText {
  import opened Prefix
  import opened Outbox
  import opened ConversationProtocol
  import opened ConversationReceive
  import opened ConversationSend
  import opened ConversationOutbox
  import opened ServerLog
  import opened ExactlyOnce

  // ---------------------------------------------------------------------
  // The session makes no text up
  // ---------------------------------------------------------------------

  /** The sends of an outbox, each with its text. */
  function Says(es: seq<Entry>): set<(string, string)> {
    set e | e in es :: (e.clientId, e.body)
  }

  function SaysOf(x: Option<Snapshot>): set<(string, string)> {
    if x.Some? then Says(x.value.outbox) else {}
  }

  /** From `s` to `t`, nothing was put in the outbox or in a snapshot but what is in `all`. */
  ghost predicate DrawsOn(s: Store, t: Store, all: set<(string, string)>) {
    && Says(t.entries) <= all && s.writing <= t.writing
    && forall i :: |s.writing| <= i < |t.writing| ==> Says(t.writing[i].snapshot.outbox) <= all
  }

  lemma WithinTwice(s: Store, t: Store, u: Store, all: set<(string, string)>)
    requires DrawsOn(s, t, all) && DrawsOn(t, u, all)
    ensures DrawsOn(s, u, all)
  {
    forall i | |s.writing| <= i < |u.writing|
      ensures Says(u.writing[i].snapshot.outbox) <= all
    {
      if i < |t.writing| {
        assert u.writing[i] == t.writing[i];
      }
    }
  }

  lemma PersistedWithin(s: Store, all: set<(string, string)>)
    requires Says(s.entries) <= all
    ensures DrawsOn(s, Persisted(s), all)
  {
  }

  lemma AddedWithin(s: Store, e: Entry, all: set<(string, string)>)
    requires Says(s.entries) <= all && (e.clientId, e.body) in all
    ensures DrawsOn(s, Added(s, e), all)
  {
    var es := s.entries + [e];
    assert forall x :: x in es ==> x in s.entries || x == e;
    SaysAmong(s.entries, all);
    PersistedWithin(s.(entries := es), all);
  }

  lemma SaysAmong(es: seq<Entry>, all: set<(string, string)>)
    requires Says(es) <= all
    ensures forall e :: e in es ==> (e.clientId, e.body) in all
  {
    forall e | e in es
      ensures (e.clientId, e.body) in all
    {
      assert (e.clientId, e.body) in Says(es);
    }
  }

  lemma TouchedWithin(s: Store, clientId: string, all: set<(string, string)>)
    requires Says(s.entries) <= all
    ensures DrawsOn(s, Touched(s, clientId), all)
  {
    TouchedIds(s, clientId);
    SaysAmong(s.entries, all);
    var es := Touched(s, clientId).entries;
    forall e | e in es
      ensures (e.clientId, e.body) in all
    {
      var i :| 0 <= i < |es| && es[i] == e;
      assert s.entries[i] in s.entries;
    }
    PersistedWithin(s.(entries := es), all);
  }

  lemma RemovedWithin(s: Store, clientId: string, all: set<(string, string)>)
    requires Says(s.entries) <= all
    ensures DrawsOn(s, Removed(s, clientId), all)
  {
    SaysAmong(s.entries, all);
    var es := Removed(s, clientId).entries;
    assert forall e :: e in es ==> e in s.entries;
    PersistedWithin(s.(entries := es), all);
  }

  lemma LoadedWithin(s: Store, raw: Option<Snapshot>, all: set<(string, string)>)
    requires Says(s.entries) <= all && SaysOf(raw) <= all
    ensures DrawsOn(s, Loaded(s, raw), all)
  {
    SaysAmong(s.entries, all);
    if raw.Some? {
      SaysAmong(raw.value.outbox, all);
    }
  }

  lemma SavedWithin(c: Client, all: set<(string, string)>)
    requires Says(c.store.entries) <= all
    ensures DrawsOn(c.store, StateSaved(c).store, all)
  {
    PersistedWithin(c.store.(state := StateSaved(c).store.state), all);
  }

  /** What an event may take texts from: the outbox, what is handed to send(), and what the attach loads. */
  function Sources(c: Client, e: Event): set<(string, string)> {
    Says(c.store.entries)
    + (if e.Send? && Accepts(c, e.clientId) then {(e.clientId, e.body)} else {})
    + (if e.Attached? && c.link.attaching then SaysOf(e.raw) else {})
  }

  /** From `c` to `d` with outputs `out`, nothing was kept, stored or written but what is in `all`. */
  ghost predicate Speaks(c: Client, d: Client, out: seq<Output>, all: set<(string, string)>) {
    DrawsOn(c.store, d.store, all) && WrittenFrames(out) <= all
  }

  lemma SilentIsFine(c: Client, all: set<(string, string)>)
    requires Says(c.store.entries) <= all
    ensures Speaks(c, c, [], all) && DrawsOn(c.store, c.store, all)
  {
  }

  lemma OneMoreFrame(e: Entry, rest: seq<Output>)
    ensures WrittenFrames([Written(e)] + rest) == {(e.clientId, e.body)} + WrittenFrames(rest)
  {
    var all := [Written(e)] + rest;
    assert all[0] == Written(e);
    assert forall o :: o in all <==> o == Written(e) || o in rest;
  }

  lemma {:induction false} FlushedFromSpeaks(c: Client, i: nat, env: Env, all: set<(string, string)>)
    requires i <= |c.store.entries| && Says(c.store.entries) <= all
    ensures var (d, out) := FlushedFrom(c, i, env); Speaks(c, d, out, all)
    decreases |c.store.entries| - i
  {
    hide DrawsOn, WrittenFrames, Touched, Due;
    SilentIsFine(c, all);
    if i < |c.store.entries| && |c.window.inFlight| < c.window.maxInFlight {
      var e := c.store.entries[i];
      SaysAmong(c.store.entries, all);
      if !Due(c, e, env.now) {
        FlushedFromSpeaks(c, i + 1, env, all);
      } else if env.room > 0 {
        TouchedIds(c.store, e.clientId);
        TouchedWithin(c.store, e.clientId, all);
        var next, less := WrittenOnce(c, e), env.(room := env.room - 1);
        WithinHolds(c.store, next.store, all);
        FlushedFromSpeaks(next, i + 1, less, all);
        var (d, out) := FlushedFrom(next, i + 1, less);
        WithinTwice(c.store, next.store, d.store, all);
        OneMoreFrame(e, out);
      }
    }
  }

  lemma WithinHolds(s: Store, t: Store, all: set<(string, string)>)
    requires DrawsOn(s, t, all)
    ensures Says(t.entries) <= all
  {
  }

  lemma FlushedSpeaks(c: Client, env: Env, all: set<(string, string)>)
    requires Says(c.store.entries) <= all
    ensures var (d, out) := Flushed(c, env); Speaks(c, d, out, all)
  {
    hide DrawsOn, WrittenFrames, FlushedFrom;
    SilentIsFine(c, all);
    FlushedFromSpeaks(c, 0, env, all);
  }

  /** A change of the store, and then a flush. */
  lemma ThenFlushed(c: Client, d: Client, env: Env, all: set<(string, string)>)
    requires DrawsOn(c.store, d.store, all)
    ensures var (f, out) := Flushed(d, env); Speaks(c, f, out, all)
  {
    hide DrawsOn, WrittenFrames, Flushed;
    WithinHolds(c.store, d.store, all);
    FlushedSpeaks(d, env, all);
    WithinTwice(c.store, d.store, Flushed(d, env).0.store, all);
  }

  lemma QuietFrames(out: seq<Output>, rest: seq<Output>)
    requires forall o :: o in out ==> !o.Written?
    ensures WrittenFrames(out + rest) == WrittenFrames(rest) && WrittenFrames(rest + out) == WrittenFrames(rest)
  {
    assert forall o :: o in out + rest <==> o in out || o in rest;
    assert forall o :: o in rest + out <==> o in out || o in rest;
  }

  lemma SeenWithin(c: Client, n: int, all: set<(string, string)>)
    requires Says(c.store.entries) <= all
    ensures DrawsOn(c.store, Seen(c, n).store, all)
  {
    SilentIsFine(c, all);
    SavedWithin(c.(inbox := Marked(c.inbox, n)), all);
  }

  lemma SettledWithin(c: Client, clientId: string, id: string, n: Option<int>, all: set<(string, string)>)
    requires Says(c.store.entries) <= all
    ensures DrawsOn(c.store, SettledSend(c, clientId, id, n).0.store, all)
  {
    RemovedWithin(c.store, clientId, all);
  }

  lemma AckSpeaks(c: Client, f: Frame, env: Env, all: set<(string, string)>)
    requires f.Ack? && Says(c.store.entries) <= all
    ensures var (d, out) := ApplyAck(c, f, env); Speaks(c, d, out, all)
  {
    hide DrawsOn, WrittenFrames, Flushed, Seen, Removed;
    SilentIsFine(c, all);
    var d := if f.seqNo.Some? then Seen(c, f.seqNo.value) else c;
    if f.seqNo.Some? {
      SeenWithin(c, f.seqNo.value, all);
    }
    WithinHolds(c.store, d.store, all);
    SettledWithin(d, f.clientId, f.id, f.seqNo, all);
    var (e, out) := SettledSend(d, f.clientId, f.id, f.seqNo);
    WithinTwice(c.store, d.store, e.store, all);
    ThenFlushed(c, e, env, all);
    QuietFrames(out, Flushed(e, env).1);
  }

  lemma ReceivedSpeaks(c: Client, a: Activity, all: set<(string, string)>)
    requires Says(c.store.entries) <= all
    ensures DrawsOn(c.store, Received(c, a).0.store, all) && forall o :: o in Received(c, a).1 ==> !o.Written?
  {
    hide DrawsOn, Removed, Seen;
    SilentIsFine(c, all);
    SeenWithin(c, a.seqNo, all);
    var d := Seen(c, a.seqNo);
    WithinHolds(c.store, d.store, all);
    if IsOwnTurn(d, a) {
      var id := if a.id.Some? then a.id.value else "undefined";
      SettledWithin(d, a.clientId.value, id, Some(a.seqNo), all);
      WithinTwice(c.store, d.store, SettledSend(d, a.clientId.value, id, Some(a.seqNo)).0.store, all);
    }
  }

  lemma PersistentSpeaks(c: Client, a: Activity, env: Env, all: set<(string, string)>)
    requires Says(c.store.entries) <= all
    ensures var (d, out) := ApplyPersistent(c, a, env); Speaks(c, d, out, all)
  {
    hide DrawsOn, WrittenFrames, Flushed, Received;
    ReceivedSpeaks(c, a, all);
    var (d, out) := Received(c, a);
    ThenFlushed(c, Caught(d), env, all);
    QuietFrames(out, Flushed(Caught(d), env).1);
    QuietFrames(out, []);
    NoFrames();
  }

  lemma NoFrames()
    ensures WrittenFrames([]) == {}
  {
  }

  lemma ErrorSpeaks(c: Client, fault: Fault, env: Env, all: set<(string, string)>)
    requires Says(c.store.entries) <= all
    ensures var (d, out) := ApplyError(c, fault, env); Speaks(c, d, out, all)
  {
    hide DrawsOn, WrittenFrames, Flushed, Removed, Resets, StateSaved, Says;
    SilentIsFine(c, all);
    if NamesSend(c, fault) {
      var id := fault.clientId.value;
      var d := c.(window := Forgotten(c.window, id), store := Removed(c.store, id));
      RemovedWithin(c.store, id, all);
      ThenFlushed(c, d, env, all);
      QuietFrames([SendFailed(id)], Flushed(d, env).1);
    } else if fault.code == "replay_unavailable" {
      ThenFlushed(c, Caught(c), env, all);
    } else if Resets(c, Error(fault)) {
      var d := c.(inbox := Restarted(c.inbox));
      SavedWithin(d, all);
      ThenFlushed(c, Caught(StateSaved(d)), env, all);
      QuietFrames([SyncSent(0)], ReplayEnded(StateSaved(d), env).1);
    }
  }

  lemma FrameSpeaks(c: Client, f: Frame, env: Env, all: set<(string, string)>)
    requires Says(c.store.entries) <= all
    ensures var (d, out) := ApplyFrame(c, f, env); Speaks(c, d, out, all)
  {
    hide DrawsOn, ApplyAck, ApplyError, ApplyPersistent, Says, StateSet;
    SilentIsFine(c, all);
    match f
    case Welcome(_, _, _) =>
      SavedWithin(Joined(c, f), all);
      KeyIsFree(c.store, StateSaved(Joined(c, f)).store, ApplyWelcome(c, f).store, all);
    case Ack(_, _, _) => AckSpeaks(c, f, env, all);
    case Error(fault) => ErrorSpeaks(c, fault, env, all);
    case Persistent(a) =>
      if a.seqNo > 0 {
        PersistentSpeaks(c, a, env, all);
      }
    case _ =>
  }

  lemma KeyIsFree(s: Store, t: Store, u: Store, all: set<(string, string)>)
    requires DrawsOn(s, t, all) && u.entries == t.entries && u.writing == t.writing
    ensures DrawsOn(s, u, all)
  {
  }

  /** From any state and at any event: whatever the session keeps, stores or writes has a text that it was given for that id. */
  lemma EventSpeaks(c: Client, e: Event, env: Env)
    ensures var (d, out) := Apply(c, e, env); Speaks(c, d, out, Sources(c, e))
  {
    hide DrawsOn, ApplyFrame, Says, Flushed, Loaded, Persisted, StateSaved;
    var all := Sources(c, e);
    SilentIsFine(c, all);
    match e
    case Receive(f) => FrameSpeaks(c, f, env, all);
    case Send(id, body) =>
      if Accepts(c, id) {
        AddedWithin(c.store, Entry(id, body, 0), all);
        ThenFlushed(c, Enqueued(c, id, body), env, all);
      }
    case Attached(raw) => AttachSpeaks(c, raw, env, all);
    case ReplayTimer => ThenFlushed(c, Caught(c), env, all);
    case RetryTimer => ThenFlushed(c, c, env, all);
    case _ =>
  }

  lemma AttachSpeaks(c: Client, raw: Option<Snapshot>, env: Env, all: set<(string, string)>)
    requires Says(c.store.entries) <= all && (c.link.attaching ==> SaysOf(raw) <= all)
    ensures var (d, out) := ApplyAttached(c, raw, env); Speaks(c, d, out, all)
  {
    hide DrawsOn, WrittenFrames, Says, Flushed, Loaded, Persisted, StateSaved;
    SilentIsFine(c, all);
    var d := Attachment(c, raw);
    if c.link.attaching {
      LoadedWithin(c.store, raw, all);
      WithinHolds(c.store, Loaded(c.store, raw), all);
      PersistedWithin(Loaded(c.store, raw), all);
      WithinTwice(c.store, Loaded(c.store, raw), d.store, all);
    }
    WithinHolds(c.store, d.store, all);
    SavedWithin(d, all);
    WithinTwice(c.store, d.store, StateSaved(d).store, all);
    ThenFlushed(c, StateSaved(d), env, all);
  }

  // ---------------------------------------------------------------------
  // The whole system
  // ---------------------------------------------------------------------

  /** Each text is the one that its send was handed over with. */
  ghost predicate Right(says: set<(string, string)>, texts: map<string, string>) {
    forall p :: p in says ==> p.0 in texts && texts[p.0] == p.1
  }

  ghost predicate LogIsRight(log: seq<Activity>, texts: map<string, string>) {
    forall a :: a in log && a.clientId.Some? && a.clientId.value in texts ==> a.text == texts[a.clientId.value]
  }

  /** Wherever a send is, it has its text. */
  ghost predicate Worded(y: System) {
    var texts := y.ledger.texts;
    && texts.Keys == y.ledger.accepted
    && Right(Says(y.client.store.entries), texts) && Right(y.wire, texts)
    && (forall x :: Holds(y, x) ==> Right(Says(x.outbox), texts))
    && LogIsRight(Log(y), texts)
  }

  /** More sends were accepted. */
  ghost predicate Extends(more: map<string, string>, texts: map<string, string>) {
    forall id :: id in texts ==> id in more && more[id] == texts[id]
  }

  lemma StaysRight(says: set<(string, string)>, texts: map<string, string>, more: map<string, string>)
    requires Right(says, texts) && Extends(more, texts)
    ensures Right(says, more)
  {
  }

  lemma TextsGrow(y: System, e: Event, env: Env)
    requires Worded(y) && Possible(y, e)
    ensures var l := AfterLocal(y, e, env).ledger;
      && l.texts.Keys == l.accepted && Extends(l.texts, y.ledger.texts)
      && (forall id :: id in l.texts && id !in y.ledger.texts ==> id !in Turns(Log(y)))
      && Right(Sources(y.client, e), l.texts)
  {
    hide Apply, Observed, Recorded, Ids, Gone;
    var texts, more := y.ledger.texts, AfterLocal(y, e, env).ledger.texts;
    StaysRight(Says(y.client.store.entries), texts, more);
    if e.Attached? && y.client.link.attaching && e.raw.Some? {
      assert Holds(y, e.raw.value);
      StaysRight(Says(e.raw.value.outbox), texts, more);
    }
  }

  lemma LogStaysRight(log: seq<Activity>, texts: map<string, string>, more: map<string, string>)
    requires LogIsRight(log, texts) && Extends(more, texts)
    requires forall id :: id in more && id !in texts ==> id !in Turns(log)
    ensures LogIsRight(log, more)
  {
    forall a | a in log && a.clientId.Some? && a.clientId.value in more
      ensures a.text == more[a.clientId.value]
    {
      assert a.clientId.value in Turns(log);
    }
  }

  lemma LocalHolds(y: System, e: Event, env: Env, x: Snapshot)
    requires Holds(AfterLocal(y, e, env), x)
    ensures Holds(y, x) || Says(x.outbox) <= Sources(y.client, e)
  {
    hide Apply, Observed, Recorded, Entered, Gone, Sources;
    EventSpeaks(y.client, e, env);
    var s, t := y.client.store, Apply(y.client, e, env).0.store;
    if x in Queue(AfterLocal(y, e, env)) {
      var i :| 0 <= i < |t.writing| && t.writing[i].snapshot == x;
      if i < |s.writing| {
        assert Queue(y)[i] == x;
      }
    }
  }

  lemma LocalWorded(y: System, e: Event, env: Env)
    requires Worded(y) && Possible(y, e)
    ensures Worded(AfterLocal(y, e, env))
  {
    hide Apply, Observed, Recorded, Entered, Gone, Holds, Sources, Says, Extends, LogIsRight;
    var z := AfterLocal(y, e, env);
    var texts, more := y.ledger.texts, z.ledger.texts;
    TextsGrow(y, e, env);
    EventSpeaks(y.client, e, env);
    StaysRight(y.wire, texts, more);
    LogStaysRight(Log(y), texts, more);
    forall x | Holds(z, x)
      ensures Right(Says(x.outbox), more)
    {
      LocalHolds(y, e, env, x);
      if Holds(y, x) {
        StaysRight(Says(x.outbox), texts, more);
      }
    }
  }

  lemma ArrivalWorded(y: System, m: Message, swallowAck: bool)
    requires Worded(y) && Enabled(y, Arrives(m, swallowAck))
    ensures Worded(AfterArrival(y, m, swallowAck))
  {
    hide Handled, Says, Holds;
    var z := AfterArrival(y, m, swallowAck);
    HandlingAppends(y.server, y.conversation, m, None, swallowAck);
    assert forall x :: Holds(z, x) ==> Holds(y, x) by {
      SameHolds(y, z);
    }
    forall a | a in Log(z) && a.clientId.Some? && a.clientId.value in y.ledger.texts
      ensures a.text == y.ledger.texts[a.clientId.value]
    {
      var i :| 0 <= i < |Log(z)| && Log(z)[i] == a;
      if i < |Log(y)| {
        assert Log(y)[i] == a;
      }
    }
  }

  lemma SameHolds(y: System, z: System)
    requires z.client == y.client && z.storage == y.storage && z.load == y.load && z.conversation == y.conversation
    ensures forall x :: Holds(z, x) <==> Holds(y, x)
  {
  }

  lemma ReadWorded(y: System, ok: bool)
    requires Worded(y)
    ensures Worded(AfterRead(y, ok))
  {
    hide Says;
    assert Log(AfterRead(y, ok)) == Log(y) && Queue(AfterRead(y, ok)) == Queue(y) && OnDisk(AfterRead(y, ok)) == OnDisk(y);
  }

  lemma LoadWorded(y: System)
    requires Worded(y)
    ensures Worded(AfterLoad(y))
  {
    hide Says, Loaded;
    var z, raw := AfterLoad(y), Raw(y.load.reading);
    if raw.Some? {
      assert Holds(y, raw.value);
    }
    LoadedWithin(y.client.store, raw, Says(y.client.store.entries) + SaysOf(raw));
    assert z.client.store.writing == y.client.store.writing by {
      LoadKeepsQueue(y.client.store, raw);
    }
    assert Log(z) == Log(y) && OnDisk(z) == OnDisk(y) && Queue(z) == Queue(y);
  }

  lemma LoadKeepsQueue(s: Store, raw: Option<Snapshot>)
    ensures Loaded(s, raw).writing == s.writing
  {
  }

  lemma WriteWorded(y: System, ok: bool)
    requires Worded(y) && y.client.store.writing != []
    ensures Worded(AfterWrite(y, ok))
  {
    hide Says, Unresolved, Ids;
    var z := AfterWrite(y, ok);
    assert Queue(z) == Queue(y)[1..] && Queue(y)[0] in Queue(y);
    assert forall x :: Holds(z, x) ==> Holds(y, x);
  }

  lemma CrashWorded(y: System, birth: Birth)
    requires Worded(y)
    ensures Worded(AfterCrash(y, birth))
  {
    hide Unresolved, Ids;
    var z := AfterCrash(y, birth);
    assert z.client.store.entries == [] && Queue(z) == [] && Log(z) == Log(y) && OnDisk(z) == OnDisk(y);
  }

  lemma StepWorded(y: System, t: Step)
    requires Worded(y) && Enabled(y, t)
    ensures Worded(Next(y, t))
  {
    hide Worded, AfterLocal, AfterArrival, AfterRead, AfterLoad, AfterWrite, AfterCrash;
    match t
    case Local(e, env) => LocalWorded(y, e, env);
    case Arrives(m, swallowAck) => ArrivalWorded(y, m, swallowAck);
    case ReadDone(ok) => ReadWorded(y, ok);
    case LoadDone => LoadWorded(y);
    case WriteDone(ok) => WriteWorded(y, ok);
    case Crash(birth) => CrashWorded(y, birth);
  }

  lemma {:induction false} RunWorded(y: System, ts: seq<Step>)
    requires Worded(y) && IsRun(y, ts)
    ensures Worded(After(y, ts))
    decreases |ts|
  {
    hide Worded, Next, Enabled;
    if ts != [] {
      StepWorded(y, ts[0]);
      RunWorded(Next(y, ts[0]), ts[1..]);
    }
  }

  /**
   * In every run of the whole system, with losses, repetitions, reconnects, failed and late reads and
   * writes, and crashes: every accepted send has the text that send() was given, and every copy of it
   * has that text: in the outbox, in every snapshot that is stored or on its way, in every frame ever
   * written, and in the log.
   */
  lemma TextIsKept(conversation: string, server: Server, birth: Birth, canSync: bool, ts: seq<Step>)
    requires IsRun(Beginning(conversation, server, birth, canSync), ts)
    ensures var y := After(Beginning(conversation, server, birth, canSync), ts);
      var texts := y.ledger.texts;
      && texts.Keys == y.ledger.accepted
      && (forall e :: e in y.client.store.entries ==> e.clientId in texts && texts[e.clientId] == e.body)
      && (forall x, e :: Holds(y, x) && e in x.outbox ==> e.clientId in texts && texts[e.clientId] == e.body)
      && (forall f :: f in y.wire ==> f.0 in texts && texts[f.0] == f.1)
      && (forall a :: a in Log(y) && a.clientId.Some? && a.clientId.value in y.ledger.accepted ==> a.text == texts[a.clientId.value])
  {
    hide IsRun, After, Holds;
    var y0 := Beginning(conversation, server, birth, canSync);
    assert Worded(y0) by {
      BeginsWorded(conversation, server, birth, canSync);
    }
    RunWorded(y0, ts);
    var y := After(y0, ts);
    EntriesAreRight(y.client.store.entries, y.ledger.texts);
    forall x, e | Holds(y, x) && e in x.outbox
      ensures e.clientId in y.ledger.texts && y.ledger.texts[e.clientId] == e.body
    {
      EntriesAreRight(x.outbox, y.ledger.texts);
    }
  }

  lemma EntriesAreRight(es: seq<Entry>, texts: map<string, string>)
    requires Right(Says(es), texts)
    ensures forall e :: e in es ==> e.clientId in texts && texts[e.clientId] == e.body
  {
    forall e | e in es
      ensures e.clientId in texts && texts[e.clientId] == e.body
    {
      assert (e.clientId, e.body) in Says(es);
    }
  }

  lemma BeginsWorded(conversation: string, server: Server, birth: Birth, canSync: bool)
    ensures Worded(Beginning(conversation, server, birth, canSync))
  {
    var y := Beginning(conversation, server, birth, canSync);
    assert y.client.store.entries == [] && Queue(y) == [] && OnDisk(y) == None;
  }
}
