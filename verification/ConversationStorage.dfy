/** What the TypeScript session stores: every change, the position it would resume from, and where it resumes. */
module ConversationStorage {
  import opened Prefix
  import opened Outbox
  import opened ConversationProtocol
  import opened ConversationReceive
  import opened ConversationOutbox
  import opened ConversationClaims

  // ---------------------------------------------------------------------
  // Every change is stored
  // ---------------------------------------------------------------------

  /** The last snapshot on its way is what memory holds. */
  ghost predicate EndsCurrent(s: Store) {
    s.key.Some? ==> s.writing != [] && s.writing[|s.writing| - 1] == Write(s.key.value, Current(s))
  }

  /** From `s` to `t` nothing changed, or the change is on its way to the storage. */
  ghost predicate Tracks(s: Store, t: Store) {
    t.key == s.key && (t == s || EndsCurrent(t))
  }

  lemma TracksTwice(s: Store, t: Store, u: Store)
    requires Tracks(s, t) && Tracks(t, u)
    ensures Tracks(s, u)
  {
  }

  lemma OperationsTrack(s: Store, e: Entry, clientId: string, state: ResumeState)
    ensures Tracks(s, Added(s, e)) && Tracks(s, Touched(s, clientId)) && Tracks(s, Removed(s, clientId)) && Tracks(s, StateSet(s, state))
    ensures Touched(s, clientId).state == s.state && Removed(s, clientId).state == s.state && Added(s, e).state == s.state
  {
    hide IndexOf;
  }

  /** Saving the same position again writes nothing. */
  lemma SavesOnce(s: Store, state: ResumeState)
    ensures StateSet(StateSet(s, state), state) == StateSet(s, state)
  {
  }

  lemma CurrentIsMirrored(s: Store, storage: map<string, Snapshot>)
    requires EndsCurrent(s)
    ensures Mirrored(s, storage)
  {
    if s.key.Some? {
      var front, last := s.writing[..|s.writing| - 1], s.writing[|s.writing| - 1];
      assert s.writing == front + [last];
      SettledAppend(front, storage, last);
    }
  }

  /** The store of `d` follows that of `c`, and the saved position is the same. */
  ghost predicate Keeps(c: Client, d: Client) {
    Tracks(c.store, d.store) && d.store.state == c.store.state && d.inbox == c.inbox
  }

  lemma {:induction false} FlushedFromKeeps(c: Client, i: nat, env: Env)
    requires i <= |c.store.entries|
    ensures Keeps(c, FlushedFrom(c, i, env).0)
    decreases |c.store.entries| - i
  {
    hide Tracks, Due, Touched;
    Unchanged(c.store);
    if i < |c.store.entries| && |c.window.inFlight| < c.window.maxInFlight {
      var e := c.store.entries[i];
      if !Due(c, e, env.now) {
        FlushedFromKeeps(c, i + 1, env);
      } else if env.room > 0 {
        TouchedIds(c.store, e.clientId);
        OperationsTrack(c.store, e, e.clientId, ResumeState("", 0));
        var next, less := WrittenOnce(c, e), env.(room := env.room - 1);
        FlushedFromKeeps(next, i + 1, less);
        TracksTwice(c.store, next.store, FlushedFrom(next, i + 1, less).0.store);
      }
    }
  }

  lemma Unchanged(s: Store)
    ensures Tracks(s, s)
  {
  }

  lemma FlushedKeeps(c: Client, env: Env)
    ensures Keeps(c, Flushed(c, env).0)
  {
    hide Tracks, FlushedFrom;
    Unchanged(c.store);
    FlushedFromKeeps(c, 0, env);
  }

  /** The position that a new session would resume from is the current one. */
  ghost predicate SavedNow(c: Client) {
    c.link.conversationId != "" ==> c.store.state == Some(Position(c))
  }

  /** The store follows, and a position that was saved stays so. */
  ghost predicate Stores(c: Client, d: Client) {
    Tracks(c.store, d.store) && (SavedNow(c) ==> SavedNow(d))
  }

  lemma ThenFlushed(c: Client, m: Client, env: Env)
    requires Stores(c, m)
    ensures Stores(c, Flushed(m, env).0)
  {
    hide Tracks, Flushed;
    FlushedKeeps(m, env);
    FlushedKeepsRest(m, env);
    TracksTwice(c.store, m.store, Flushed(m, env).0.store);
  }

  lemma SavedStores(c: Client)
    ensures Tracks(c.store, StateSaved(c).store) && SavedNow(StateSaved(c))
  {
    Unchanged(c.store);
    OperationsTrack(c.store, Entry("", "", 0), "", Position(c));
  }

  lemma SeenStores(c: Client, n: int)
    ensures Stores(c, Seen(c, n)) && Seen(c, n).link == c.link
  {
    hide Tracks, Marked, StateSet;
    Unchanged(c.store);
    SavedStores(c.(inbox := Marked(c.inbox, n)));
  }

  lemma SettledStores(c: Client, m: Client, clientId: string, id: string, n: Option<int>)
    requires Stores(c, m)
    ensures var d := SettledSend(m, clientId, id, n).0; Stores(c, d) && d.link == m.link
  {
    hide Tracks, Removed;
    OperationsTrack(m.store, Entry("", "", 0), clientId, ResumeState("", 0));
    TracksTwice(c.store, m.store, Removed(m.store, clientId));
  }

  lemma AckStores(c: Client, f: Frame, env: Env)
    requires f.Ack?
    ensures Stores(c, ApplyAck(c, f, env).0)
  {
    hide Stores, Flushed, Seen, SettledSend;
    StaysStored(c);
    var m := if f.seqNo.Some? then Seen(c, f.seqNo.value) else c;
    if f.seqNo.Some? {
      SeenStores(c, f.seqNo.value);
    }
    SettledStores(c, m, f.clientId, f.id, f.seqNo);
    ThenFlushed(c, SettledSend(m, f.clientId, f.id, f.seqNo).0, env);
  }

  lemma StaysStored(c: Client)
    ensures Stores(c, c)
  {
  }

  lemma ReceivedStores(c: Client, a: Activity)
    ensures Stores(c, Received(c, a).0) && Received(c, a).0.link == c.link
  {
    hide Stores, Seen, SettledSend;
    StaysStored(c);
    SeenStores(c, a.seqNo);
    if IsOwnTurn(Seen(c, a.seqNo), a) {
      SettledStores(c, Seen(c, a.seqNo), a.clientId.value, if a.id.Some? then a.id.value else "undefined", Some(a.seqNo));
    }
  }

  /** The parts that the position and the store do not depend on. */
  lemma RelinkedStores(c: Client, m: Client, d: Client)
    requires Stores(c, m) && d.store == m.store && d.inbox == m.inbox && d.link.conversationId == m.link.conversationId
    ensures Stores(c, d)
  {
  }

  lemma PersistentStores(c: Client, a: Activity, env: Env)
    ensures Stores(c, ApplyPersistent(c, a, env).0)
  {
    hide Stores, Flushed, Received;
    ReceivedStores(c, a);
    var m := Received(c, a).0;
    RelinkedStores(c, m, Caught(m));
    ThenFlushed(c, Caught(m), env);
    var e := if m.link.replaying && a.seqNo >= m.link.replayTarget then Flushed(Caught(m), env).0 else m;
    RelinkedStores(c, e, ApplyPersistent(c, a, env).0);
  }

  lemma RestartedStores(c: Client)
    ensures Stores(c, StateSaved(c.(inbox := Restarted(c.inbox))))
  {
    hide Tracks, StateSaved;
    SavedStores(c.(inbox := Restarted(c.inbox)));
  }

  lemma RemovedStores(c: Client, d: Client, id: string)
    requires d == c.(window := d.window, store := Removed(c.store, id))
    ensures Stores(c, d)
  {
    hide Tracks, Removed;
    OperationsTrack(c.store, Entry("", "", 0), id, ResumeState("", 0));
  }

  lemma ErrorStores(c: Client, fault: Fault, env: Env)
    ensures Stores(c, ApplyError(c, fault, env).0)
  {
    hide Stores, Flushed, Removed, Resets, StateSaved, Ids;
    StaysStored(c);
    if NamesSend(c, fault) {
      var id := fault.clientId.value;
      var d := c.(window := Forgotten(c.window, id), store := Removed(c.store, id));
      RemovedStores(c, d, id);
      ThenFlushed(c, d, env);
      if RetryableSend(fault) {
        RelinkedStores(c, c, ApplyError(c, fault, env).0);
      }
    } else if fault.code == "replay_unavailable" {
      RelinkedStores(c, c, Caught(c));
      ThenFlushed(c, Caught(c), env);
      RelinkedStores(c, ReplayEnded(c, env).0, ApplyError(c, fault, env).0);
    } else if Resets(c, Error(fault)) {
      RestartedStores(c);
      var m := StateSaved(c.(inbox := Restarted(c.inbox)));
      RelinkedStores(c, m, Caught(m));
      ThenFlushed(c, Caught(m), env);
    }
  }

  lemma WelcomeStores(c: Client, f: Frame)
    requires f.Welcome?
    ensures var d := ApplyWelcome(c, f);
      && SavedNow(d) && (d.link.conversationId != "" ==> d.store.key == Some(d.link.conversationId))
      && (d.store.key == c.store.key ==> Tracks(c.store, d.store)) && (d.store.key != c.store.key ==> d.link.attaching)
  {
    hide Tracks, StateSaved, Resets;
    SavedStores(Joined(c, f));
    SavedLink(Joined(c, f));
  }

  lemma SavedLink(c: Client)
    ensures StateSaved(c).link == c.link && StateSaved(c).inbox == c.inbox && StateSaved(c).store.key == c.store.key
  {
  }

  lemma AttachStores(c: Client, raw: Option<Snapshot>, env: Env)
    ensures var d := ApplyAttached(c, raw, env).0;
      SavedNow(d) && (if c.link.attaching then EndsCurrent(d.store) && d.store.key == c.store.key else Tracks(c.store, d.store))
  {
    hide StateSaved, Flushed, Loaded, Mirrored;
    var m := Attachment(c, raw);
    SavedStores(m);
    SavedLink(m);
    FlushedKeeps(StateSaved(m), env);
    FlushedKeepsRest(StateSaved(m), env);
    LoadedKey(c.store, raw);
  }

  lemma LoadedKey(s: Store, raw: Option<Snapshot>)
    ensures Loaded(s, raw).key == s.key
  {
  }

  lemma FrameStores(c: Client, f: Frame, env: Env)
    requires !f.Welcome?
    ensures Stores(c, ApplyFrame(c, f, env).0)
  {
    hide Stores, ApplyAck, ApplyError, ApplyPersistent;
    StaysStored(c);
    match f
    case Ack(_, _, _) => AckStores(c, f, env);
    case Error(fault) => ErrorStores(c, fault, env);
    case Persistent(a) => PersistentStores(c, a, env);
    case _ => RelinkedStores(c, c, ApplyFrame(c, f, env).0);
  }

  lemma SendStores(c: Client, id: string, body: string, env: Env)
    ensures Stores(c, ApplySend(c, id, body, env).0)
  {
    hide Tracks, Flushed, Added;
    Unchanged(c.store);
    OperationsTrack(c.store, Entry(id, body, 0), id, ResumeState("", 0));
    ThenFlushed(c, Enqueued(c, id, body), env);
  }

  predicate WelcomedAt(c: Client, e: Event) {
    c.link.connected && e.Receive? && e.frame.Welcome?
  }

  /**
   * What every event stores, from any state: a change of the outbox or of the position is the last
   * snapshot on its way, and an attach stores what it merged in any case; the saved position stays the
   * current one, and is so after a welcome and after an attach.
   */
  lemma EventStores(c: Client, e: Event, env: Env)
    ensures var d := Apply(c, e, env).0;
      && (d.store.key == c.store.key ==> Tracks(c.store, d.store) || (e.Attached? && c.link.attaching))
      && (e.Attached? && c.link.attaching ==> EndsCurrent(d.store))
      && (SavedNow(c) || WelcomedAt(c, e) || e.Attached? ==> SavedNow(d))
      && (WelcomedAt(c, e) && d.link.conversationId != "" ==> d.store.key == Some(d.link.conversationId))
      && (!WelcomedAt(c, e) ==> d.store.key == c.store.key && d.link.conversationId == c.link.conversationId)
      && (d.store.key != c.store.key ==> d.link.attaching)
  {
    hide EndsCurrent, ApplyFrame, ApplySend, ApplyAttached, Flushed, SavedNow;
    IdentityOf(c, e, env);
    StaysStored(c);
    match e
    case Receive(f) =>
      if f.Welcome? {
        WelcomeStores(c, f);
        WelcomeIs(c, f, env);
      } else {
        FrameStores(c, f, env);
      }
    case Send(id, body) => SendStores(c, id, body, env);
    case Attached(raw) => AttachStores(c, raw, env);
    case RetryTimer => ThenFlushed(c, c, env);
    case ReplayTimer =>
      RelinkedStores(c, c, Caught(c));
      ThenFlushed(c, Caught(c), env);
    case _ => RelinkedStores(c, c, Apply(c, e, env).0);
  }

  lemma WelcomeIs(c: Client, f: Frame, env: Env)
    requires f.Welcome?
    ensures ApplyFrame(c, f, env).0 == ApplyWelcome(c, f)
  {
  }

  // ---------------------------------------------------------------------
  // Whole runs
  // ---------------------------------------------------------------------

  /**
   * In every run: once a welcome has named the conversation, the store is the one of that conversation,
   * and the position saved in it is the conversation together with all that is known without a gap.
   */
  lemma {:induction false} PositionIsSaved(c: Client, es: seq<(Event, Env)>)
    requires ConversationClaims.Fresh(c)
    ensures var ((d, h), id) := (From(c, es), Named(c.link.conversationId, es));
      Greeted(es) && id != "" ==> d.store.key == Some(id) && d.store.state == Some(ResumeState(id, Known(h)))
  {
    hide Apply, Recorded, Run, Known, Next;
    var h0 := History(c.inbox.watermark, [], {}, 0);
    SessionStands(c, es);
    if es != [] {
      var front, t := es[..|es| - 1], es[|es| - 1];
      assert es == front + [t];
      PositionIsSaved(c, front);
      SessionStands(c, front);
      RunLast(c, h0, front, t);
      EventStores(From(c, front).0, t.0, t.1);
      EmptyTally(c.inbox.watermark);
      RunStaysSafe(c, h0, front);
      RunStaysSafe(c, h0, es);
      KnownIsWatermark(From(c, front).0.inbox, From(c, front).1);
      KnownIsWatermark(From(c, es).0.inbox, From(c, es).1);
    }
  }

  /** Nothing is out of step: an attach is still to come, or the storage will hold what memory holds. */
  ghost predicate InStep(c: Client, storage: map<string, Snapshot>) {
    c.link.attaching || Mirrored(c.store, storage)
  }

  /**
   * A session in step with its storage stays so in every run, and an attach brings it in step: once all
   * writes have gone through, the storage holds the outbox and the position of memory.
   */
  lemma {:induction false} StorageFollows(c: Client, h: History, es: seq<(Event, Env)>, storage: map<string, Snapshot>)
    requires InStep(c, storage)
    ensures InStep(Run(c, h, es).0, storage)
    decreases |es|
  {
    hide Apply, Recorded, InStep;
    if es != [] {
      StaysInStep(c, es[0].0, es[0].1, storage);
      StorageFollows(Apply(c, es[0].0, es[0].1).0, Recorded(c, h, es[0].0, es[0].1), es[1..], storage);
    }
  }

  lemma StaysInStep(c: Client, e: Event, env: Env, storage: map<string, Snapshot>)
    requires InStep(c, storage)
    ensures InStep(Apply(c, e, env).0, storage)
  {
    hide Apply, Mirrored, EndsCurrent;
    EventStores(c, e, env);
    IdentityOf(c, e, env);
    var d := Apply(c, e, env).0;
    if EndsCurrent(d.store) {
      CurrentIsMirrored(d.store, storage);
    }
    AttachingStays(c, e, env);
  }

  lemma AttachingStays(c: Client, e: Event, env: Env)
    ensures c.link.attaching && !e.Attached? ==> Apply(c, e, env).0.link.attaching
  {
    IdentityOf(c, e, env);
  }

  // ---------------------------------------------------------------------
  // Resuming
  // ---------------------------------------------------------------------

  /**
   * The first hello of a resumed session claims the watermark that its caller gave, or else the stored
   * one if it is of this conversation, or else nothing of the log.
   */
  lemma ResumesFrom(id: string, canSync: bool, raw: Option<Snapshot>, given: Option<int>, env: Env)
    requires id != ""
    ensures var c := LoadEnded(Constructed(id, Some(id), canSync), raw, given);
      Apply(c, Connect, env).1 == [HelloSent(Some(
        if given.Some? then given.value
        else if raw.Some? && raw.value.state.Some? && raw.value.state.value.conversationId == id then raw.value.state.value.watermark
        else 0))]
  {
    hide Unknown;
  }
}
