/** What every event of the TypeScript session does to its outbox: which sends leave it, and what is journalled. */
module ConversationOutbox {
  import opened Prefix
  import opened Outbox
  import opened ConversationProtocol
  import opened ConversationReceive
  import opened ConversationSend

  function Position(c: Client): ResumeState {
    ResumeState(c.link.conversationId, c.inbox.watermark)
  }

  /** The resume state in memory is one of this conversation and claims no more than the watermark. */
  ghost predicate Sound(c: Client) {
    Writable(c.store, Position(c)) && 0 <= c.inbox.watermark
  }

  /**
   * From `c` to `d` the sends in `added` entered the outbox and those in `gone`
   * left it; only entries were written, and every snapshot queued on the way
   * holds all sends that are still unacknowledged in `d` and resumes within `hi`.
   */
  ghost predicate OutcomeWithin(c: Client, d: Client, out: seq<Output>, added: set<string>, gone: set<string>, hi: ResumeState) {
    && Sound(d)
    && Ids(d.store.entries) == Ids(c.store.entries) + added - gone
    && WrittenIds(out) <= Ids(c.store.entries) + added
    && Journalled(c.store, d.store.(key := c.store.key), hi, Ids(c.store.entries) + added)
  }

  ghost predicate Outcome(c: Client, d: Client, out: seq<Output>, added: set<string>, gone: set<string>) {
    OutcomeWithin(c, d, out, added, gone, Position(d))
  }

  lemma {:induction false} FlushedFromJournals(c: Client, i: nat, env: Env)
    requires i <= |c.store.entries| && Sound(c)
    ensures Journalled(c.store, FlushedFrom(c, i, env).0.store, Position(c), Ids(c.store.entries))
    ensures Ids(FlushedFrom(c, i, env).0.store.entries) == Ids(c.store.entries)
    decreases |c.store.entries| - i
  {
    hide Touched, Ids;
    if i < |c.store.entries| && |c.window.inFlight| < c.window.maxInFlight {
      var e := c.store.entries[i];
      if !Due(c, e, env.now) {
        FlushedFromJournals(c, i + 1, env);
      } else if env.room > 0 {
        TouchedIds(c.store, e.clientId);
        TouchedJournals(c.store, e.clientId, Position(c));
        var d := WrittenOnce(c, e);
        FlushedFromJournals(d, i + 1, env.(room := env.room - 1));
        JournalledTwice(c.store, d.store, FlushedFrom(d, i + 1, env.(room := env.room - 1)).0.store, Position(c), Ids(c.store.entries));
      }
    }
  }

  lemma FlushedOutcome(c: Client, env: Env)
    requires Sound(c)
    ensures Outcome(c, Flushed(c, env).0, Flushed(c, env).1, {}, {}) && Flushed(c, env).0.store.key == c.store.key
  {
    hide FlushedFrom, Ids;
    FlushedWritesEntries(c, env);
    if CanWrite(c) {
      FlushedFromJournals(c, 0, env);
    } else {
      QuietWrites([]);
    }
  }

  /** A change followed by a flush. */
  lemma OutcomeThenFlush(c: Client, m: Client, env: Env, first: seq<Output>, added: set<string>, gone: set<string>)
    requires Outcome(c, m, first, added, gone) && m.store.key == c.store.key && forall o :: o in first ==> !o.Written?
    ensures Outcome(c, Flushed(m, env).0, first + Flushed(m, env).1, added, gone)
  {
    hide Flushed, Ids, Covers, WrittenIds;
    FlushedOutcome(m, env);
    FlushedWritesEntries(m, env);
    var d := Flushed(m, env).0;
    assert Ids(m.store.entries) + {} - {} == Ids(m.store.entries) == Ids(m.store.entries) + {};
    JournalledTwice(c.store, m.store, d.store, Position(d), Ids(c.store.entries) + added);
    AppendedWrites(first, Flushed(m, env).1);
  }

  lemma SavedOutcome(c: Client, i: Inbox)
    requires Sound(c) && c.inbox.watermark <= i.watermark
    ensures Outcome(c, StateSaved(c.(inbox := i)), [], {}, {}) && Outcome(c, c.(inbox := i), [], {}, {})
    ensures StateSaved(c.(inbox := i)).store.key == c.store.key && StateSaved(c.(inbox := i)).inbox == i
    ensures StateSaved(c.(inbox := i)).link == c.link && StateSaved(c.(inbox := i)).store.entries == c.store.entries
  {
    QuietWrites([]);
    var state := ResumeState(c.link.conversationId, i.watermark);
    if c.link.conversationId != "" {
      StateSetJournals(c.store, state, state);
    }
  }

  lemma SeenOutcome(c: Client, n: int)
    requires Sound(c)
    ensures Outcome(c, Seen(c, n), [], {}, {}) && Seen(c, n).store.entries == c.store.entries && Seen(c, n).store.key == c.store.key
    ensures c.inbox.watermark <= Seen(c, n).inbox.watermark
  {
    hide StateSaved, Outcome;
    SavedOutcome(c, Marked(c.inbox, n));
  }

  /** Marking a seq and settling a send: the send leaves, nothing else does. */
  lemma SettledOutcome(c: Client, m: Client, clientId: string, id: string, n: Option<int>)
    requires Sound(c) && Outcome(c, m, [], {}, {}) && m.store.entries == c.store.entries && m.store.key == c.store.key
    ensures Outcome(c, SettledSend(m, clientId, id, n).0, SettledSend(m, clientId, id, n).1, {}, {clientId})
    ensures forall o :: o in SettledSend(m, clientId, id, n).1 ==> !o.Written?
    ensures SettledSend(m, clientId, id, n).0.store.key == c.store.key
  {
    hide Removed, Ids;
    RemovedIds(m.store, clientId);
    RemovedJournals(m.store, clientId, Position(m));
    JournalledTwice(c.store, m.store, Removed(m.store, clientId), Position(m), Ids(c.store.entries));
    QuietWrites(SettledSend(m, clientId, id, n).1);
  }

  lemma RelinkedOutcome(c: Client, m: Client, d: Client, out: seq<Output>, added: set<string>, gone: set<string>)
    requires Outcome(c, m, out, added, gone) && d.store.(key := m.store.key) == m.store && d.inbox == m.inbox
    requires d.link.conversationId == m.link.conversationId
    ensures Outcome(c, d, out, added, gone)
  {
  }

  // ---------------------------------------------------------------------
  // Event by event
  // ---------------------------------------------------------------------

  /** The sends that an event adds to the outbox. */
  function Entered(c: Client, e: Event): set<string> {
    match e
    case Send(id, _) => if Accepts(c, id) then {id} else {}
    case Attached(Some(raw)) => if c.link.attaching then Ids(raw.outbox) else {}
    case _ => {}
  }

  /** The sends that an event takes out: acknowledged, seen as an own turn, or rejected for good. */
  function Gone(c: Client, e: Event): set<string> {
    if !e.Receive? || !c.link.connected then {}
    else match e.frame
      case Ack(id, _, _) => {id}
      case Persistent(a) =>
        if a.seqNo > 0 && !Accounted(c.inbox, a.seqNo) && IsOwnTurn(c, a) then {a.clientId.value} else {}
      case Error(fault) => if NamesSend(c, fault) && !RetryableSend(fault) then {fault.clientId.value} else {}
      case _ => {}
  }

  lemma ReceivedOutcome(c: Client, a: Activity)
    requires Sound(c) && a.seqNo > 0 && c.link.connected
    ensures Outcome(c, Received(c, a).0, Received(c, a).1, {}, Gone(c, Receive(Persistent(a))))
    ensures forall o :: o in Received(c, a).1 ==> !o.Written?
    ensures Received(c, a).0.store.key == c.store.key
  {
    hide SettledSend, Seen;
    QuietWrites([]);
    QuietWrites([Emitted(a)]);
    if !Accounted(c.inbox, a.seqNo) {
      SeenOutcome(c, a.seqNo);
      var m := Seen(c, a.seqNo);
      if IsOwnTurn(c, a) {
        SettledOutcome(c, m, a.clientId.value, if a.id.Some? then a.id.value else "undefined", Some(a.seqNo));
      }
    }
  }

  lemma ReplayEndOutcome(c: Client, env: Env)
    requires Sound(c)
    ensures Outcome(c, ReplayEnded(c, env).0, ReplayEnded(c, env).1, {}, {}) && OnlyWrites(ReplayEnded(c, env).1)
  {
    hide Flushed, Ids;
    QuietWrites([]);
    FlushedOutcome(Caught(c), env);
    FlushedKeepsRest(Caught(c), env);
  }

  lemma PersistentOutcome(c: Client, a: Activity, env: Env)
    requires Sound(c) && a.seqNo > 0 && c.link.connected
    ensures Outcome(c, ApplyPersistent(c, a, env).0, ApplyPersistent(c, a, env).1, {}, Gone(c, Receive(Persistent(a))))
  {
    hide Received, Flushed, Gone, Outcome;
    var gone := Gone(c, Receive(Persistent(a)));
    ReceivedOutcome(c, a);
    var (m, first) := Received(c, a);
    var (d, out) := ApplyPersistent(c, a, env);
    RelinkedOutcome(c, m, Caught(m), first, {}, gone);
    OutcomeThenFlush(c, Caught(m), env, first, {}, gone);
    if m.link.replaying && a.seqNo >= m.link.replayTarget {
      RelinkedOutcome(c, Flushed(Caught(m), env).0, d, out, {}, gone);
    } else {
      assert first + [] == first;
      RelinkedOutcome(c, m, d, out, {}, gone);
    }
  }

  lemma AckOutcome(c: Client, f: Frame, env: Env)
    requires Sound(c) && f.Ack? && c.link.connected
    ensures Outcome(c, ApplyAck(c, f, env).0, ApplyAck(c, f, env).1, {}, {f.clientId})
  {
    hide SettledSend, Flushed, Seen;
    QuietWrites([]);
    var m := if f.seqNo.Some? then Seen(c, f.seqNo.value) else c;
    if f.seqNo.Some? {
      SeenOutcome(c, f.seqNo.value);
    }
    SettledOutcome(c, m, f.clientId, f.id, f.seqNo);
    var (d, first) := SettledSend(m, f.clientId, f.id, f.seqNo);
    OutcomeThenFlush(c, d, env, first, {}, {f.clientId});
  }

  lemma ErrorOutcome(c: Client, fault: Fault, env: Env)
    requires Sound(c) && c.link.connected
    ensures Outcome(c, ApplyError(c, fault, env).0, ApplyError(c, fault, env).1, {}, Gone(c, Receive(Error(fault))))
  {
    hide Flushed, Removed, ReplayEnded, Ids;
    QuietWrites([]);
    if NamesSend(c, fault) {
      var id := fault.clientId.value;
      if !RetryableSend(fault) {
        var d := c.(window := Forgotten(c.window, id), store := Removed(c.store, id));
        RemovedIds(c.store, id);
        RemovedJournals(c.store, id, Position(c));
        QuietWrites([SendFailed(id)]);
        OutcomeThenFlush(c, d, env, [SendFailed(id)], {}, {id});
      }
    } else if fault.code == "replay_unavailable" {
      ReplayEndOutcome(c, env);
      RelinkedOutcome(c, ReplayEnded(c, env).0, ApplyError(c, fault, env).0, ApplyError(c, fault, env).1, {}, {});
    } else if Resets(c, Error(fault)) {
      ResetOutcome(c, env);
      AppendedWrites([SyncSent(0)], ReplayEnded(StateSaved(c.(inbox := Restarted(c.inbox))), env).1);
    }
  }

  /** Starting over from watermark 0 is saved and takes no send out. */
  lemma RestartedOutcome(c: Client)
    requires Sound(c)
    ensures var d := StateSaved(c.(inbox := Restarted(c.inbox))); Outcome(c, d, [], {}, {}) && d.store.key == c.store.key
  {
    hide Ids;
    QuietWrites([]);
    var state := ResumeState(c.link.conversationId, 0);
    if c.link.conversationId != "" {
      PersistedJournals(c.store.(state := Some(state)), state);
    }
  }

  lemma ResetOutcome(c: Client, env: Env)
    requires Sound(c)
    ensures var (d, out) := ReplayEnded(StateSaved(c.(inbox := Restarted(c.inbox))), env); Outcome(c, d, out, {}, {})
  {
    hide StateSaved, Flushed, Outcome, Restarted;
    var m := StateSaved(c.(inbox := Restarted(c.inbox)));
    RestartedOutcome(c);
    RelinkedOutcome(c, m, Caught(m), [], {}, {});
    OutcomeThenFlush(c, Caught(m), env, [], {}, {});
    assert [] + Flushed(Caught(m), env).1 == Flushed(Caught(m), env).1;
  }

  lemma WelcomeOutcome(c: Client, f: Frame)
    requires Sound(c) && f.Welcome?
    ensures Outcome(c, ApplyWelcome(c, f), [], {}, {})
  {
    hide StateSaved, Outcome;
    var named := Joined(c, f);
    NamedOutcome(c, f);
    RelinkedOutcome(named, StateSaved(named), ApplyWelcome(c, f), [], {}, {});
    SameOrigin(c, named, ApplyWelcome(c, f));
  }

  /** The conversation named by a welcome is saved, from watermark 0 when it is another one. */
  lemma NamedOutcome(c: Client, f: Frame)
    requires Sound(c) && f.Welcome?
    ensures Outcome(Joined(c, f), StateSaved(Joined(c, f)), [], {}, {})
  {
    hide Ids;
    QuietWrites([]);
    var named := Joined(c, f);
    var state := ResumeState(named.link.conversationId, named.inbox.watermark);
    if named.link.conversationId != "" {
      PersistedJournals(named.store.(state := Some(state)), state);
    }
  }

  lemma SameOrigin(c: Client, named: Client, d: Client)
    requires named.store == c.store && Outcome(named, d, [], {}, {})
    ensures Outcome(c, d, [], {}, {})
  {
  }

  lemma FrameOutcome(c: Client, f: Frame, env: Env)
    requires Sound(c) && c.link.connected
    ensures Outcome(c, ApplyFrame(c, f, env).0, ApplyFrame(c, f, env).1, {}, Gone(c, Receive(f)))
  {
    hide ApplyPersistent, ApplyAck, ApplyError, ApplyWelcome, Ids;
    var out := ApplyFrame(c, f, env).1;
    match f
    case Persistent(a) =>
      QuietWrites([]);
      if a.seqNo > 0 {
        PersistentOutcome(c, a, env);
      }
    case Ack(_, _, _) => AckOutcome(c, f, env);
    case Error(fault) => ErrorOutcome(c, fault, env);
    case Welcome(_, _, _) => WelcomeOutcome(c, f);
    case _ => QuietWrites(out);
  }

  lemma SendOutcome(c: Client, id: string, body: string, env: Env)
    requires Sound(c)
    ensures Outcome(c, ApplySend(c, id, body, env).0, ApplySend(c, id, body, env).1, Entered(c, Send(id, body)), {})
  {
    hide Flushed, Added;
    QuietWrites([]);
    QuietWrites([Refused(id)]);
    if Accepts(c, id) {
      AddedIds(c.store, Entry(id, body, 0));
      AddedJournals(c.store, Entry(id, body, 0), Position(c));
      var m := Enqueued(c, id, body);
      OutcomeThenFlush(c, m, env, [], {id}, {});
      assert [] + Flushed(m, env).1 == Flushed(m, env).1;
    }
  }

  /** A snapshot that an earlier session of this conversation may have left; it may have got further. */
  ghost predicate Loadable(c: Client, raw: Snapshot) {
    Distinct(raw.outbox) && (raw.state.Some? ==> Within(raw.state, raw.state.value) && raw.state.value.conversationId == c.link.conversationId)
  }

  /** The furthest that a snapshot queued at `e` resumes from: a stored state is written back before it is replaced. */
  function Reach(c: Client, e: Event, d: Client): ResumeState {
    if e.Attached? && c.link.attaching && e.raw.Some? && e.raw.value.state.Some? then
      ResumeState(d.link.conversationId, Max(d.inbox.watermark, e.raw.value.state.value.watermark))
    else Position(d)
  }

  lemma JournalledWider(s: Store, t: Store, lo: ResumeState, hi: ResumeState, all: set<string>)
    requires Journalled(s, t, lo, all) && lo.conversationId == hi.conversationId && lo.watermark <= hi.watermark
    ensures Journalled(s, t, hi, all)
  {
    hide Ids;
  }

  /** The merge of what was stored, and the resume state of this session in place of the stored one. */
  lemma MergedOutcome(c: Client, raw: Option<Snapshot>)
    requires Sound(c) && (raw.Some? ==> Loadable(c, raw.value))
    ensures var d := StateSaved(Attachment(c, raw));
      && OutcomeWithin(c, d, [], Entered(c, Attached(raw)), {}, Reach(c, Attached(raw), d))
      && d.store.key == c.store.key && d.inbox == c.inbox && d.link.conversationId == c.link.conversationId
  {
    hide Unknown, StateSet, Ids;
    QuietWrites([]);
    var m := Attachment(c, raw);
    var d := StateSaved(m);
    var hi := Reach(c, Attached(raw), d);
    if c.link.attaching {
      if raw.Some? {
        LoadedIds(c.store, raw.value);
      }
      PersistedJournals(Loaded(c.store, raw), hi);
    }
    SavedWithin(m, hi);
    JournalledTwice(c.store, m.store, d.store, hi, Ids(m.store.entries));
  }

  lemma SavedWithin(m: Client, hi: ResumeState)
    requires Writable(m.store, hi) && hi.conversationId == m.link.conversationId && 0 <= m.inbox.watermark <= hi.watermark
    ensures var d := StateSaved(m);
      && Journalled(m.store, d.store, hi, Ids(m.store.entries)) && d.store.entries == m.store.entries && Sound(d)
  {
    hide Ids;
    var state := ResumeState(m.link.conversationId, m.inbox.watermark);
    if m.link.conversationId != "" {
      StateSetJournals(m.store, state, hi);
    }
  }

  lemma AttachmentOutcome(c: Client, raw: Option<Snapshot>, env: Env)
    requires Sound(c)
    requires raw.Some? ==> Loadable(c, raw.value)
    ensures var (d, out) := ApplyAttached(c, raw, env);
      OutcomeWithin(c, d, out, Entered(c, Attached(raw)), {}, Reach(c, Attached(raw), d))
  {
    hide Flushed, Ids, StateSaved, Attachment, Covers, WrittenIds, Entered;
    MergedOutcome(c, raw);
    var m := StateSaved(Attachment(c, raw));
    var (d, out) := Flushed(m, env);
    var hi := Reach(c, Attached(raw), m);
    FlushedOutcome(m, env);
    FlushedWritesEntries(m, env);
    assert Ids(m.store.entries) + {} - {} == Ids(m.store.entries) == Ids(m.store.entries) + {};
    JournalledWider(m.store, d.store, Position(m), hi, Ids(m.store.entries));
    JournalledTwice(c.store, m.store, d.store, hi, Ids(c.store.entries) + Entered(c, Attached(raw)));
  }

  /**
   * A send leaves the outbox only through an ack that names it, its own turn
   * arriving from the log, or an error that is final; it enters only by `send` or
   * from storage; only entries are written; and no queued snapshot is ever
   * without a send that is still unacknowledged. A reset takes out nothing.
   */
  lemma EventOutcome(c: Client, e: Event, env: Env)
    requires Sound(c)
    requires e.Attached? && e.raw.Some? ==> Loadable(c, e.raw.value)
    ensures var (d, out) := Apply(c, e, env); OutcomeWithin(c, d, out, Entered(c, e), Gone(c, e), Reach(c, e, d))
  {
    hide ApplyFrame, ApplySend, ApplyAttached, Flushed, Ids;
    var out := Apply(c, e, env).1;
    match e
    case Receive(f) =>
      if c.link.connected {
        FrameOutcome(c, f, env);
      } else {
        QuietWrites(out);
      }
    case Send(id, body) => SendOutcome(c, id, body, env);
    case Attached(raw) => AttachmentOutcome(c, raw, env);
    case ReplayTimer => ReplayEndOutcome(c, env);
    case RetryTimer => FlushedOutcome(c, env);
    case _ => QuietWrites(out);
  }

  /** Only a welcome names the conversation or moves the store to its key. */
  lemma IdentityOf(c: Client, e: Event, env: Env)
    ensures var d := Apply(c, e, env).0;
      if e.Receive? && c.link.connected && e.frame.Welcome? then d == ApplyWelcome(c, e.frame)
      else (
        && d.link.conversationId == c.link.conversationId && d.store.key == c.store.key
        && d.link.attaching == (c.link.attaching && !e.Attached?))
  {
    hide FlushedFrom, Ids;
    match e
    case Receive(f) =>
      if c.link.connected {
        IdentityAfterFrame(c, f, env);
      }
    case Send(id, body) => FlushedKeepsRest(Enqueued(c, id, body), env);
    case Attached(raw) => FlushedKeepsRest(StateSaved(Attachment(c, raw)), env);
    case _ =>
      FlushedKeepsRest(c, env);
      FlushedKeepsRest(Caught(c), env);
  }

  lemma IdentityAfterFrame(c: Client, f: Frame, env: Env)
    ensures var d := ApplyFrame(c, f, env).0;
      if f.Welcome? then d == ApplyWelcome(c, f)
      else d.link.conversationId == c.link.conversationId && d.store.key == c.store.key && d.link.attaching == c.link.attaching
  {
    hide Flushed, ApplyPersistent, ApplyError, Ids, IndexOf, Marked;
    match f
    case Persistent(a) => IdentityAfterTurn(c, a, env);
    case Ack(id, actId, n) =>
      var d := if n.Some? then Seen(c, n.value) else c;
      FlushedKeepsRest(SettledSend(d, id, actId, n).0, env);
    case Error(fault) => IdentityAfterError(c, fault, env);
    case _ =>
  }

  lemma IdentityAfterTurn(c: Client, a: Activity, env: Env)
    ensures var d := ApplyPersistent(c, a, env).0;
      d.link.conversationId == c.link.conversationId && d.store.key == c.store.key && d.link.attaching == c.link.attaching
  {
    hide Flushed, Ids, IndexOf, Marked;
    assert Received(c, a).0.link == c.link && Received(c, a).0.store.key == c.store.key;
    hide Received;
    FlushedKeepsRest(Caught(Received(c, a).0), env);
  }

  lemma IdentityAfterError(c: Client, fault: Fault, env: Env)
    ensures var d := ApplyError(c, fault, env).0;
      d.link.conversationId == c.link.conversationId && d.store.key == c.store.key && d.link.attaching == c.link.attaching
  {
    hide FlushedFrom, Ids, IndexOf;
    if NamesSend(c, fault) {
      var id := fault.clientId.value;
      FlushedKeepsRest(c.(window := Forgotten(c.window, id), store := Removed(c.store, id)), env);
    } else {
      FlushedKeepsRest(Caught(c), env);
      FlushedKeepsRest(Caught(StateSaved(c.(inbox := Restarted(c.inbox)))), env);
    }
  }
}
