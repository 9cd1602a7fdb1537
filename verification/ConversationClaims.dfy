/** What the TypeScript session asks the server for: which hello and sync frames it sends, and the watermark each claims. */
module ConversationClaims {
  import opened Prefix
  import opened Outbox
  import opened ConversationProtocol
  import opened ConversationReceive

  // ---------------------------------------------------------------------
  // Where the session stands
  // ---------------------------------------------------------------------

  /**
   * What the events so far made of the connection: `again` tells whether one was lost or could not be
   * opened before, and `welcomed` whether this one was.
   */
  datatype Place = Over(fatal: bool) | Down(again: bool) | Up(again: bool, welcomed: bool)

  function Next(at: Place, e: Event): Place {
    match at
    case Over(_) => at
    case Down(again) =>
      if e.Connect? then Up(again, false)
      else if e.Disconnect? then Over(false)
      else if e.ConnectFailed? then if e.fatal then Over(true) else Down(true)
      else at
    case Up(again, _) =>
      if e.Disconnect? then Over(false)
      else if e.Close? then if e.fatal then Over(true) else Down(true)
      else if e.Receive? && e.frame.Welcome? then Up(again, true)
      else at
  }

  function PlaceOf(es: seq<(Event, Env)>): Place {
    if es == [] then Down(false) else Next(PlaceOf(es[..|es| - 1]), es[|es| - 1].0)
  }

  /** A welcome came on some connection. */
  predicate Greeted(es: seq<(Event, Env)>) {
    es != []
    && var (front, e) := (es[..|es| - 1], es[|es| - 1].0);
    Greeted(front) || (PlaceOf(front).Up? && e.Receive? && e.frame.Welcome?)
  }

  /** The conversation that was named last, at the construction or by a welcome on a connection. */
  function Named(first: string, es: seq<(Event, Env)>): string {
    if es == [] then first
    else
      var (front, e) := (es[..|es| - 1], es[|es| - 1].0);
      if PlaceOf(front).Up? && e.Receive? && e.frame.Welcome? && e.frame.conversationId != "" then e.frame.conversationId
      else Named(first, front)
  }

  /** The state that the application is shown. */
  function PhaseAt(at: Place): Phase {
    match at
    case Over(_) => Closed
    case Down(again) => if again then Reconnecting else Idle
    case Up(again, welcomed) => if welcomed then Open else if again then Reconnecting else Connecting
  }

  predicate IsAt(l: Link, at: Place) {
    && l.stopped == at.Over? && l.connected == at.Up? && l.phase == PhaseAt(at) && l.fatal == (at == Over(true))
    && (l.welcomed ==> at.Over? || at.again || (at.Up? && at.welcomed))
  }

  lemma FlushedLink(c: Client, env: Env)
    ensures Flushed(c, env).0.link == c.link
  {
    FlushedKeepsRest(c, env);
  }

  predicate SamePlace(l: Link, m: Link) {
    && l.conversationId == m.conversationId && l.stopped == m.stopped && l.connected == m.connected
    && l.phase == m.phase && l.fatal == m.fatal && l.welcomed == m.welcomed
  }

  lemma ErrorKeepsPlace(c: Client, fault: Fault, env: Env)
    ensures SamePlace(c.link, ApplyError(c, fault, env).0.link)
  {
    hide Flushed, Removed, StateSet, Resets;
    if fault.clientId.Some? {
      FlushedLink(c.(window := Forgotten(c.window, fault.clientId.value), store := Removed(c.store, fault.clientId.value)), env);
    }
    FlushedLink(Caught(c), env);
    FlushedLink(Caught(StateSaved(c.(inbox := Restarted(c.inbox)))), env);
  }

  lemma FrameKeepsPlace(c: Client, f: Frame, env: Env)
    requires !f.Welcome?
    ensures SamePlace(c.link, ApplyFrame(c, f, env).0.link)
  {
    hide Flushed, Marked, Removed, StateSet, ApplyError, ApplyPersistent;
    match f
    case Ack(id, n, k) =>
      FlushedLink(SettledSend(if k.Some? then Seen(c, k.value) else c, id, n, k).0, env);
    case Error(fault) => ErrorKeepsPlace(c, fault, env);
    case Persistent(a) => PersistentKeepsPlace(c, a, env);
    case _ =>
  }

  lemma PersistentKeepsPlace(c: Client, a: Activity, env: Env)
    ensures SamePlace(c.link, ApplyPersistent(c, a, env).0.link)
  {
    hide Flushed, Removed, StateSet, Marked, Owned;
    assert Received(c, a).0.link == c.link;
    hide Received;
    FlushedLink(Caught(Received(c, a).0), env);
  }

  lemma AttachedPlace(c: Client, raw: Option<Snapshot>)
    ensures SamePlace(c.link, StateSaved(Attachment(c, raw)).link)
  {
  }

  /** An event moves the session from where it stands, and only a welcome names a conversation. */
  ghost predicate Moved(c: Client, at: Place, d: Client, e: Event) {
    var greets := at.Up? && e.Receive? && e.frame.Welcome?;
    && IsAt(d.link, Next(at, e))
    && d.link.conversationId == (if greets && e.frame.conversationId != "" then e.frame.conversationId else c.link.conversationId)
    && d.link.welcomed == (c.link.welcomed || greets)
  }

  lemma SameMoves(c: Client, at: Place, d: Client, e: Event)
    requires IsAt(c.link, at) && SamePlace(c.link, d.link)
    requires !e.Connect? && !e.ConnectFailed? && !e.Close? && !e.Disconnect? && !(at.Up? && e.Receive? && e.frame.Welcome?)
    ensures Moved(c, at, d, e)
  {
  }

  lemma WelcomeMoves(c: Client, at: Place, f: Frame, env: Env)
    requires IsAt(c.link, at) && at.Up? && f.Welcome?
    ensures Moved(c, at, ApplyFrame(c, f, env).0, Receive(f))
  {
    hide StateSet, Resets;
  }

  lemma ConnectionMoves(c: Client, at: Place, e: Event, env: Env)
    requires IsAt(c.link, at) && (e.Connect? || e.ConnectFailed? || e.Close? || e.Disconnect?)
    ensures Moved(c, at, Apply(c, e, env).0, e)
  {
  }

  lemma EventMoves(c: Client, at: Place, e: Event, env: Env)
    requires IsAt(c.link, at)
    ensures Moved(c, at, Apply(c, e, env).0, e)
  {
    hide Flushed, ApplyFrame, Added, Attachment, StateSaved, Moved;
    match e
    case Receive(f) =>
      if c.link.connected && f.Welcome? {
        WelcomeMoves(c, at, f, env);
      } else {
        FrameKeepsPlace(c, if f.Welcome? then Signal else f, env);
        SameMoves(c, at, Apply(c, e, env).0, e);
      }
    case Send(id, body) =>
      FlushedLink(Enqueued(c, id, body), env);
      SameMoves(c, at, Apply(c, e, env).0, e);
    case Attached(raw) =>
      AttachedPlace(c, raw);
      FlushedLink(StateSaved(Attachment(c, raw)), env);
      SameMoves(c, at, Apply(c, e, env).0, e);
    case Connect => ConnectionMoves(c, at, e, env);
    case ConnectFailed(_) => ConnectionMoves(c, at, e, env);
    case Close(_) => ConnectionMoves(c, at, e, env);
    case Disconnect => ConnectionMoves(c, at, e, env);
    case _ =>
      FlushedLink(c, env);
      FlushedLink(Caught(c), env);
      SameMoves(c, at, Apply(c, e, env).0, e);
  }

  lemma {:induction false} RunLast(c: Client, h: History, es: seq<(Event, Env)>, t: (Event, Env))
    ensures var (d, k) := Run(c, h, es);
      Run(c, h, es + [t]) == (Apply(d, t.0, t.1).0, Recorded(d, k, t.0, t.1))
    decreases |es|
  {
    hide Apply, Recorded;
    if es == [] {
      assert (es + [t])[1..] == [];
    } else {
      assert (es + [t])[1..] == es[1..] + [t];
      RunLast(Apply(c, es[0].0, es[0].1).0, Recorded(c, h, es[0].0, es[0].1), es[1..], t);
    }
  }

  // ---------------------------------------------------------------------
  // What is asked for
  // ---------------------------------------------------------------------

  /** The hello and sync frames among the outputs. */
  function Asked(out: seq<Output>): seq<Output> {
    if out == [] then []
    else if out[0].HelloSent? || out[0].SyncSent? then [out[0]] + Asked(out[1..])
    else Asked(out[1..])
  }

  lemma {:induction false} NothingAsked(out: seq<Output>)
    requires forall o :: o in out ==> !o.HelloSent? && !o.SyncSent?
    ensures Asked(out) == []
  {
    if out != [] {
      NothingAsked(out[1..]);
    }
  }

  lemma {:induction false} AskedLast(out: seq<Output>, o: Output)
    requires OnlyWrites(out) && o.SyncSent?
    ensures Asked(out + [o]) == [o]
  {
    if out == [] {
      assert (out + [o])[1..] == [];
    } else {
      assert (out + [o])[1..] == out[1..] + [o];
      AskedLast(out[1..], o);
    }
  }

  /** The end of the unbroken run of seqs that were accounted for since the last reset. */
  function Known(h: History): int {
    Absorb(h.start, Seqs(h.accounts))
  }

  lemma KnownIsWatermark(i: Inbox, h: History)
    requires Safe(i, h)
    ensures Known(h) == i.watermark
  {
    var all := Seqs(h.accounts);
    assert i.watermark + 1 !in all;
    AbsorbIsUnique(h.start, all, i.watermark);
  }

  /** The server does not know the watermark of a hello or sync. */
  predicate Disowned(c: Client, fault: Fault) {
    && fault.code == "invalid_watermark" && !NamesSend(c, fault)
    && (fault.frameType.None? || fault.frameType.value == "hello" || fault.frameType.value == "sync")
  }

  /** The frames that an event makes the session ask with, given the largest prefix `known`. */
  function Expected(c: Client, at: Place, known: int, e: Event): seq<Output> {
    match e
    case Connect => if at.Down? then [HelloSent(if c.link.conversationId == "" then None else Some(known))] else []
    case Receive(ReplayTruncated(_, stoppedAt)) =>
      if at.Up? then [SyncSent(if stoppedAt < known then stoppedAt else known)] else []
    case Receive(Error(fault)) => if at.Up? && Disowned(c, fault) then [SyncSent(0)] else []
    case GapTimerDue =>
      if c.link.gapTimer.Armed? && c.link.gapTimer.highest > known && c.window.inFlight == {} && (at.Up? && at.welcomed) then [SyncSent(known)] else []
    case SyncTimerDue =>
      if c.link.syncFrom.Some? && (at.Up? && at.welcomed) then [SyncSent(if c.link.syncFrom.value < known then c.link.syncFrom.value else known)] else []
    case _ => []
  }

  lemma FrameAsks(c: Client, f: Frame, env: Env)
    ensures Asked(ApplyFrame(c, f, env).1) ==
      match f
      case ReplayTruncated(_, stoppedAt) => [SyncSent(Min(c.inbox.watermark, stoppedAt))]
      case Error(fault) => if Disowned(c, fault) then [SyncSent(0)] else []
      case _ => []
  {
    hide Flushed, Resets, Disowned;
    match f
    case Ack(_, _, _) =>
      InboxAfterAck(c, f, env);
      NothingAsked(ApplyAck(c, f, env).1);
    case Persistent(a) =>
      PersistentKeepsReceivedInbox(c, a, env);
      NothingAsked(ApplyFrame(c, f, env).1);
    case Error(fault) => ErrorAsks(c, fault, env);
    case ReplayTruncated(_, stoppedAt) => AskedLast([], SyncSent(Min(c.inbox.watermark, stoppedAt)));
    case _ =>
  }

  lemma DisownedResets(c: Client, fault: Fault)
    ensures Disowned(c, fault) <==> Resets(c, Error(fault))
  {
    var t := fault.frameType;
    assert t.Some? ==> t == Some(t.value);
    assert t in {None, Some("hello"), Some("sync")} <==> t.None? || t.value == "hello" || t.value == "sync";
  }

  lemma ErrorAsks(c: Client, fault: Fault, env: Env)
    ensures Asked(ApplyError(c, fault, env).1) == if Disowned(c, fault) then [SyncSent(0)] else []
  {
    hide Flushed, Asked;
    DisownedResets(c, fault);
    InboxAfterError(c, fault, env);
    if Resets(c, Error(fault)) {
      var d := StateSaved(c.(inbox := Restarted(c.inbox)));
      FlushedKeepsRest(Caught(d), env);
      AskedLast(ReplayEnded(d, env).1, SyncSent(0));
    } else {
      NothingAsked(ApplyError(c, fault, env).1);
    }
  }

  /** Exactly these frames are sent, from any state. */
  lemma EventAsks(c: Client, at: Place, e: Event, env: Env)
    requires IsAt(c.link, at)
    ensures Asked(Apply(c, e, env).1) == Expected(c, at, c.inbox.watermark, e)
  {
    hide Flushed, Resets, ApplyFrame, Disowned;
    match e
    case Receive(f) => FrameAsks(c, f, env);
    case Send(id, body) =>
      FlushedKeepsRest(Enqueued(c, id, body), env);
      NothingAsked(Apply(c, e, env).1);
    case Attached(raw) =>
      FlushedKeepsRest(StateSaved(Attachment(c, raw)), env);
      NothingAsked(Apply(c, e, env).1);
    case ReplayTimer =>
      FlushedKeepsRest(Caught(c), env);
      NothingAsked(Apply(c, e, env).1);
    case RetryTimer =>
      FlushedKeepsRest(c, env);
      NothingAsked(Apply(c, e, env).1);
    case _ =>
  }

  /** The watermark of the sync that waits for its timer. */
  function Scheduled(c: Client, at: Place, known: int, e: Event): Option<int> {
    match e
    case Receive(Error(fault)) =>
      if at.Up? && fault.code == "replay_unavailable" && !NamesSend(c, fault) then
        Some(if fault.watermark.Some? then fault.watermark.value else known)
      else c.link.syncFrom
    case Close(_) => if at.Up? then None else c.link.syncFrom
    case ConnectFailed(fatal) => if at.Down? && fatal then None else c.link.syncFrom
    case Disconnect => None
    case SyncTimerDue => None
    case _ => c.link.syncFrom
  }

  lemma EventSchedules(c: Client, at: Place, e: Event, env: Env)
    requires IsAt(c.link, at)
    ensures Apply(c, e, env).0.link.syncFrom == Scheduled(c, at, c.inbox.watermark, e)
  {
    hide Flushed, Marked, StateSet, ApplyAck, ApplyError, ApplyPersistent, Persisted, Loaded, Resets;
    match e
    case Receive(f) => FrameSchedules(c, f, env);
    case Send(id, body) => FlushedLink(Enqueued(c, id, body), env);
    case Attached(raw) => FlushedLink(StateSaved(Attachment(c, raw)), env);
    case _ =>
      FlushedLink(c, env);
      FlushedLink(Caught(c), env);
  }

  lemma FrameSchedules(c: Client, f: Frame, env: Env)
    ensures ApplyFrame(c, f, env).0.link.syncFrom ==
      if f.Error? && f.fault.code == "replay_unavailable" && !NamesSend(c, f.fault) then
        Some(if f.fault.watermark.Some? then f.fault.watermark.value else c.inbox.watermark)
      else c.link.syncFrom
  {
    hide Flushed, Marked, Removed, StateSet, Resets;
    match f
    case Ack(id, n, k) =>
      FlushedLink(SettledSend(if k.Some? then Seen(c, k.value) else c, id, n, k).0, env);
    case Error(fault) =>
      if fault.clientId.Some? {
        FlushedLink(c.(window := Forgotten(c.window, fault.clientId.value), store := Removed(c.store, fault.clientId.value)), env);
      }
      FlushedKeepsRest(Caught(c), env);
      FlushedLink(Caught(StateSaved(c.(inbox := Restarted(c.inbox)))), env);
    case Persistent(a) => FlushedLink(Caught(Received(c, a).0), env);
    case _ =>
  }

  // ---------------------------------------------------------------------
  // What is waited for
  // ---------------------------------------------------------------------

  /** The seq up to which a replay is awaited. */
  function Awaited(l: Link): Option<int> {
    if l.replaying then Some(l.replayTarget) else None
  }

  /** The same after an event that leaves the watermark at `known`. */
  function AwaitedAfter(c: Client, at: Place, known: int, e: Event): Option<int> {
    match e
    case Receive(f) =>
      if !at.Up? then Awaited(c.link)
      else (match f
        case Welcome(_, head, _) => if head.Some? && head.value > known then head else None
        case ReplayTruncated(head, _) => Some(head)
        case Persistent(a) => if c.link.replaying && a.seqNo > 0 && a.seqNo >= c.link.replayTarget then None else Awaited(c.link)
        case Error(fault) =>
          if Disowned(c, fault) || (fault.code == "replay_unavailable" && !NamesSend(c, fault)) then None else Awaited(c.link)
        case _ => Awaited(c.link))
    case ReplayTimer => None
    case Close(_) => if at.Up? then None else Awaited(c.link)
    case _ => Awaited(c.link)
  }

  lemma FlushAwaits(c: Client, env: Env)
    ensures Awaited(ReplayEnded(c, env).0.link) == None
  {
    FlushedLink(Caught(c), env);
  }

  lemma ErrorAwaits(c: Client, fault: Fault, env: Env)
    ensures Awaited(ApplyError(c, fault, env).0.link) ==
      if Disowned(c, fault) || (fault.code == "replay_unavailable" && !NamesSend(c, fault)) then None else Awaited(c.link)
  {
    hide Flushed, Removed, StateSet, ReplayEnded;
    DisownedResets(c, fault);
    hide Resets;
    if fault.clientId.Some? {
      FlushedLink(c.(window := Forgotten(c.window, fault.clientId.value), store := Removed(c.store, fault.clientId.value)), env);
    }
    FlushAwaits(c, env);
    FlushAwaits(StateSaved(c.(inbox := Restarted(c.inbox))), env);
  }

  lemma PersistentAwaits(c: Client, a: Activity, env: Env)
    ensures Awaited(ApplyPersistent(c, a, env).0.link) ==
      if c.link.replaying && a.seqNo >= c.link.replayTarget then None else Awaited(c.link)
  {
    hide Flushed, Removed, StateSet, Marked, ReplayEnded, Owned;
    assert Received(c, a).0.link == c.link;
    hide Received;
    FlushAwaits(Received(c, a).0, env);
  }

  lemma FrameAwaits(c: Client, f: Frame, env: Env)
    requires c.link.connected
    ensures var d := ApplyFrame(c, f, env).0;
      forall again, welcomed :: Awaited(d.link) == AwaitedAfter(c, Up(again, welcomed), d.inbox.watermark, Receive(f))
  {
    hide Flushed, Marked, Removed, StateSet, ApplyError, ApplyPersistent, Resets;
    match f
    case Welcome(_, _, _) =>
    case Ack(id, n, k) => FlushedLink(SettledSend(if k.Some? then Seen(c, k.value) else c, id, n, k).0, env);
    case Error(fault) => ErrorAwaits(c, fault, env);
    case Persistent(a) => PersistentAwaits(c, a, env);
    case _ =>
  }

  lemma EventAwaits(c: Client, at: Place, e: Event, env: Env)
    requires IsAt(c.link, at)
    ensures var d := Apply(c, e, env).0; Awaited(d.link) == AwaitedAfter(c, at, d.inbox.watermark, e)
  {
    hide Flushed, StateSet, ApplyFrame, Persisted, Loaded;
    match e
    case Receive(f) =>
      if c.link.connected {
        FrameAwaits(c, f, env);
      }
    case Send(id, body) => FlushedLink(Enqueued(c, id, body), env);
    case Attached(raw) => FlushedLink(StateSaved(Attachment(c, raw)), env);
    case _ =>
      FlushedLink(c, env);
      FlushedLink(Caught(c), env);
  }

  /** The seq that an event shows to be in the log. */
  function Reported(e: Event): Option<int> {
    match e
    case Receive(Persistent(a)) => if a.seqNo > 0 then Some(a.seqNo) else None
    case Receive(Heartbeat(head)) => head
    case _ => None
  }

  /** The gap timer after an event that leads from `c` to `d`: a stale one is never armed again. */
  function TimerAfter(c: Client, at: Place, d: Client, e: Event): GapTimer {
    var t := c.link.gapTimer;
    match e
    case Receive(_) =>
      var n := Reported(e);
      if at.Up? && n.Some? && n.value > d.inbox.watermark && t == Unset && c.link.canSync && Awaited(d.link).None? && d.window.inFlight == {}
      then Armed(n.value) else t
    case GapTimerDue => if t.Armed? then Unset else t
    case Close(_) => if at.Up? && t != Unset then Cancelled else t
    case ConnectFailed(fatal) => if at.Down? && fatal && t != Unset then Cancelled else t
    case Disconnect => if t != Unset then Cancelled else t
    case _ => t
  }

  lemma PersistentTimes(c: Client, a: Activity, env: Env)
    requires c.link.connected
    ensures var d := ApplyPersistent(c, a, env).0;
      d.link.gapTimer ==
        if a.seqNo > d.inbox.watermark && c.link.gapTimer == Unset && c.link.canSync && Awaited(d.link).None? && d.window.inFlight == {}
        then Armed(a.seqNo) else c.link.gapTimer
  {
    hide Flushed, Removed, StateSet, Marked, Owned;
    assert Received(c, a).0.link == c.link;
    hide Received;
    FlushedKeepsRest(Caught(Received(c, a).0), env);
  }

  lemma FrameTimes(c: Client, f: Frame, env: Env)
    requires c.link.connected
    ensures var d := ApplyFrame(c, f, env).0;
      forall again, welcomed :: d.link.gapTimer == TimerAfter(c, Up(again, welcomed), d, Receive(f))
  {
    hide Flushed, Marked, Removed, StateSet, ApplyError, ApplyPersistent, Resets;
    match f
    case Ack(id, n, k) => FlushedLink(SettledSend(if k.Some? then Seen(c, k.value) else c, id, n, k).0, env);
    case Error(fault) => ErrorTimes(c, fault, env);
    case Persistent(a) => PersistentTimes(c, a, env);
    case _ =>
  }

  lemma ErrorTimes(c: Client, fault: Fault, env: Env)
    ensures ApplyError(c, fault, env).0.link.gapTimer == c.link.gapTimer
  {
    hide Flushed, Removed, StateSet, Resets;
    if fault.clientId.Some? {
      FlushedLink(c.(window := Forgotten(c.window, fault.clientId.value), store := Removed(c.store, fault.clientId.value)), env);
    }
    FlushedLink(Caught(c), env);
    FlushedLink(Caught(StateSaved(c.(inbox := Restarted(c.inbox)))), env);
  }

  lemma EventTimes(c: Client, at: Place, e: Event, env: Env)
    requires IsAt(c.link, at)
    ensures var d := Apply(c, e, env).0; d.link.gapTimer == TimerAfter(c, at, d, e)
  {
    hide Flushed, StateSet, ApplyFrame, Persisted, Loaded, Awaited;
    match e
    case Receive(f) =>
      if c.link.connected {
        FrameTimes(c, f, env);
      }
    case Send(id, body) => FlushedLink(Enqueued(c, id, body), env);
    case Attached(raw) => FlushedLink(StateSaved(Attachment(c, raw)), env);
    case _ =>
      FlushedLink(c, env);
      FlushedLink(Caught(c), env);
  }

  // ---------------------------------------------------------------------
  // Whole runs
  // ---------------------------------------------------------------------

  /** A session of which nothing was received yet, and which did not connect. */
  predicate Fresh(c: Client) {
    c.inbox == Inbox(c.inbox.watermark, {}, {}, []) && IsAt(c.link, Down(false)) && c.link.syncFrom.None?
  }

  function From(c: Client, es: seq<(Event, Env)>): (Client, History) {
    Run(c, History(c.inbox.watermark, [], {}, 0), es)
  }

  /** In every run the session is where the events brought it, in the conversation that was named last. */
  lemma {:induction false} SessionStands(c: Client, es: seq<(Event, Env)>)
    requires Fresh(c)
    ensures var d := From(c, es).0;
      IsAt(d.link, PlaceOf(es)) && d.link.conversationId == Named(c.link.conversationId, es) && d.link.welcomed == Greeted(es)
  {
    hide Apply, Recorded;
    if es != [] {
      var front, t := es[..|es| - 1], es[|es| - 1];
      assert es == front + [t];
      SessionStands(c, front);
      RunLast(c, History(c.inbox.watermark, [], {}, 0), front, t);
      EventMoves(From(c, front).0, PlaceOf(front), t.0, t.1);
    }
  }

  /**
   * In every run, and for every event after it: the session asks with exactly these frames. On
   * connecting it claims all that it knows without a gap since the last reset, or nothing when no
   * conversation was named; a truncated replay, a gap and a replay that failed are answered by a sync
   * from there, unless the server named an earlier point; after a reset it asks for everything; and at
   * no other event does it ask. When the gap timer is set, and up to which seq a replay is awaited,
   * follows the events too.
   */
  lemma AsksForAllItMisses(c: Client, es: seq<(Event, Env)>, e: Event, env: Env)
    requires Fresh(c)
    ensures var (d, h) := From(c, es);
      && Asked(Apply(d, e, env).1) == Expected(d, PlaceOf(es), Known(h), e)
      && Apply(d, e, env).0.link.syncFrom == Scheduled(d, PlaceOf(es), Known(h), e)
      && Apply(d, e, env).0.link.gapTimer == TimerAfter(d, PlaceOf(es), Apply(d, e, env).0, e)
      && Awaited(Apply(d, e, env).0.link) == AwaitedAfter(d, PlaceOf(es), Apply(d, e, env).0.inbox.watermark, e)
      && d.link.conversationId == Named(c.link.conversationId, es)
      && h.start <= Known(h) && Span(h.start, Known(h)) <= Seqs(h.accounts) && Known(h) + 1 !in Seqs(h.accounts)
  {
    hide Run, Apply, Expected, Scheduled, TimerAfter, AwaitedAfter;
    var (d, h) := From(c, es);
    EmptyTally(c.inbox.watermark);
    RunStaysSafe(c, History(c.inbox.watermark, [], {}, 0), es);
    SessionStands(c, es);
    KnownIsWatermark(d.inbox, h);
    EventAsks(d, PlaceOf(es), e, env);
    EventSchedules(d, PlaceOf(es), e, env);
    EventTimes(d, PlaceOf(es), e, env);
    EventAwaits(d, PlaceOf(es), e, env);
  }

  /**
   * In every run the session starts over from 0 exactly when a welcome names another conversation than
   * the one that was named last, or the server does not know the watermark of a hello or sync.
   */
  lemma StartsOverIff(c: Client, es: seq<(Event, Env)>, e: Event, env: Env)
    requires Fresh(c)
    ensures var ((d, h), (d', h')) := (From(c, es), From(c, es + [(e, env)]));
      var over := PlaceOf(es).Up? && e.Receive?
        && ((e.frame.Error? && Disowned(d, e.frame.fault))
            || (e.frame.Welcome? && e.frame.conversationId !in {"", Named(c.link.conversationId, es)} && Named(c.link.conversationId, es) != ""));
      && h'.resets == h.resets + (if over then 1 else 0)
      && (over ==> h'.start == 0 && h'.accounts == [] && d'.inbox.watermark == 0 && d'.inbox.seen == {})
      && (!over ==> h'.start == h.start && h.accounts <= h'.accounts && d.inbox.watermark <= d'.inbox.watermark)
  {
    hide Run, Apply, Observed, Disowned;
    var t := (e, env);
    var (d, h) := From(c, es);
    SessionStands(c, es);
    EmptyTally(c.inbox.watermark);
    RunStaysSafe(c, History(c.inbox.watermark, [], {}, 0), es);
    RunLast(c, History(c.inbox.watermark, [], {}, 0), es, t);
    InboxOf(d, e, env);
    if e.Receive? && e.frame.Error? {
      DisownedResets(d, e.frame.fault);
    }
    if !ResetsAt(d, e) {
      EventAccounts(d, e, env);
    }
  }
}
