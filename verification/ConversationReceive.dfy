/** The receive side of the TypeScript session: the watermark is the contiguous prefix of what was accounted for. */
module ConversationReceive {
  import opened Prefix
  import opened Outbox
  import opened ConversationProtocol

  // ---------------------------------------------------------------------
  // Flushing touches the outbox only
  // ---------------------------------------------------------------------

  ghost predicate OnlyWrites(out: seq<Output>) {
    forall i :: 0 <= i < |out| ==> out[i].Written?
  }

  lemma {:induction false} FlushedFromKeepsRest(c: Client, i: nat, env: Env)
    requires i <= |c.store.entries|
    ensures var (d, out) := FlushedFrom(c, i, env);
      && d.inbox == c.inbox && d.link == c.link && d.store.key == c.store.key
      && OnlyWrites(out)
    decreases |c.store.entries| - i
  {
    if i < |c.store.entries| && |c.window.inFlight| < c.window.maxInFlight {
      var e := c.store.entries[i];
      if !Due(c, e, env.now) {
        FlushedFromKeepsRest(c, i + 1, env);
      } else if env.room > 0 {
        TouchedIds(c.store, e.clientId);
        FlushedFromKeepsRest(WrittenOnce(c, e), i + 1, env.(room := env.room - 1));
      }
    }
  }

  lemma FlushedKeepsRest(c: Client, env: Env)
    ensures var (d, out) := Flushed(c, env);
      && d.inbox == c.inbox && d.link == c.link && d.store.key == c.store.key
      && OnlyWrites(out)
  {
    FlushedFromKeepsRest(c, 0, env);
  }

  // ---------------------------------------------------------------------
  // What an event does to the inbox
  // ---------------------------------------------------------------------

  function InboxAfterFrame(c: Client, f: Frame): Inbox {
    if Resets(c, f) then Restarted(c.inbox)
    else match f
      case Ack(_, id, n) => Owned(if n.Some? then Marked(c.inbox, n.value) else c.inbox, n, id)
      case Persistent(a) =>
        if a.seqNo <= 0 || Accounted(c.inbox, a.seqNo) then c.inbox
        else if IsOwnTurn(c, a) then
          Owned(Marked(c.inbox, a.seqNo), Some(a.seqNo), if a.id.Some? then a.id.value else "undefined")
        else Marked(c.inbox, a.seqNo)
      case _ => c.inbox
  }

  lemma ReceivedInbox(c: Client, a: Activity)
    requires a.seqNo > 0
    ensures Received(c, a).0.inbox == InboxAfterFrame(c, Persistent(a))
  {
  }

  lemma PersistentKeepsReceivedInbox(c: Client, a: Activity, env: Env)
    ensures ApplyPersistent(c, a, env).0.inbox == Received(c, a).0.inbox
    ensures var n := |Received(c, a).1|;
      && n <= |ApplyPersistent(c, a, env).1|
      && ApplyPersistent(c, a, env).1[..n] == Received(c, a).1
      && OnlyWrites(ApplyPersistent(c, a, env).1[n..])
    ensures forall o :: o in ApplyPersistent(c, a, env).1 ==> o in Received(c, a).1 || o.Written?
  {
    var d := Received(c, a).0;
    FlushedKeepsRest(Caught(d), env);
  }

  lemma InboxAfterAck(c: Client, f: Frame, env: Env)
    requires f.Ack?
    ensures ApplyAck(c, f, env).0.inbox == InboxAfterFrame(c, f)
    ensures forall o :: o in ApplyAck(c, f, env).1 ==> o.Written? || o == Sent(f.clientId, f.seqNo)
  {
    var d := if f.seqNo.Some? then Seen(c, f.seqNo.value) else c;
    FlushedKeepsRest(SettledSend(d, f.clientId, f.id, f.seqNo).0, env);
  }

  lemma InboxAfterError(c: Client, fault: Fault, env: Env)
    ensures ApplyError(c, fault, env).0.inbox == InboxAfterFrame(c, Error(fault))
    ensures forall o :: o in ApplyError(c, fault, env).1 ==>
      o.Written? || o.SendFailed? || (o == SyncSent(0) && Resets(c, Error(fault)))
  {
    if NamesSend(c, fault) {
      var id := fault.clientId.value;
      FlushedKeepsRest(c.(window := Forgotten(c.window, id), store := Removed(c.store, id)), env);
    } else if fault.code == "replay_unavailable" {
      FlushedKeepsRest(Caught(c), env);
    } else if Resets(c, Error(fault)) {
      FlushedKeepsRest(Caught(StateSaved(c.(inbox := Restarted(c.inbox)))), env);
    }
  }

  /** The seq that an event may account for. */
  function SeqOf(e: Event): Option<int> {
    match e
    case Receive(Ack(_, _, n)) => n
    case Receive(Persistent(a)) => if a.seqNo > 0 then Some(a.seqNo) else None
    case _ => None
  }

  function InboxAfter(c: Client, e: Event): Inbox {
    if e.Receive? && c.link.connected then InboxAfterFrame(c, e.frame) else c.inbox
  }

  lemma InboxOf(c: Client, e: Event, env: Env)
    ensures Apply(c, e, env).0.inbox == InboxAfter(c, e)
  {
    match e
    case Receive(f) =>
      if c.link.connected {
        match f
        case Ack(_, _, _) => InboxAfterAck(c, f, env);
        case Error(fault) => InboxAfterError(c, fault, env);
        case Persistent(a) =>
          if a.seqNo > 0 {
            ReceivedInbox(c, a);
            PersistentKeepsReceivedInbox(c, a, env);
          }
        case _ =>
      }
    case Send(id, body) =>
      FlushedKeepsRest(Enqueued(c, id, body), env);
    case Attached(raw) =>
      FlushedKeepsRest(StateSaved(Attachment(c, raw)), env);
    case _ =>
      FlushedKeepsRest(c, env);
      FlushedKeepsRest(Caught(c), env);
  }

  // ---------------------------------------------------------------------
  // Histories
  // ---------------------------------------------------------------------

  /** The activities handed to the application, and the watermarks claimed by hello and sync frames. */
  function Emissions(out: seq<Output>): seq<Activity> {
    if out == [] then []
    else if out[0].Emitted? then [out[0].activity] + Emissions(out[1..])
    else Emissions(out[1..])
  }

  function Claims(out: seq<Output>): set<int> {
    (set o | o in out && o.SyncSent? :: o.resumeFrom)
    + (set o | o in out && o.HelloSent? && o.claimed.Some? :: o.claimed.value)
  }

  lemma {:induction false} NoEmissions(out: seq<Output>)
    requires forall o :: o in out ==> !o.Emitted?
    ensures Emissions(out) == []
    decreases |out|
  {
    if out != [] {
      NoEmissions(out[1..]);
    }
  }

  lemma FirstEmission(first: seq<Output>, rest: seq<Output>)
    requires |first| <= 1 && OnlyWrites(rest)
    ensures Emissions(first + rest) == if first != [] && first[0].Emitted? then [first[0].activity] else []
  {
    NoEmissions(rest);
    if first != [] {
      assert (first + rest)[1..] == rest;
    } else {
      assert first + rest == rest;
    }
  }

  /** Whether a persistent frame is shown to the application: it is new, and not a turn of this session. */
  predicate Shown(c: Client, a: Activity) {
    && a.seqNo > 0 && !Accounted(c.inbox, a.seqNo)
    && !IsOwnTurn(c, a)
    && a.seqNo !in Marked(c.inbox, a.seqNo).ownSeqs
    && !(a.id.Some? && a.id.value in c.inbox.ownIds)
  }

  lemma EmissionsOfFrame(c: Client, f: Frame, env: Env)
    ensures Emissions(ApplyFrame(c, f, env).1) == if f.Persistent? && Shown(c, f.activity) then [f.activity] else []
  {
    match f
    case Persistent(a) =>
      if a.seqNo > 0 {
        PersistentKeepsReceivedInbox(c, a, env);
        var all, first := ApplyPersistent(c, a, env).1, Received(c, a).1;
        FirstEmission(first, all[|first|..]);
        assert all == first + all[|first|..];
      }
    case Ack(_, _, _) =>
      InboxAfterAck(c, f, env);
      NoEmissions(ApplyAck(c, f, env).1);
    case Error(fault) =>
      InboxAfterError(c, fault, env);
      NoEmissions(ApplyError(c, fault, env).1);
    case _ =>
      NoEmissions(ApplyFrame(c, f, env).1);
  }

  lemma OutputsWithoutFrame(c: Client, e: Event, env: Env)
    requires !e.Receive?
    ensures forall o :: o in Apply(c, e, env).1 ==> !o.Emitted? && !o.Sent?
    ensures forall w :: w in Claims(Apply(c, e, env).1) ==> w <= c.inbox.watermark
  {
    match e
    case Send(id, body) =>
      FlushedKeepsRest(Enqueued(c, id, body), env);
    case Attached(raw) =>
      FlushedKeepsRest(StateSaved(Attachment(c, raw)), env);
    case _ =>
      FlushedKeepsRest(c, env);
      FlushedKeepsRest(Caught(c), env);
  }

  /** Exactly the shown activities are emitted, each once. */
  lemma EmissionsOf(c: Client, e: Event, env: Env)
    ensures Emissions(Apply(c, e, env).1) ==
      if e.Receive? && c.link.connected && e.frame.Persistent? && Shown(c, e.frame.activity) then [e.frame.activity] else []
  {
    if e.Receive? {
      EmissionsOfFrame(c, e.frame, env);
    } else {
      OutputsWithoutFrame(c, e, env);
      NoEmissions(Apply(c, e, env).1);
    }
  }

  /** Every hello and sync claims at most the watermark that the session has after the event. */
  lemma ClaimsOf(c: Client, e: Event, env: Env)
    ensures forall w :: w in Claims(Apply(c, e, env).1) ==> w <= Apply(c, e, env).0.inbox.watermark
  {
    InboxOf(c, e, env);
    if e.Receive? && c.link.connected {
      var f := e.frame;
      match f
      case Persistent(a) =>
        PersistentKeepsReceivedInbox(c, a, env);
      case Ack(_, _, _) => InboxAfterAck(c, f, env);
      case Error(fault) => InboxAfterError(c, fault, env);
      case _ =>
    } else if !e.Receive? {
      OutputsWithoutFrame(c, e, env);
    }
  }

  datatype History = History(start: int, accounts: seq<Account>, claims: set<int>, resets: nat)

  /** What an observer of the emissions and of the accounted set sees happen at `e`. */
  function Observed(c: Client, e: Event, env: Env): seq<Account> {
    var (d, out) := Apply(c, e, env);
    var shown := Emissions(out);
    var n := SeqOf(e);
    if shown != [] then seq(|shown|, i requires 0 <= i < |shown| => Delivered(shown[i].seqNo))
    else if n.Some? && !Accounted(c.inbox, n.value) && Accounted(d.inbox, n.value) then [Own(n.value)]
    else []
  }

  lemma ObservedOf(c: Client, e: Event, env: Env)
    ensures Observed(c, e, env) ==
      if e.Receive? && c.link.connected && e.frame.Persistent? && Shown(c, e.frame.activity) then
        [Delivered(e.frame.activity.seqNo)]
      else if SeqOf(e).Some? && !Accounted(c.inbox, SeqOf(e).value) && Accounted(InboxAfter(c, e), SeqOf(e).value) then
        [Own(SeqOf(e).value)]
      else []
  {
    hide Apply, Shown, InboxAfter;
    EmissionsOf(c, e, env);
    InboxOf(c, e, env);
  }

  predicate ResetsAt(c: Client, e: Event) {
    e.Receive? && c.link.connected && Resets(c, e.frame)
  }

  function Recorded(c: Client, h: History, e: Event, env: Env): History {
    var claims := Claims(Apply(c, e, env).1);
    if ResetsAt(c, e) then History(0, [], claims, h.resets + 1)
    else h.(accounts := h.accounts + Observed(c, e, env), claims := h.claims + claims)
  }

  ghost predicate Safe(i: Inbox, h: History) {
    && Tally(h.accounts, h.start, i.watermark, i.seen)
    && (forall w :: w in h.claims ==> w <= i.watermark)
    && (h.resets == 0 ==> i.ownSeqs <= i.seen)
  }

  // ---------------------------------------------------------------------
  // The watermark is the contiguous prefix
  // ---------------------------------------------------------------------

  lemma MarkingAccountsOne(i: Inbox, n: int, lo: int)
    requires lo <= i.watermark && !Accounted(i, n) && forall k :: k in i.seen ==> i.watermark + 1 < k
    ensures var j := Marked(i, n);
      && i.watermark <= j.watermark && Accounted(j, n)
      && Span(lo, j.watermark) + j.seen == Span(lo, i.watermark) + i.seen + {n}
      && (forall k :: k in j.seen ==> j.watermark + 1 < k)
      && (i.ownSeqs <= i.seen ==> j.ownSeqs <= j.seen)
  {
    var j := Marked(i, n);
    var all := i.seen + {n};
    AbsorbKeepsAccounted(i.watermark, all, lo);
    assert Above(all, i.watermark) == all;
    assert j.seen == Above(all, j.watermark);
  }

  /** Exactly one seq is accounted for at an event, or none. */
  lemma StepAccounts(c: Client, h: History, e: Event, env: Env)
    requires Safe(c.inbox, h) && !ResetsAt(c, e)
    ensures var i, j, seen := c.inbox, InboxAfter(c, e), Observed(c, e, env);
      || (seen == [] && j.watermark == i.watermark && j.seen == i.seen)
      || (|seen| == 1 && !Accounted(i, seen[0].seqNo)
          && i.watermark <= j.watermark && (forall k :: k in j.seen ==> j.watermark + 1 < k)
          && Span(h.start, j.watermark) + j.seen == Span(h.start, i.watermark) + i.seen + {seen[0].seqNo})
    ensures h.resets == 0 ==> InboxAfter(c, e).ownSeqs <= InboxAfter(c, e).seen
  {
    hide Observed, IsOwnTurn;
    ObservedOf(c, e, env);
    if SeqOf(e).Some? && !Accounted(c.inbox, SeqOf(e).value) {
      MarkingAccountsOne(c.inbox, SeqOf(e).value, h.start);
    }
  }

  lemma StepIsSafe(c: Client, h: History, e: Event, env: Env)
    requires Safe(c.inbox, h)
    ensures Safe(Apply(c, e, env).0.inbox, Recorded(c, h, e, env))
  {
    InboxOf(c, e, env);
    ClaimsOf(c, e, env);
    if ResetsAt(c, e) {
      EmptyTally(0);
    } else {
      StepAccounts(c, h, e, env);
      var j, seen := InboxAfter(c, e), Observed(c, e, env);
      if seen == [] {
        assert h.accounts + [] == h.accounts;
      } else {
        TallyGrows(h.accounts, h.start, c.inbox.watermark, c.inbox.seen, seen[0], j.watermark, j.seen);
        assert seen == [seen[0]];
      }
    }
  }

  /** Marking a seq accounts for it and for nothing else. */
  lemma MarkedAccounts(i: Inbox, n: int)
    requires forall k :: k in i.seen ==> i.watermark + 1 < k
    ensures var j := Marked(i, n);
      && i.watermark <= j.watermark && (forall k :: k in j.seen ==> j.watermark + 1 < k)
      && forall k :: Accounted(j, k) <==> Accounted(i, k) || k == n
  {
    if !Accounted(i, n) {
      MarkingAccountsOne(i, n, i.watermark);
      var j := Marked(i, n);
      forall k | k > i.watermark
        ensures Accounted(j, k) <==> Accounted(i, k) || k == n
      {
        assert k in Span(i.watermark, j.watermark) + j.seen <==> k in Span(i.watermark, i.watermark) + i.seen + {n};
      }
    } else if n in i.seen {
      AlreadySeen(i, n);
    }
  }

  lemma AlreadySeen(i: Inbox, n: int)
    requires n in i.seen && forall k :: k in i.seen ==> i.watermark + 1 < k
    ensures Marked(i, n).watermark == i.watermark && Marked(i, n).seen == i.seen
  {
    assert i.seen + {n} == i.seen;
    AbsorbIsUnique(i.watermark, i.seen, i.watermark);
  }

  /** An event that is no reset accounts for its own seq, if it brings one, and forgets none. */
  lemma EventAccounts(c: Client, e: Event, env: Env)
    requires !ResetsAt(c, e) && forall k :: k in c.inbox.seen ==> c.inbox.watermark + 1 < k
    ensures var i, j := c.inbox, Apply(c, e, env).0.inbox;
      && i.watermark <= j.watermark && (forall k :: k in j.seen ==> j.watermark + 1 < k)
      && forall k :: Accounted(j, k) <==> Accounted(i, k) || (c.link.connected && SeqOf(e) == Some(k))
  {
    InboxOf(c, e, env);
    if SeqOf(e).Some? {
      MarkedAccounts(c.inbox, SeqOf(e).value);
    }
  }

  /** Events paired with the clock and the transport they meet. */
  function Run(c: Client, h: History, es: seq<(Event, Env)>): (Client, History)
    decreases |es|
  {
    if es == [] then (c, h)
    else Run(Apply(c, es[0].0, es[0].1).0, Recorded(c, h, es[0].0, es[0].1), es[1..])
  }

  lemma {:induction false} RunStaysSafe(c: Client, h: History, es: seq<(Event, Env)>)
    requires Safe(c.inbox, h)
    ensures var (d, k) := Run(c, h, es); Safe(d.inbox, k)
    decreases |es|
  {
    if es != [] {
      StepIsSafe(c, h, es[0].0, es[0].1);
      RunStaysSafe(Apply(c, es[0].0, es[0].1).0, Recorded(c, h, es[0].0, es[0].1), es[1..]);
    }
  }

  /**
   * In every state that a session can reach, whatever it was resumed from and
   * whatever it was fed: nothing in `seen` is at or below
   * watermark + 1; the seqs accounted for since the last reset are (start,
   * watermark] and `seen`, each exactly once, emitted or own; and no hello or
   * sync ever claimed a seq that was not accounted for. Until the first reset
   * the remembered own seqs are among the seen ones.
   */
  lemma WatermarkIsContiguousPrefix(c0: Client, es: seq<(Event, Env)>)
    requires c0.inbox == Inbox(c0.inbox.watermark, {}, {}, [])
    ensures var start := c0.inbox.watermark;
      var (c, h) := Run(c0, History(start, [], {}, 0), es);
      && Tally(h.accounts, h.start, c.inbox.watermark, c.inbox.seen)
      && (forall w :: w in h.claims ==> Span(h.start, w) <= Seqs(h.accounts))
      && (h.resets == 0 ==> h.start == start && c.inbox.ownSeqs <= c.inbox.seen)
  {
    var h0 := History(c0.inbox.watermark, [], {}, 0);
    EmptyTally(c0.inbox.watermark);
    RunStaysSafe(c0, h0, es);
    StartStaysUntilReset(c0, h0, es);
  }

  lemma {:induction false} StartStaysUntilReset(c: Client, h: History, es: seq<(Event, Env)>)
    ensures var (d, k) := Run(c, h, es); h.resets <= k.resets && (k.resets == h.resets ==> k.start == h.start)
    decreases |es|
  {
    if es != [] {
      StartStaysUntilReset(Apply(c, es[0].0, es[0].1).0, Recorded(c, h, es[0].0, es[0].1), es[1..]);
    }
  }

  /**
   * Until the first reset, a new activity is emitted unless it is the turn of an
   * outbox entry or carries the id of an acknowledged one; a known activity is never emitted again.
   */
  lemma EmittedUnlessOwn(c: Client, h: History, a: Activity, env: Env)
    requires Safe(c.inbox, h) && h.resets == 0 && c.link.connected && a.seqNo > 0
    ensures Emissions(Apply(c, Receive(Persistent(a)), env).1) ==
      if !Accounted(c.inbox, a.seqNo) && !IsOwnTurn(c, a) && !(a.id.Some? && a.id.value in c.inbox.ownIds) then [a] else []
  {
    EmissionsOf(c, Receive(Persistent(a)), env);
  }
}
