/** What the replay of a new connection does to sends whose ack was lost, and what a stale gap timer does. */
module ConversationReplay {
  import opened Prefix
  import opened Outbox
  import opened ConversationProtocol
  import opened ConversationReceive
  import opened ConversationSend

  // ---------------------------------------------------------------------
  // Logs and the own turns in them
  // ---------------------------------------------------------------------

  /** The ack of a turn that is in the log, with the position it has there. */
  predicate Confirms(f: Frame, log: seq<Activity>) {
    f.Ack? && f.seqNo.Some? && 1 <= f.seqNo.value <= |log| && log[f.seqNo.value - 1].clientId == Some(f.clientId)
  }

  /** Activities are numbered from 1 without gaps, and a clientId is stored once. */
  ghost predicate IsLog(log: seq<Activity>) {
    && (forall i :: 0 <= i < |log| ==> log[i].seqNo == i + 1)
    && (forall i, j :: 0 <= i < j < |log| && log[i].clientId.Some? ==> log[i].clientId != log[j].clientId)
  }

  /** The part of the log that a session misses: above its watermark `lo` and not among the seqs it has `seen`. */
  datatype Missing = Missing(log: seq<Activity>, lo: int, seen: set<int>)

  /** Position `i` holds a turn of a user that the session misses. */
  predicate TurnAt(m: Missing, i: int) {
    && 0 <= i < |m.log| && m.lo <= i && i + 1 !in m.seen
    && m.log[i].fromUser && m.log[i].clientId.Some?
  }

  /** A missing turn at `from` or later that is in `ids` has not been accounted for. */
  ghost predicate NoStaleTurn(i: Inbox, ids: set<string>, m: Missing, from: int) {
    forall k :: TurnAt(m, k) && from <= k && m.log[k].clientId.value in ids ==> !Accounted(i, k + 1)
  }

  /** No missing turn before `hi` is in `ids`. */
  ghost predicate NoneIn(ids: set<string>, m: Missing, hi: int) {
    forall k :: TurnAt(m, k) && k < hi ==> m.log[k].clientId.value !in ids
  }

  function TurnId(a: Activity): set<string> {
    if a.clientId.Some? then {a.clientId.value} else {}
  }

  // ---------------------------------------------------------------------
  // Runs of events with a replay in them
  // ---------------------------------------------------------------------

  function RunEvents(c: Client, es: seq<(Event, Env)>): (Client, seq<Output>)
    decreases |es|
  {
    if es == [] then (c, [])
    else
      var (d, out) := Apply(c, es[0].0, es[0].1);
      var (e, more) := RunEvents(d, es[1..]);
      (e, out + more)
  }

  /**
   * What may happen while the log is replayed and has come to `from`: its next activity or a
   * repeated one, acks of logged turns, sends under new ids, the end of the attach, errors that put
   * a send off, that reject one whose turn is not missing or that concern nothing here, heartbeats, a
   * truncated replay that goes on, and every timer but the one that ends the wait.
   */
  ghost predicate Meanwhile(c: Client, e: Event, m: Missing, from: int) {
    match e
    case Receive(f) => FrameMeanwhile(c, f, m, from)
    case Send(id, _) => NoneIn({id}, m, |m.log|)
    case Attached(raw) => c.link.attaching && raw.Some? ==> Distinct(raw.value.outbox)
    case Close(_) => false
    case Disconnect => false
    case ReplayTimer => false
    case _ => true
  }

  ghost predicate FrameMeanwhile(c: Client, f: Frame, m: Missing, from: int) {
    match f
    case Persistent(a) => 1 <= a.seqNo <= from + 1 && a.seqNo <= |m.log| && a == m.log[a.seqNo - 1]
    case Ack(_, _, _) => Confirms(f, m.log)
    case Error(fault) =>
      if NamesSend(c, fault) then RetryableSend(fault) || NoneIn({fault.clientId.value}, m, |m.log|)
      else fault.code != "replay_unavailable" && !Resets(c, f)
    case ReplayTruncated(head, _) => head == |m.log|
    case Welcome(_, _, _) => false
    case _ => true
  }

  function Advanced(e: Event, from: int): int {
    if e.Receive? && e.frame.Persistent? && e.frame.activity.seqNo == from + 1 then from + 1 else from
  }

  /** The events contain the replay of the log from position `from` to its end, in order. */
  ghost predicate IsReplay(c: Client, es: seq<(Event, Env)>, m: Missing, from: int)
    decreases |es|
  {
    if es == [] then from == |m.log|
    else
      && Meanwhile(c, es[0].0, m, from)
      && IsReplay(Apply(c, es[0].0, es[0].1).0, es[1..], m, Advanced(es[0].0, from))
  }

  /** The seqs of the turns that the attach merges into the outbox after they have been accounted for. */
  function PassedAt(c: Client, e: Event, log: seq<Activity>): set<int> {
    if e.Attached? && c.link.attaching && e.raw.Some? then
      set k | 0 <= k < |log| && log[k].clientId.Some? && log[k].clientId.value in Ids(e.raw.value.outbox) && Accounted(c.inbox, k + 1) :: k + 1
    else {}
  }

  function Passed(c: Client, es: seq<(Event, Env)>, log: seq<Activity>): set<int>
    decreases |es|
  {
    if es == [] then {}
    else PassedAt(c, es[0].0, log) + Passed(Apply(c, es[0].0, es[0].1).0, es[1..], log)
  }

  function Except(m: Missing, passed: set<int>): Missing {
    m.(seen := m.seen + passed)
  }

  /** A session that awaits the replay and has got up to `from` of it. */
  ghost predicate InReplay(c: Client, m: Missing, from: int) {
    && IsLog(m.log) && Distinct(c.store.entries)
    && 0 <= from <= |m.log| && from <= c.inbox.watermark
    && (forall k :: k in c.inbox.seen ==> c.inbox.watermark + 1 < k)
    && Awaiting(c.link, m, from)
    && NoStaleTurn(c.inbox, Ids(c.store.entries), m, from)
    && NoneIn(Ids(c.store.entries), m, from)
  }

  predicate Awaiting(l: Link, m: Missing, from: int) {
    l.connected && l.phase == Open && (from < |m.log| ==> l.replaying && l.replayTarget == |m.log|)
  }

  /** The wait for the replay is over, or nothing was written; and no missing turn was. */
  ghost predicate WroteNoTurn(out: seq<Output>, m: Missing, done: bool) {
    (done || WrittenIds(out) == {}) && NoneIn(WrittenIds(out), m, |m.log|)
  }

  // ---------------------------------------------------------------------
  // Event by event
  // ---------------------------------------------------------------------

  /** Receiving the next activity of the replay settles its entry, if it has one. */
  lemma ReplayedTurnSettles(c: Client, m: Missing, from: nat)
    requires InReplay(c, m, from) && from < |m.log|
    ensures var (d, out) := Received(c, m.log[from]);
      && d.link == c.link && Distinct(d.store.entries) && from + 1 <= d.inbox.watermark
      && (forall k :: k in d.inbox.seen ==> d.inbox.watermark + 1 < k)
      && NoStaleTurn(d.inbox, Ids(d.store.entries), m, from + 1) && NoneIn(Ids(d.store.entries), m, from + 1)
      && Ids(d.store.entries) <= Ids(c.store.entries) <= Ids(d.store.entries) + TurnId(m.log[from])
      && (TurnAt(m, from) && IsOwnTurn(c, m.log[from]) ==> out == [Sent(m.log[from].clientId.value, Some(from + 1))])
      && (forall o :: o in out ==> !o.Written?)
  {
    hide Removed, StateSaved;
    var a := m.log[from];
    if !Accounted(c.inbox, a.seqNo) {
      SeenKeepsStore(c, a.seqNo);
      MarkingMoves(c.inbox, from, a.seqNo);
      if IsOwnTurn(c, a) {
        RemovedIds(Seen(c, a.seqNo).store, a.clientId.value);
      }
    }
  }

  lemma SeenKeepsStore(c: Client, n: int)
    ensures var d := Seen(c, n);
      && d.inbox == Marked(c.inbox, n) && d.link == c.link && d.window == c.window
      && d.store.entries == c.store.entries && d.store.key == c.store.key
  {
  }

  /** Marking a seq changes whether that one is accounted for, and no other above `from`. */
  lemma MarkingMoves(i: Inbox, from: int, n: int)
    requires from <= i.watermark && forall k :: k in i.seen ==> i.watermark + 1 < k
    ensures var j := Marked(i, n);
      && i.watermark <= j.watermark && (forall k :: k in j.seen ==> j.watermark + 1 < k)
      && (n == from + 1 ==> from + 1 <= j.watermark)
      && (forall k :: k > from && k != n ==> (Accounted(j, k) <==> Accounted(i, k)))
  {
    if !Accounted(i, n) {
      MarkingAccountsOne(i, n, from);
      var j := Marked(i, n);
      forall k | k > from && k != n
        ensures Accounted(j, k) <==> Accounted(i, k)
      {
        assert k in Span(from, j.watermark) + j.seen <==> k in Span(from, i.watermark) + i.seen;
      }
    } else if n in i.seen {
      assert i.seen + {n} == i.seen;
      AbsorbIsUnique(i.watermark, i.seen, i.watermark);
    }
  }

  lemma ReplayedActivity(c: Client, m: Missing, from: nat, env: Env)
    requires InReplay(c, m, from) && from < |m.log|
    ensures var (d, out) := ApplyPersistent(c, m.log[from], env);
      && InReplay(d, m, from + 1)
      && Ids(d.store.entries) <= Ids(c.store.entries) <= Ids(d.store.entries) + TurnId(m.log[from])
      && WroteNoTurn(out, m, from + 1 == |m.log|)
      && (TurnAt(m, from) && IsOwnTurn(c, m.log[from]) ==> Sent(m.log[from].clientId.value, Some(from + 1)) in out)
  {
    hide Received, Flushed, Ids, NoStaleTurn, WrittenIds;
    ReplayedTurnSettles(c, m, from);
    var (d, out) := Received(c, m.log[from]);
    QuietWrites(out);
    if from + 1 == |m.log| {
      FlushedWritesEntries(Caught(d), env);
      AppendedWrites(out, Flushed(Caught(d), env).1);
    } else {
      assert out + [] == out;
    }
  }

  /** An activity that comes again changes nothing, and ends no wait that is still on. */
  lemma RepeatedActivity(c: Client, m: Missing, from: nat, a: Activity, env: Env)
    requires InReplay(c, m, from) && 1 <= a.seqNo <= from
    ensures var (d, out) := ApplyPersistent(c, a, env);
      InReplay(d, m, from) && Ids(d.store.entries) == Ids(c.store.entries) && WroteNoTurn(out, m, from == |m.log|)
  {
    hide Flushed, Ids, WrittenIds;
    QuietWrites([]);
    FlushedWritesEntries(Caught(c), env);
    var out := ApplyPersistent(c, a, env).1;
    assert Received(c, a) == (c, []);
    assert [] + Flushed(Caught(c), env).1 == Flushed(Caught(c), env).1;
    assert from < |m.log| ==> out == [];
    NothingIn(m);
  }

  lemma ReplayedAck(c: Client, m: Missing, from: nat, f: Frame, env: Env)
    requires InReplay(c, m, from) && Confirms(f, m.log)
    ensures var (d, out) := ApplyAck(c, f, env);
      && InReplay(d, m, from)
      && WroteNoTurn(out, m, from == |m.log|)
      && (f.clientId in Ids(c.store.entries) ==> Sent(f.clientId, f.seqNo) in out)
      && Ids(d.store.entries) == Ids(c.store.entries) - {f.clientId}
  {
    hide Removed, Flushed, StateSaved, WrittenIds;
    var n := f.seqNo.value;
    SeenKeepsStore(c, n);
    MarkingMoves(c.inbox, from, n);
    var s := Seen(c, n);
    RemovedIds(s.store, f.clientId);
    var (d, out) := SettledSend(s, f.clientId, f.id, f.seqNo);
    FlushedWritesEntries(d, env);
    QuietWrites([]);
    NothingIn(m);
    AppendedWrites(out, Flushed(d, env).1);
  }

  lemma NothingIn(m: Missing)
    ensures NoneIn({}, m, |m.log|)
  {
  }

  /** An event that leaves the positions alone, adds the sends `added` and writes at most once the wait is over. */
  lemma CalmStep(c: Client, d: Client, out: seq<Output>, added: set<string>, m: Missing, from: nat)
    requires InReplay(c, m, from)
    requires d.inbox == c.inbox && Awaiting(d.link, m, from) && Distinct(d.store.entries)
    requires Ids(d.store.entries) == Ids(c.store.entries) + added && NoStaleTurn(c.inbox, added, m, 0)
    requires WrittenIds(out) <= Ids(d.store.entries) && (from < |m.log| ==> WrittenIds(out) == {})
    ensures InReplay(d, m, from) && WroteNoTurn(out, m, from == |m.log|)
  {
    hide Ids;
  }

  lemma FlushIsCalm(c: Client, d: Client, env: Env, m: Missing, from: nat, added: set<string>)
    requires InReplay(c, m, from)
    requires d.inbox == c.inbox && d.link.(attaching := c.link.attaching) == c.link && Distinct(d.store.entries)
    requires Ids(d.store.entries) == Ids(c.store.entries) + added && NoStaleTurn(c.inbox, added, m, 0)
    ensures InReplay(Flushed(d, env).0, m, from) && WroteNoTurn(Flushed(d, env).1, m, from == |m.log|)
    ensures Ids(Flushed(d, env).0.store.entries) == Ids(c.store.entries) + added
  {
    hide Flushed, Ids, NoStaleTurn, NoneIn, WrittenIds;
    FlushedWritesEntries(d, env);
    QuietWrites([]);
    CalmStep(c, Flushed(d, env).0, Flushed(d, env).1, added, m, from);
  }

  lemma SendMeanwhile(c: Client, id: string, body: string, env: Env, m: Missing, from: nat)
    requires InReplay(c, m, from) && NoneIn({id}, m, |m.log|)
    ensures var (d, out) := ApplySend(c, id, body, env);
      InReplay(d, m, from) && WroteNoTurn(out, m, from == |m.log|) && Ids(c.store.entries) <= Ids(d.store.entries)
  {
    hide Flushed, Added;
    if Accepts(c, id) {
      AddedIds(c.store, Entry(id, body, 0));
      AddedSame(c.store, Entry(id, body, 0));
      FlushIsCalm(c, Enqueued(c, id, body), env, m, from, {id});
    } else {
      QuietWrites([Refused(id)]);
    }
  }

  lemma AddedSame(s: Store, e: Entry)
    ensures Added(s, e).entries == s.entries + [e]
  {
  }

  lemma AttachedMeanwhile(c: Client, raw: Option<Snapshot>, env: Env, m: Missing, from: nat)
    requires InReplay(c, m, from) && Meanwhile(c, Attached(raw), m, from) && PassedAt(c, Attached(raw), m.log) <= m.seen
    ensures var (d, out) := ApplyAttached(c, raw, env);
      InReplay(d, m, from) && WroteNoTurn(out, m, from == |m.log|) && Ids(c.store.entries) <= Ids(d.store.entries)
  {
    hide Flushed, Unknown, StateSet, InReplay, WroteNoTurn;
    var merges := c.link.attaching && raw.Some?;
    assert Distinct(c.store.entries) by {
      ReplayIsDistinct(c, m, from);
    }
    if merges {
      LoadedIds(c.store, raw.value);
    }
    assert Ids([]) == {};
    var a := Attachment(c, raw);
    var d := StateSaved(a);
    SavedKeepsEntries(a);
    if merges {
      MergedIsMissing(c, raw, m);
    }
    FlushIsCalm(c, d, env, m, from, if merges then Ids(raw.value.outbox) else {});
  }

  lemma MergedIsMissing(c: Client, raw: Option<Snapshot>, m: Missing)
    requires c.link.attaching && raw.Some? && PassedAt(c, Attached(raw), m.log) <= m.seen
    ensures NoStaleTurn(c.inbox, Ids(raw.value.outbox), m, 0)
  {
    forall k | TurnAt(m, k) && m.log[k].clientId.value in Ids(raw.value.outbox)
      ensures !Accounted(c.inbox, k + 1)
    {
      assert Accounted(c.inbox, k + 1) ==> k + 1 in PassedAt(c, Attached(raw), m.log);
    }
  }

  lemma SavedKeepsEntries(c: Client)
    ensures StateSaved(c).store.entries == c.store.entries && StateSaved(c).link == c.link && StateSaved(c).inbox == c.inbox
  {
  }

  lemma ReplayIsDistinct(c: Client, m: Missing, from: int)
    requires InReplay(c, m, from)
    ensures Distinct(c.store.entries)
  {
  }

  lemma QuietMeanwhile(c: Client, d: Client, out: seq<Output>, m: Missing, from: nat)
    requires InReplay(c, m, from)
    requires d.inbox == c.inbox && d.store == c.store && Awaiting(d.link, m, from) && forall o :: o in out ==> !o.Written?
    ensures InReplay(d, m, from) && WroteNoTurn(out, m, from == |m.log|)
  {
    hide Ids;
    QuietWrites(out);
  }

  /** A send that is rejected for good leaves, and what is due may follow once the wait is over. */
  lemma RejectedMeanwhile(c: Client, fault: Fault, env: Env, m: Missing, from: nat)
    requires InReplay(c, m, from) && NamesSend(c, fault) && !RetryableSend(fault)
    ensures var (d, out) := SendRejected(c, fault, env);
      && InReplay(d, m, from) && WroteNoTurn(out, m, from == |m.log|)
      && Ids(d.store.entries) == Ids(c.store.entries) - {fault.clientId.value}
  {
    hide Flushed, Removed, Ids, WrittenIds;
    var id := fault.clientId.value;
    var d := c.(window := Forgotten(c.window, id), store := Removed(c.store, id));
    RemovedIds(c.store, id);
    FlushedWritesEntries(d, env);
    QuietWrites([]);
    NothingIn(m);
    AppendedWrites([SendFailed(id)], Flushed(d, env).1);
  }

  lemma ErrorStep(c: Client, fault: Fault, env: Env, m: Missing, from: nat)
    requires InReplay(c, m, from) && FrameMeanwhile(c, Error(fault), m, from)
    ensures var (d, out) := ApplyError(c, fault, env);
      InReplay(d, m, from) && WroteNoTurn(out, m, from == |m.log|) && Left(c, d, out, m, from)
  {
    hide Ids, InReplay, WroteNoTurn, Flushed, Removed;
    var (d, out) := ApplyError(c, fault, env);
    ReplayBounds(c, m, from);
    if NamesSend(c, fault) && !RetryableSend(fault) {
      RejectedMeanwhile(c, fault, env, m, from);
    } else {
      QuietMeanwhile(c, d, out, m, from);
    }
  }

  lemma FrameStep(c: Client, f: Frame, env: Env, m: Missing, from: nat)
    requires InReplay(c, m, from) && FrameMeanwhile(c, f, m, from)
    ensures var (d, out) := ApplyFrame(c, f, env);
      && InReplay(d, m, Advanced(Receive(f), from)) && WroteNoTurn(out, m, Advanced(Receive(f), from) == |m.log|)
      && Left(c, d, out, m, from)
  {
    hide ApplyPersistent, ApplyAck, ApplyError, Ids, InReplay, WroteNoTurn, NoStaleTurn, NoneIn;
    var (d, out) := ApplyFrame(c, f, env);
    ReplayBounds(c, m, from);
    match f
    case Persistent(a) =>
      if a.seqNo == from + 1 {
        ReplayedActivity(c, m, from, env);
        ReplayedIsLeft(c, d, out, m, from);
      } else {
        RepeatedActivity(c, m, from, a, env);
      }
    case Ack(_, _, _) =>
      ReplayedAck(c, m, from, f, env);
      AckedIsLeft(c, d, out, m, from, f);
    case Error(fault) => ErrorStep(c, fault, env, m, from);
    case _ => QuietMeanwhile(c, d, out, m, from);
  }

  lemma ReplayBounds(c: Client, m: Missing, from: int)
    requires InReplay(c, m, from)
    ensures IsLog(m.log) && 0 <= from <= |m.log| && Awaiting(c.link, m, from) && c.link.connected
  {
  }

  /** Every missing turn that was in the outbox is still there, or its result was told. */
  ghost predicate Left(c: Client, d: Client, out: seq<Output>, m: Missing, from: int) {
    forall k :: TurnAt(m, k) && from <= k && m.log[k].clientId.value in Ids(c.store.entries) ==>
      || Sent(m.log[k].clientId.value, Some(k + 1)) in out
      || m.log[k].clientId.value in Ids(d.store.entries)
  }

  lemma ReplayedIsLeft(c: Client, d: Client, out: seq<Output>, m: Missing, from: nat)
    requires IsLog(m.log) && from < |m.log| && Ids(c.store.entries) <= Ids(d.store.entries) + TurnId(m.log[from])
    requires TurnAt(m, from) && IsOwnTurn(c, m.log[from]) ==> Sent(m.log[from].clientId.value, Some(from + 1)) in out
    ensures Left(c, d, out, m, from)
  {
    hide Ids;
  }

  lemma AckedIsLeft(c: Client, d: Client, out: seq<Output>, m: Missing, from: nat, f: Frame)
    requires IsLog(m.log) && Confirms(f, m.log) && Ids(d.store.entries) == Ids(c.store.entries) - {f.clientId}
    requires f.clientId in Ids(c.store.entries) ==> Sent(f.clientId, f.seqNo) in out
    ensures Left(c, d, out, m, from)
  {
    hide Ids;
  }

  lemma EventStep(c: Client, e: Event, env: Env, m: Missing, from: nat)
    requires InReplay(c, m, from) && Meanwhile(c, e, m, from) && PassedAt(c, e, m.log) <= m.seen
    ensures var (d, out) := Apply(c, e, env);
      && InReplay(d, m, Advanced(e, from)) && WroteNoTurn(out, m, Advanced(e, from) == |m.log|)
      && Left(c, d, out, m, from)
  {
    hide ApplyFrame, ApplySend, ApplyAttached, Flushed, Ids, InReplay, WroteNoTurn, NoStaleTurn, NoneIn, PassedAt;
    var (d, out) := Apply(c, e, env);
    ReplayBounds(c, m, from);
    match e
    case Receive(f) => FrameStep(c, f, env, m, from);
    case Send(id, body) => SendMeanwhile(c, id, body, env, m, from);
    case Attached(raw) => AttachedMeanwhile(c, raw, env, m, from);
    case RetryTimer => RetryMeanwhile(c, env, m, from);
    case _ => QuietMeanwhile(c, d, out, m, from);
  }

  lemma RetryMeanwhile(c: Client, env: Env, m: Missing, from: nat)
    requires InReplay(c, m, from)
    ensures var (d, out) := Flushed(c, env);
      InReplay(d, m, from) && WroteNoTurn(out, m, from == |m.log|) && Ids(d.store.entries) == Ids(c.store.entries)
  {
    hide Flushed, Ids;
    FlushIsCalm(c, c, env, m, from, {});
  }

  // ---------------------------------------------------------------------
  // The whole replay
  // ---------------------------------------------------------------------

  /** The missing turns from `from` on that are in `ids` are settled in `out`, with their positions. */
  ghost predicate Settles(ids: set<string>, m: Missing, from: int, out: seq<Output>) {
    forall k :: TurnAt(m, k) && from <= k && m.log[k].clientId.value in ids ==>
      Sent(m.log[k].clientId.value, Some(k + 1)) in out
  }

  lemma SettlesMore(c: Client, d: Client, out: seq<Output>, more: seq<Output>, m: Missing, from: int, from': int)
    requires Left(c, d, out, m, from) && from <= from' && NoneIn(Ids(d.store.entries), m, from')
    requires Settles(Ids(d.store.entries), m, from', more)
    ensures Settles(Ids(c.store.entries), m, from, out + more)
  {
    hide Ids;
  }

  lemma WroteNoTurnTwice(out: seq<Output>, more: seq<Output>, m: Missing, done: bool)
    requires WroteNoTurn(out, m, done) && WroteNoTurn(more, m, true)
    ensures WroteNoTurn(out + more, m, true)
  {
    assert WrittenIds(out + more) == WrittenIds(out) + WrittenIds(more);
  }

  /** A session that misses less. */
  lemma MissesLess(c: Client, m: Missing, passed: set<int>, from: int)
    requires InReplay(c, m, from)
    ensures InReplay(c, Except(m, passed), from)
  {
    hide Ids;
    assert forall k :: TurnAt(Except(m, passed), k) ==> TurnAt(m, k);
  }

  lemma {:induction false} ReplayOfLess(c: Client, es: seq<(Event, Env)>, m: Missing, passed: set<int>, from: int)
    requires IsReplay(c, es, m, from)
    ensures IsReplay(c, es, Except(m, passed), from)
    decreases |es|
  {
    hide Apply, NamesSend, Resets;
    if es != [] {
      assert forall k :: TurnAt(Except(m, passed), k) ==> TurnAt(m, k);
      ReplayOfLess(Apply(c, es[0].0, es[0].1).0, es[1..], m, passed, Advanced(es[0].0, from));
    }
  }

  /** Nothing is passed by that was in the outbox when the attach ended. */
  lemma PassedWasElsewhere(c: Client, e: Event, m: Missing, from: nat, out: seq<Output>)
    requires InReplay(c, m, from) && Settles(Ids(c.store.entries), Except(m, PassedAt(c, e, m.log)), from, out)
    ensures Settles(Ids(c.store.entries), m, from, out)
  {
    hide Ids;
    var rest := Except(m, PassedAt(c, e, m.log));
    forall k | TurnAt(m, k) && from <= k && m.log[k].clientId.value in Ids(c.store.entries)
      ensures Sent(m.log[k].clientId.value, Some(k + 1)) in out
    {
      assert !Accounted(c.inbox, k + 1);
      assert TurnAt(rest, k);
    }
  }

  /**
   * The turns missed at first that are in the outbox are settled, whatever the attach merges; those
   * that it has not passed by are not written and are not in the outbox in the end.
   */
  lemma {:induction false} ReplayRun(c: Client, es: seq<(Event, Env)>, m: Missing, from: nat)
    requires InReplay(c, m, from) && IsReplay(c, es, m, from)
    ensures var (d, out) := RunEvents(c, es);
      var rest := Except(m, Passed(c, es, m.log));
      && InReplay(d, rest, |m.log|)
      && WroteNoTurn(out, rest, true)
      && Settles(Ids(c.store.entries), m, from, out)
    decreases |es|
  {
    hide Apply, Ids, WroteNoTurn, Meanwhile, Left, InReplay, Settles, PassedAt;
    if es == [] {
      assert Except(m, {}) == m;
      NothingWritten(c, m);
    } else {
      var (e, env) := es[0];
      var (d, out) := Apply(c, e, env);
      var more := RunEvents(d, es[1..]).1;
      var now := PassedAt(c, e, m.log);
      var m1 := Except(m, now);
      var later := Passed(d, es[1..], m.log);
      ReplayOfLess(c, es, m, now, from);
      MissesLess(c, m, now, from);
      EventStep(c, e, env, m1, from);
      ReplayRun(d, es[1..], m1, Advanced(e, from));
      assert Except(m1, later) == Except(m, now + later);
      WroteNoTurnLess(out, m1, later, Advanced(e, from) == |m.log|);
      WroteNoTurnTwice(out, more, Except(m1, later), Advanced(e, from) == |m.log|);
      NothingBefore(d, m1, Advanced(e, from));
      SettlesMore(c, d, out, more, m1, from, Advanced(e, from));
      PassedWasElsewhere(c, e, m, from, out + more);
    }
  }

  lemma WroteNoTurnLess(out: seq<Output>, m: Missing, passed: set<int>, done: bool)
    requires WroteNoTurn(out, m, done)
    ensures WroteNoTurn(out, Except(m, passed), done)
  {
    hide WrittenIds;
    assert forall k :: TurnAt(Except(m, passed), k) ==> TurnAt(m, k);
  }

  lemma NothingBefore(c: Client, m: Missing, from: int)
    requires InReplay(c, m, from)
    ensures NoneIn(Ids(c.store.entries), m, from)
  {
  }

  lemma NothingWritten(c: Client, m: Missing)
    requires InReplay(c, m, |m.log|)
    ensures WroteNoTurn([], m, true) && Settles(Ids(c.store.entries), m, |m.log|, [])
  {
  }

  /** What a session misses of a log when it is welcomed. */
  function MissingFrom(c: Client, log: seq<Activity>): Missing {
    Missing(log, c.inbox.watermark, c.inbox.seen)
  }

  lemma WelcomedIsInReplay(c: Client, log: seq<Activity>, f: Frame, from: nat)
    requires IsLog(log) && Distinct(c.store.entries) && c.link.connected
    requires 0 <= c.inbox.watermark < |log| && forall k :: k in c.inbox.seen ==> c.inbox.watermark + 1 < k
    requires f.Welcome? && f.head == Some(|log|) && !Resets(c, f) && from <= c.inbox.watermark
    ensures InReplay(ApplyWelcome(c, f), MissingFrom(c, log), from)
    ensures ApplyWelcome(c, f).store.entries == c.store.entries && ApplyWelcome(c, f).inbox == c.inbox
  {
    hide Ids;
    assert ApplyWelcome(c, f).store.entries == c.store.entries;
  }

  /**
   * A lost ack is recovered from the replay. When a welcome reports a head above
   * the watermark and the log is then replayed in order, with acks, sends, the
   * end of the attach, heartbeats, timers, and errors that put sends off or reject
   * others anywhere in between, every outbox entry whose turn the session misses is settled with
   * its position in the log; and no missed turn is written again or left in the
   * outbox, except those that the attach merges when they have been accounted for.
   */
  lemma LostAcksAreSettled(c: Client, log: seq<Activity>, f: Frame, from: nat, es: seq<(Event, Env)>)
    requires IsLog(log) && Distinct(c.store.entries) && c.link.connected
    requires 0 <= c.inbox.watermark < |log| && forall k :: k in c.inbox.seen ==> c.inbox.watermark + 1 < k
    requires f.Welcome? && f.head == Some(|log|) && !Resets(c, f)
    requires from <= c.inbox.watermark && IsReplay(ApplyWelcome(c, f), es, MissingFrom(c, log), from)
    ensures var (d, out) := RunEvents(ApplyWelcome(c, f), es);
      var m := MissingFrom(c, log);
      var rest := Except(m, Passed(ApplyWelcome(c, f), es, log));
      && Settles(Ids(c.store.entries), m, 0, out)
      && NoneIn(WrittenIds(out), rest, |log|)
      && NoneIn(Ids(d.store.entries), rest, |log|)
      && |log| <= d.inbox.watermark
  {
    hide RunEvents, ApplyWelcome, IsReplay, Passed;
    WelcomedIsInReplay(c, log, f, from);
    ReplayRun(ApplyWelcome(c, f), es, MissingFrom(c, log), from);
  }

  // ---------------------------------------------------------------------
  // Where the replay ends
  // ---------------------------------------------------------------------

  /** The session has accounted for nothing beyond the head. */
  ghost predicate Below(i: Inbox, head: int) {
    forall k :: Accounted(i, k) ==> k <= head
  }

  function SeqNos(activities: seq<Activity>): seq<int> {
    seq(|activities|, i requires 0 <= i < |activities| => activities[i].seqNo)
  }

  /** The accounts of what was handed to the application, in order. */
  function Delivered(accounts: seq<Account>): seq<int> {
    if accounts == [] then []
    else if accounts[0].Delivered? then [accounts[0].seqNo] + Delivered(accounts[1..])
    else Delivered(accounts[1..])
  }

  lemma {:induction false} DeliveredAppend(a: seq<Account>, b: seq<Account>)
    ensures Delivered(a + b) == Delivered(a) + Delivered(b)
  {
    if a == [] {
      assert a + b == b;
    } else {
      DeliveredAppend(a[1..], b);
      assert (a + b)[1..] == a[1..] + b && (a + b)[0] == a[0];
    }
  }

  lemma {:induction false} EmissionsAppend(a: seq<Output>, b: seq<Output>)
    ensures Emissions(a + b) == Emissions(a) + Emissions(b)
  {
    if a == [] {
      assert a + b == b;
    } else {
      EmissionsAppend(a[1..], b);
      assert (a + b)[1..] == a[1..] + b;
    }
  }

  lemma StepDelivers(c: Client, e: Event, env: Env)
    ensures Delivered(Observed(c, e, env)) == SeqNos(Emissions(Apply(c, e, env).1))
  {
    hide Apply, Observed, Shown;
    ObservedOf(c, e, env);
    EmissionsOf(c, e, env);
  }

  lemma MeanwhileBrings(c: Client, e: Event, m: Missing, from: int)
    requires Meanwhile(c, e, m, from)
    ensures !ResetsAt(c, e) && (SeqOf(e).Some? ==> SeqOf(e).value <= |m.log|)
  {
  }

  /** Until the replay is over nothing resets, and what is accounted for is delivered once or own. */
  lemma {:induction false} ReplayHistory(c: Client, h: History, es: seq<(Event, Env)>, m: Missing, from: int)
    requires Safe(c.inbox, h) && Below(c.inbox, |m.log|) && IsReplay(c, es, m, from)
    ensures var (d, k) := Run(c, h, es);
      && d == RunEvents(c, es).0 && Safe(d.inbox, k) && Below(d.inbox, |m.log|)
      && k.start == h.start && h.accounts <= k.accounts
      && Delivered(k.accounts[|h.accounts|..]) == SeqNos(Emissions(RunEvents(c, es).1))
    decreases |es|
  {
    hide Apply, Safe, Observed, Meanwhile, Below, Delivered, Emissions, SeqNos;
    if es == [] {
      NothingDelivered();
      assert h.accounts[|h.accounts|..] == [];
    } else {
      var (e, env) := es[0];
      var (d, out) := Apply(c, e, env);
      var (g, more) := RunEvents(d, es[1..]);
      var k := Recorded(c, h, e, env);
      StepStaysBelow(c, h, e, env, m, from);
      ReplayHistory(d, k, es[1..], m, Advanced(e, from));
      var last := Run(d, k, es[1..]).1;
      StepDelivers(c, e, env);
      DeliveriesAppend(h.accounts, Observed(c, e, env), last.accounts, out, more);
    }
  }

  /** The accounts and the emissions of two stretches of a run, one after the other. */
  lemma DeliveriesAppend(before: seq<Account>, first: seq<Account>, all: seq<Account>, out: seq<Output>, more: seq<Output>)
    requires before + first <= all
    requires Delivered(first) == SeqNos(Emissions(out)) && Delivered(all[|before + first|..]) == SeqNos(Emissions(more))
    ensures before <= all && Delivered(all[|before|..]) == SeqNos(Emissions(out + more))
  {
    hide Delivered, Emissions;
    var later := all[|before + first|..];
    assert all == before + first + later;
    assert all[|before|..] == first + later;
    DeliveredAppend(first, later);
    EmissionsAppend(out, more);
    assert SeqNos(Emissions(out) + Emissions(more)) == SeqNos(Emissions(out)) + SeqNos(Emissions(more));
  }

  lemma NothingDelivered()
    ensures Delivered([]) == [] == SeqNos(Emissions([]))
  {
  }

  lemma StepStaysBelow(c: Client, h: History, e: Event, env: Env, m: Missing, from: int)
    requires Safe(c.inbox, h) && Below(c.inbox, |m.log|) && Meanwhile(c, e, m, from)
    ensures Safe(Apply(c, e, env).0.inbox, Recorded(c, h, e, env)) && Below(Apply(c, e, env).0.inbox, |m.log|)
    ensures Recorded(c, h, e, env).accounts == h.accounts + Observed(c, e, env) && Recorded(c, h, e, env).start == h.start
  {
    hide Apply, Observed, Meanwhile;
    MeanwhileBrings(c, e, m, from);
    StepIsSafe(c, h, e, env);
    EventAccounts(c, e, env);
  }

  /** The accounts added between two tallies are exactly the seqs that were missing. */
  lemma AddedAccounts(a: seq<Account>, b: seq<Account>, start: int, w: int, seen: set<int>, head: int)
    requires a <= b && Tally(a, start, w, seen) && Tally(b, start, head, {}) && w <= head
    ensures var added := b[|a|..]; Seqs(added) == Span(w, head) - seen && EachOnce(added)
  {
    var added := b[|a|..];
    assert b == a + added;
    assert forall i :: 0 <= i < |a| ==> a[i].seqNo in Seqs(a) && b[i] == a[i];
    forall n | n in Span(w, head) - seen
      ensures n in Seqs(added)
    {
      assert n in Span(start, head) && n !in Seqs(a);
      var i :| 0 <= i < |b| && b[i].seqNo == n;
      assert added[i - |a|].seqNo == n;
    }
    forall n | n in Seqs(added)
      ensures n in Span(w, head) - seen
    {
      var i :| 0 <= i < |added| && added[i].seqNo == n;
      assert b[|a| + i].seqNo == n && n in Seqs(b);
      assert forall j :: 0 <= j < |a| ==> b[j].seqNo != b[|a| + i].seqNo;
      assert n !in Seqs(a);
    }
  }

  /**
   * A replay to the head leaves the watermark at the head and nothing beyond it. It adds exactly
   * the seqs that were missing, each once, and what it emits are those of them that are not own.
   */
  lemma ReplayReachesHead(c: Client, h: History, log: seq<Activity>, f: Frame, from: nat, es: seq<(Event, Env)>)
    requires IsLog(log) && Distinct(c.store.entries) && c.link.connected && Safe(c.inbox, h)
    requires 0 <= c.inbox.watermark < |log| && Below(c.inbox, |log|)
    requires f.Welcome? && f.head == Some(|log|) && !Resets(c, f)
    requires from <= c.inbox.watermark && IsReplay(ApplyWelcome(c, f), es, MissingFrom(c, log), from)
    ensures var (d, k) := Run(ApplyWelcome(c, f), h, es);
      && d.inbox.watermark == |log| && d.inbox.seen == {}
      && h.accounts <= k.accounts
      && var added := k.accounts[|h.accounts|..];
      && Seqs(added) == Span(c.inbox.watermark, |log|) - c.inbox.seen && EachOnce(added)
      && SeqNos(Emissions(RunEvents(ApplyWelcome(c, f), es).1)) == Delivered(added)
  {
    hide Run, RunEvents, ApplyWelcome, IsReplay, Emissions, Delivered;
    var w := ApplyWelcome(c, f);
    WelcomedIsInReplay(c, log, f, from);
    LostAcksAreSettled(c, log, f, from, es);
    ReplayHistory(w, h, es, MissingFrom(c, log), from);
    var (d, k) := Run(w, h, es);
    assert Accounted(d.inbox, d.inbox.watermark);
    assert d.inbox.seen == {} by {
      assert forall n :: n in d.inbox.seen ==> Accounted(d.inbox, n);
    }
    AddedAccounts(h.accounts, k.accounts, h.start, c.inbox.watermark, c.inbox.seen, |log|);
  }

  // ---------------------------------------------------------------------
  // A cancelled gap timer
  // ---------------------------------------------------------------------

  /** An open, quiet session that can sync. */
  predicate Quiet(c: Client) {
    && c.link.phase == Open && c.link.connected && c.link.canSync && !c.link.replaying
    && c.window.inFlight == {}
  }

  /** The gap timer can still bring a sync for seqs above the watermark. */
  predicate TimerUsable(c: Client) {
    match c.link.gapTimer
    case Unset => true
    case Armed(highest) => highest > c.inbox.watermark
    case Cancelled => false
  }

  /**
   * A heartbeat shows an open, quiet session that it misses something. When the
   * gap timer is next due, the session asks for a replay if and only if the
   * timer was usable; a cancelled one is not.
   */
  lemma GapAskedIffTimerUsable(c: Client, head: int, env: Env)
    requires Quiet(c) && head > c.inbox.watermark
    ensures var d := Apply(c, Receive(Heartbeat(Some(head))), env).0;
      Apply(d, GapTimerDue, env).1 == [SyncSent(c.inbox.watermark)] <==> TimerUsable(c)
  {
  }

  /** A connection that drops while the timer is armed leaves the next one without a usable timer. */
  lemma DropStopsGapDetection(c: Client, f: Frame, env: Env)
    requires Quiet(c) && c.link.gapTimer.Armed? && !c.link.stopped
    requires f.Welcome? && f.head.None? && !Resets(c, f)
    ensures var dropped := Apply(c, Close(false), env).0;
      var d := Apply(Apply(dropped, Connect, env).0, Receive(f), env).0;
      Quiet(d) && d.link.gapTimer == Cancelled && !TimerUsable(d) && d.inbox == c.inbox
  {
  }

  /** Nothing arms or frees the gap timer once its handle is stale, so it never asks for a gap again. */
  lemma CancelledGapTimerStays(c: Client, e: Event, env: Env)
    requires c.link.gapTimer == Cancelled
    ensures Apply(c, e, env).0.link.gapTimer == Cancelled
    ensures Apply(c, GapTimerDue, env) == (c, [])
  {
    hide FlushedFrom, Ids;
    match e
    case Receive(f) => CancelledAtFrame(c, f, env);
    case Send(id, body) => FlushedKeepsRest(Enqueued(c, id, body), env);
    case Attached(raw) => FlushedKeepsRest(StateSaved(Attachment(c, raw)), env);
    case _ =>
      FlushedKeepsRest(c, env);
      FlushedKeepsRest(Caught(c), env);
  }

  lemma CancelledAtFrame(c: Client, f: Frame, env: Env)
    requires c.link.gapTimer == Cancelled
    ensures ApplyFrame(c, f, env).0.link.gapTimer == Cancelled
  {
    match f
    case Persistent(a) => CancelledAtTurn(c, a, env);
    case Ack(id, actId, n) =>
      hide FlushedFrom, Ids, Removed, Marked, StateSet, Owned;
      var d := if n.Some? then Seen(c, n.value) else c;
      FlushedKeepsRest(SettledSend(d, id, actId, n).0, env);
    case Error(fault) => CancelledAtError(c, fault, env);
    case _ =>
  }

  lemma CancelledAtTurn(c: Client, a: Activity, env: Env)
    requires c.link.gapTimer == Cancelled
    ensures ApplyPersistent(c, a, env).0.link.gapTimer == Cancelled
  {
    hide FlushedFrom, Ids, Removed, Marked, StateSet, Owned;
    assert Received(c, a).0.link == c.link;
    hide Received;
    FlushedKeepsRest(Caught(Received(c, a).0), env);
  }

  lemma CancelledAtError(c: Client, fault: Fault, env: Env)
    requires c.link.gapTimer == Cancelled
    ensures ApplyError(c, fault, env).0.link.gapTimer == Cancelled
  {
    hide FlushedFrom, Ids, Removed, StateSet;
    if NamesSend(c, fault) {
      var id := fault.clientId.value;
      FlushedKeepsRest(c.(window := Forgotten(c.window, id), store := Removed(c.store, id)), env);
    } else {
      FlushedKeepsRest(Caught(c), env);
      FlushedKeepsRest(Caught(StateSaved(c.(inbox := Restarted(c.inbox)))), env);
    }
  }

  /** From then on no run of events makes the gap timer ask for anything. */
  lemma {:induction false} GapDetectionStaysOff(c: Client, h: History, es: seq<(Event, Env)>)
    requires c.link.gapTimer == Cancelled
    ensures var d := Run(c, h, es).0; !TimerUsable(d) && forall env :: Apply(d, GapTimerDue, env) == (d, [])
    decreases |es|
  {
    if es != [] {
      CancelledGapTimerStays(c, es[0].0, es[0].1);
      GapDetectionStaysOff(Apply(c, es[0].0, es[0].1).0, Recorded(c, h, es[0].0, es[0].1), es[1..]);
    }
  }

  /** A connection that misses something, drops while the gap timer runs, and is opened again. */
  function DroppedWhileArmed(conversation: string, head: int): seq<Event> {
    [Connect, Receive(Welcome(conversation, None, None)), Receive(Heartbeat(Some(head))), Close(false), Connect,
     Receive(Welcome(conversation, None, None))]
  }

  function AfterEvents(c: Client, es: seq<Event>): Client
    decreases |es|
  {
    if es == [] then c else AfterEvents(Apply(c, es[0], CALM).0, es[1..])
  }

  /** The states of a session, one after each event. */
  ghost predicate IsPath(cs: seq<Client>, es: seq<Event>) {
    |cs| == |es| + 1 && forall i :: 0 <= i < |es| ==> cs[i + 1] == Apply(cs[i], es[i], CALM).0
  }

  lemma {:induction false} PathEnds(cs: seq<Client>, es: seq<Event>)
    requires IsPath(cs, es)
    ensures AfterEvents(cs[0], es) == cs[|es|]
    decreases |es|
  {
    hide Apply;
    if es != [] {
      forall i | 0 <= i < |es[1..]|
        ensures cs[1..][i + 1] == Apply(cs[1..][i], es[1..][i], CALM).0
      {
        assert cs[1..][i + 1] == cs[i + 2] && cs[1..][i] == cs[i + 1] && es[1..][i] == es[i + 1];
      }
      PathEnds(cs[1..], es[1..]);
    }
  }

  /** A new session, welcomed and told that it misses something. */
  lemma ArmsTimer(conversation: string, head: int)
    requires conversation != "" && head > 0
    ensures var c := Apply(Apply(Constructed("", None, true), Connect, CALM).0, Receive(Welcome(conversation, None, None)), CALM).0;
      var d := Apply(c, Receive(Heartbeat(Some(head))), CALM).0;
      && Quiet(d) && d.link.gapTimer == Armed(head) && !d.link.stopped && d.inbox.watermark == 0
      && d.link.conversationId == conversation
  {
  }

  /**
   * A new session that goes through this is open and behind the server, and whatever happens then, its
   * gap timer never asks for what it misses.
   */
  lemma GapDetectionLostFromStart(conversation: string, head: int, h: History, more: seq<(Event, Env)>)
    requires conversation != "" && head > 0
    ensures var c := AfterEvents(Constructed("", None, true), DroppedWhileArmed(conversation, head));
      && Quiet(c) && c.inbox.watermark < head
      && var d := Run(c, h, more).0; !TimerUsable(d) && forall env :: Apply(d, GapTimerDue, env) == (d, [])
  {
    hide Apply, Quiet;
    var es, c0 := DroppedWhileArmed(conversation, head), Constructed("", None, true);
    var c1 := Apply(c0, es[0], CALM).0;
    var c2 := Apply(c1, es[1], CALM).0;
    var c3 := Apply(c2, es[2], CALM).0;
    ArmsTimer(conversation, head);
    DropStopsGapDetection(c3, es[5].frame, CALM);
    var c4 := Apply(c3, es[3], CALM).0;
    var c5 := Apply(c4, es[4], CALM).0;
    var c6 := Apply(c5, es[5], CALM).0;
    var cs := [c0, c1, c2, c3, c4, c5, c6];
    assert IsPath(cs, es);
    PathEnds(cs, es);
    GapDetectionStaysOff(c6, h, more);
  }
}
