/**
 * The whole system: a session with its storage, a network that may lose,
 * repeat, delay and reorder everything, the deduplicating server, and crashes.
 */
module ExactlyOnce {
  import opened Prefix
  import opened Outbox
  import opened ConversationProtocol
  import opened ConversationReceive
  import opened ConversationSend
  import opened ConversationOutbox
  import ConversationReplay
  import opened ServerLog

  /**
   * What has happened to the sends: accepted by `send`, and by this process (`mine`); rejected for
   * good; lost; ever in a snapshot that reached the storage; merged by the attach of this process
   * (`late`); sent by an earlier process, taken off the storage by a snapshot that a later one had
   * queued before it had loaded them, and not stored again since (`replaced`). Also the seqs that some
   * session accounted for, and the text that each accepted send was handed over with.
   */
  datatype Ledger = Ledger(
    accepted: set<string>,
    mine: set<string>,
    rejected: set<string>,
    lost: set<string>,
    durable: set<string>,
    late: set<string>,
    replaced: set<string>,
    known: set<int>,
    texts: map<string, string>)

  /** What the storage has answered to the load: nothing yet, an error, or what it held at that time. */
  datatype Reading = Unread | Failed | Answered(raw: Option<Snapshot>)

  /**
   * The load of the store: whether resume() waits for it, the answer, whether it has succeeded since
   * the key was set, and how many of the pending writes were queued before that.
   */
  datatype Load = Load(opening: bool, reading: Reading, done: bool, early: nat)

  /**
   * `wire` are the frames ever put on the wire, with their texts, and `acks` the acks ever sent:
   * either may be delivered at any later time, any number of times, or never.
   */
  datatype System = System(
    conversation: string,
    client: Client,
    life: History,
    load: Load,
    storage: map<string, Snapshot>,
    server: Server,
    wire: set<(string, string)>,
    acks: set<Frame>,
    ledger: Ledger)

  /** How a process takes up the conversation: start() without or with its id, or resume(). */
  datatype Birth = Starts | StartsKeyed | Resumes

  datatype Step =
    | Local(event: Event, env: Env)
    | Arrives(message: Message, swallowAck: bool)
    | ReadDone(ok: bool)
    | LoadDone
    | WriteDone(ok: bool)
    | Crash(birth: Birth)

  function Log(y: System): seq<Activity> {
    Transcript(y.server, y.conversation)
  }

  function Turns(log: seq<Activity>): set<string> {
    set a | a in log && a.clientId.Some? :: a.clientId.value
  }

  function OnDisk(y: System): Option<Snapshot> {
    if y.conversation in y.storage then Some(y.storage[y.conversation]) else None
  }

  function Raw(r: Reading): Option<Snapshot> {
    if r.Answered? then r.raw else None
  }

  function IdsOf(x: Option<Snapshot>): set<string> {
    if x.Some? then Ids(x.value.outbox) else {}
  }

  /** The sends in memory, on disk, and in the answer that is about to be merged. */
  function Memory(y: System): set<string> {
    Ids(y.client.store.entries)
  }

  function Disk(y: System): set<string> {
    IdsOf(OnDisk(y))
  }

  function Fetched(y: System): set<string> {
    IdsOf(Raw(y.load.reading))
  }

  /** The accepted sends of which nothing is known yet: not in the log, not rejected, not lost. */
  function Unresolved(y: System): set<string> {
    y.ledger.accepted - Turns(Log(y)) - y.ledger.rejected - y.ledger.lost
  }

  predicate Outstanding(y: System) {
    y.load.opening || y.client.link.attaching
  }

  /** What a frame from the server may be; a conversation is never replaced, and a watermark never above the head. */
  predicate Genuine(y: System, f: Frame) {
    match f
    case Persistent(a) => a in Log(y)
    case Ack(_, _, _) => f in y.acks
    case Error(fault) => fault.code != "invalid_watermark"
    case Welcome(id, head, _) => (id == y.conversation || id == "") && (head.Some? ==> head.value <= |Log(y)|)
    case _ => true
  }

  predicate FreshId(log: seq<Activity>, id: string) {
    forall a :: a in log ==> a.id != Some(id)
  }

  /** What the session may do next: until resume() has loaded, only sends and a disconnect. */
  predicate Possible(y: System, e: Event) {
    && (y.load.opening ==> e.Send? || e.Disconnect?)
    && match e
      case Receive(f) => Genuine(y, f)
      case Send(id, _) => id !in y.ledger.accepted && id !in Turns(Log(y))
      case Attached(raw) =>
        if y.client.link.attaching then !y.load.reading.Unread? && raw == Raw(y.load.reading) else raw == None
      case _ => true
  }

  /** What may happen next; client ids are not reused, and other participants use other ones. */
  predicate Enabled(y: System, t: Step) {
    match t
    case Local(e, _) => Possible(y, e)
    case Arrives(m, _) =>
      FreshId(Log(y), m.id) && (m.clientId.Some? ==> (m.clientId.value, m.text) in y.wire || m.clientId.value !in y.ledger.accepted)
    case ReadDone(_) => Outstanding(y) && y.load.reading.Unread?
    case LoadDone => y.load.opening && !y.load.reading.Unread?
    case WriteDone(_) => y.client.store.writing != []
    case Crash(_) => true
  }

  /** The load after an event: a welcome may ask for one, and the attach ends it. */
  function LoadAfter(y: System, e: Event, d: Client): Load {
    var ends := e.Attached? && y.client.link.attaching;
    var begins := d.link.attaching && !y.client.link.attaching;
    var done := if ends then y.load.reading.Answered? else y.load.done && !begins;
    Load(
      y.load.opening,
      if ends || begins then Unread else y.load.reading,
      done,
      if done then y.load.early else |d.store.writing|)
  }

  function AfterLocal(y: System, e: Event, env: Env): System {
    var (d, out) := Apply(y.client, e, env);
    var l := y.ledger;
    var entered := Entered(y.client, e);
    y.(client := d,
       life := Recorded(y.client, y.life, e, env),
       load := LoadAfter(y, e, d),
       wire := y.wire + WrittenFrames(out),
       ledger := l.(
         accepted := l.accepted + (if e.Send? then entered else {}),
         mine := l.mine + (if e.Send? then entered else {}),
         late := l.late + (if e.Attached? then entered else {}),
         rejected := l.rejected + (if e.Receive? && e.frame.Error? then Gone(y.client, e) else {}),
         known := l.known + Seqs(Observed(y.client, e, env)),
         texts := if e.Send? then l.texts + map id | id in entered :: e.body else l.texts))
  }

  function AfterArrival(y: System, m: Message, swallowAck: bool): System {
    var (s, answer) := Handled(y.server, y.conversation, m, None, swallowAck);
    var ours := m.clientId.Some? && (m.clientId.value, m.text) in y.wire && answer.Some?;
    y.(server := s, acks := y.acks + (if ours then {answer.value} else {}))
  }

  function AfterRead(y: System, ok: bool): System {
    y.(load := y.load.(reading := if ok then Answered(OnDisk(y)) else Failed))
  }

  /** resume() goes on with what the load brought. */
  function AfterLoad(y: System): System {
    var c := LoadEnded(y.client, Raw(y.load.reading), None);
    y.(client := c,
       life := History(c.inbox.watermark, [], {}, 0),
       load := y.load.(opening := false, reading := Unread, done := y.load.reading.Answered?))
  }

  /** What the oldest pending write takes off the storage, if it was queued too early: all that this process did not send. */
  function Displaced(y: System): set<string> {
    if y.load.early > 0 then Disk(y) * Unresolved(y) - y.ledger.mine else {}
  }

  /** A write has ended; what was only in the snapshot that it replaced is lost. */
  function AfterWrite(y: System, ok: bool): System
    requires y.client.store.writing != []
  {
    var (s, storage) := WriteEnds(y.client.store, y.storage, ok);
    var l := y.ledger;
    var written := if ok then Ids(y.client.store.writing[0].snapshot.outbox) else Disk(y);
    y.(client := y.client.(store := s),
       storage := storage,
       load := y.load.(early := if y.load.early > 0 then y.load.early - 1 else 0),
       ledger := l.(
         durable := if ok then l.durable + written else l.durable,
         lost := l.lost + (Unresolved(y) - Memory(y) - written - Fetched(y)),
         replaced := if ok then l.replaced + Displaced(y) - written else l.replaced))
  }

  function Born(birth: Birth, conversation: string, canSync: bool): Client {
    match birth
    case Starts => Constructed("", None, canSync)
    case StartsKeyed => Constructed("", Some(conversation), canSync)
    case Resumes => Constructed(conversation, Some(conversation), canSync)
  }

  function Unloaded(birth: Birth): Load {
    Load(birth.Resumes?, Unread, false, 0)
  }

  /** The process dies with its memory and its pending writes, and another one takes up the conversation. */
  function AfterCrash(y: System, birth: Birth): System {
    y.(client := Born(birth, y.conversation, y.client.link.canSync),
       life := History(0, [], {}, 0),
       load := Unloaded(birth),
       ledger := y.ledger.(lost := y.ledger.lost + (Unresolved(y) - Disk(y)), mine := {}, late := {}))
  }

  function Next(y: System, t: Step): System
    requires Enabled(y, t)
  {
    match t
    case Local(e, env) => AfterLocal(y, e, env)
    case Arrives(m, swallowAck) => AfterArrival(y, m, swallowAck)
    case ReadDone(ok) => AfterRead(y, ok)
    case LoadDone => AfterLoad(y)
    case WriteDone(ok) => AfterWrite(y, ok)
    case Crash(birth) => AfterCrash(y, birth)
  }

  // ---------------------------------------------------------------------
  // Invariants
  // ---------------------------------------------------------------------

  /** The log is consistent with distinct ids, and every ack in transit tells the truth about an accepted send. */
  ghost predicate ServerTells(y: System) {
    && y.conversation != ""
    && Consistent(y.server)
    && (forall i :: 0 <= i < |Log(y)| ==> Log(y)[i].id.Some?)
    && (forall i, j :: 0 <= i < j < |Log(y)| ==> Log(y)[i].id != Log(y)[j].id)
    && (forall f :: f in y.acks ==> IsAckOf(f, Log(y)) && f.clientId in y.ledger.accepted)
    && (forall f :: f in y.wire ==> f.0 in y.ledger.accepted)
  }

  /**
   * A turn of the log that is in the outbox was accounted for before this session began, or not at
   * all, unless the attach merged it.
   */
  ghost predicate NoStaleTurns(y: System) {
    forall i :: 0 <= i < |Log(y)| && IsOwnTurn(y.client, Log(y)[i]) && Accounted(y.client.inbox, i + 1)
      ==> i + 1 <= y.life.start || Log(y)[i].clientId.value in y.ledger.late
  }

  ghost predicate OwnIdKnown(y: System, id: string) {
    exists i :: 0 <= i < |Log(y)| && Log(y)[i].id == Some(id) && Accounted(y.client.inbox, i + 1)
  }

  /** An activity that was accounted for without being shown is a send of this client. */
  ghost predicate WithheldIsOwn(y: System, a: Account) {
    a.Own? ==>
      && 1 <= a.seqNo <= |Log(y)|
      && var turn := Log(y)[a.seqNo - 1];
      turn.clientId.Some? && turn.clientId.value in y.ledger.accepted
  }

  ghost predicate Receiving(y: System) {
    && Safe(y.client.inbox, y.life) && y.life.resets == 0 && 0 <= y.life.start
    && y.client.inbox.watermark <= |Log(y)| && (forall k :: k in y.client.inbox.seen ==> k <= |Log(y)|)
    && NoStaleTurns(y)
    && (forall id :: id in y.client.inbox.ownIds ==> OwnIdKnown(y, id))
    && Span(0, y.life.start) + Seqs(y.life.accounts) <= y.ledger.known
    && (forall a :: a in y.life.accounts ==> WithheldIsOwn(y, a))
  }

  /** The snapshots on their way to the storage, oldest first. */
  function Queue(y: System): seq<Snapshot> {
    SnapshotsOf(y.client.store.writing)
  }

  function SnapshotsOf(w: seq<Write>): seq<Snapshot> {
    seq(|w|, i requires 0 <= i < |w| => w[i].snapshot)
  }

  /** An unresolved send that is in a snapshot is in every later one. */
  ghost predicate Chained(xs: seq<Snapshot>, ids: set<string>) {
    forall i, j :: 0 <= i < j < |xs| ==> Ids(xs[i].outbox) * ids <= Ids(xs[j].outbox)
  }

  /** A snapshot of this conversation that claims nothing unknown and holds no lost send. */
  ghost predicate Fits(x: Snapshot, y: System) {
    && Distinct(x.outbox) && Ids(x.outbox) <= y.ledger.accepted - y.ledger.lost
    && (x.state.Some? ==>
      && x.state.value.conversationId == y.conversation
      && 0 <= x.state.value.watermark <= |Log(y)| && Span(0, x.state.value.watermark) <= y.ledger.known)
  }

  predicate Holds(y: System, x: Snapshot) {
    x in Queue(y) || OnDisk(y) == Some(x) || Raw(y.load.reading) == Some(x)
  }

  /** Where the unresolved sends are. */
  ghost predicate Kept(y: System) {
    && Sound(y.client) && Memory(y) <= y.ledger.accepted - y.ledger.lost
    && Unresolved(y) <= Memory(y) + Disk(y) + Fetched(y)
    && (y.load.done ==> Unresolved(y) <= Memory(y))
    && (y.load.reading.Answered? ==> Disk(y) * Unresolved(y) <= Memory(y) + Fetched(y))
  }

  /** What the pending writes hold: those queued after the load lose nothing that the storage holds. */
  ghost predicate Journal(y: System) {
    && Chained(Queue(y), Unresolved(y))
    && (forall i :: 0 <= i < |Queue(y)| ==> Ids(Queue(y)[i].outbox) * Unresolved(y) <= Memory(y))
    && (forall i :: y.load.early <= i < |Queue(y)| ==> Disk(y) * Unresolved(y) <= Ids(Queue(y)[i].outbox))
    && (forall x :: Holds(y, x) ==> Fits(x, y))
    && (forall w :: w in y.client.store.writing ==> w.key == y.conversation)
    && y.storage.Keys <= {y.conversation}
  }

  /** Before the load there is nothing but this process's own sends in memory and in what it writes. */
  ghost predicate OwnFirst(y: System) {
    && y.ledger.mine <= y.ledger.accepted
    && (!y.load.done ==> Memory(y) <= y.ledger.mine)
    && (forall i :: 0 <= i < y.load.early && i < |Queue(y)| ==> Ids(Queue(y)[i].outbox) <= y.ledger.mine)
  }

  /** This process's own sends are in memory, and the stored ones of them in every pending write. */
  ghost predicate OwnKept(y: System) {
    && y.ledger.mine * Unresolved(y) <= Memory(y)
    && forall i :: 0 <= i < |Queue(y)| ==> Disk(y) * Unresolved(y) * y.ledger.mine <= Ids(Queue(y)[i].outbox)
  }

  /** What was ever durable is in the storage, resolved, or replaced by an early snapshot; only the last can be lost. */
  ghost predicate Durable(y: System) {
    && y.ledger.durable + y.ledger.lost + y.ledger.rejected <= y.ledger.accepted
    && Disk(y) + y.ledger.replaced <= y.ledger.durable && Disk(y) !! y.ledger.replaced
    && y.ledger.durable * Unresolved(y) <= Disk(y) + y.ledger.replaced
    && y.ledger.durable * y.ledger.lost <= y.ledger.replaced
  }

  ghost predicate Identified(y: System) {
    && y.client.link.conversationId in {"", y.conversation}
    && y.client.store.key in {None, Some(y.conversation)}
    && (y.client.store.key.None? ==> y.client.store.writing == [] && !y.load.done && !y.client.link.attaching)
    && (y.client.link.attaching ==> y.client.link.conversationId == y.conversation && !y.load.done)
    && (y.load.opening ==> NotOpened(y))
    && (!Outstanding(y) ==> y.load.reading.Unread?)
    && y.load.early <= |y.client.store.writing| && (!y.load.done ==> y.load.early == |y.client.store.writing|)
  }

  /** resume() has not loaded: nothing has been received, and nothing is claimed. */
  predicate NotOpened(y: System) {
    && y.client.inbox == Inbox(0, {}, {}, []) && y.life == History(0, [], {}, 0)
    && y.client.link.conversationId == y.conversation && y.client.store.key == Some(y.conversation)
    && y.client.store.state == None && !y.client.link.connected && !y.client.link.attaching && !y.load.done
  }

  ghost predicate Outgoing(y: System) {
    Kept(y) && Journal(y) && OwnFirst(y) && OwnKept(y) && Durable(y)
  }

  ghost predicate Inv(y: System) {
    ServerTells(y) && Receiving(y) && Outgoing(y) && Identified(y)
  }

  // ---------------------------------------------------------------------
  // The receive side is kept
  // ---------------------------------------------------------------------

  lemma NothingResets(y: System, e: Event)
    requires Inv(y) && Enabled(y, Local(e, Env(0, 0)))
    ensures !ResetsAt(y.client, e)
  {
  }

  lemma LoggedAt(y: System, a: Activity)
    requires ServerTells(y) && a in Log(y)
    ensures 1 <= a.seqNo <= |Log(y)| && Log(y)[a.seqNo - 1] == a
  {
    var i :| 0 <= i < |Log(y)| && Log(y)[i] == a;
    assert Log(y)[i].seqNo == i + 1;
  }

  /** The activity of the log that an event speaks of. */
  lemma SpokenOf(y: System, e: Event)
    requires Inv(y) && Enabled(y, Local(e, Env(0, 0))) && SeqOf(e).Some? && e.Receive?
    ensures 1 <= SeqOf(e).value <= |Log(y)|
    ensures var a := Log(y)[SeqOf(e).value - 1];
      if e.frame.Ack? then IsAckOf(e.frame, Log(y)) && e.frame.clientId in y.ledger.accepted
      else e.frame == Persistent(a)
  {
    if e.frame.Persistent? {
      LoggedAt(y, e.frame.activity);
    }
  }

  /** Before any reset, what is withheld from the application is an own turn. */
  lemma WithheldAreOwn(y: System, a: Activity)
    requires Inv(y) && a in Log(y) && !Accounted(y.client.inbox, a.seqNo) && !Shown(y.client, a)
    ensures IsOwnTurn(y.client, a) && a.clientId.value in y.ledger.accepted
  {
    LoggedAt(y, a);
    assert a.id.Some?;
    assert a.id.value in y.client.inbox.ownIds ==> OwnIdKnown(y, a.id.value);
  }

  lemma ObservedIsOwn(y: System, e: Event, env: Env)
    requires Inv(y) && Enabled(y, Local(e, env))
    ensures forall a :: a in Observed(y.client, e, env) ==> WithheldIsOwn(y, a)
  {
    hide Observed, Outgoing, Identified, InboxAfter, Safe, Shown;
    ObservedOf(y.client, e, env);
    var n := SeqOf(e);
    if n.Some? && e.Receive? {
      SpokenOf(y, e);
      if e.frame.Persistent? && !Accounted(y.client.inbox, n.value) && !Shown(y.client, e.frame.activity) {
        WithheldAreOwn(y, e.frame.activity);
      }
      if !y.client.link.connected {
        InboxOf(y.client, e, env);
      }
    }
  }

  /** An event moves the inbox by at most the one seq that it speaks of. */
  lemma InboxMoves(y: System, e: Event, env: Env)
    requires Inv(y) && Enabled(y, Local(e, env))
    ensures var i, j := y.client.inbox, Apply(y.client, e, env).0.inbox;
      && (forall m :: Accounted(i, m) ==> Accounted(j, m))
      && (forall m :: m > y.life.start && Accounted(j, m) && !Accounted(i, m) ==>
        e.Receive? && y.client.link.connected && SeqOf(e) == Some(m))
      && i.watermark <= j.watermark <= |Log(y)| && (forall k :: k in j.seen ==> k <= |Log(y)|)
  {
    hide Outgoing, Identified, Observed, Apply, InboxAfter;
    NothingResets(y, e);
    InboxOf(y.client, e, env);
    StepAccounts(y.client, y.life, e, env);
    ObservedOf(y.client, e, env);
    var i, j := y.client.inbox, InboxAfter(y.client, e);
    if Observed(y.client, e, env) != [] {
      if !e.Receive? || !y.client.link.connected {
        InboxUntouched(y.client, e);
        assert false;
      }
      SpokenOf(y, e);
      SpansAccount(i, j, y.life.start, SeqOf(e).value, |Log(y)|);
    }
  }

  lemma InboxUntouched(c: Client, e: Event)
    requires !e.Receive? || !c.link.connected
    ensures InboxAfter(c, e) == c.inbox
  {
  }

  lemma SpansAccount(i: Inbox, j: Inbox, lo: int, n: int, top: int)
    requires lo <= i.watermark <= j.watermark && i.watermark <= top && i.watermark < n <= top
    requires forall k :: k in i.seen ==> k <= top
    requires Span(lo, j.watermark) + j.seen == Span(lo, i.watermark) + i.seen + {n}
    ensures forall m :: Accounted(i, m) ==> Accounted(j, m)
    ensures forall m :: m > lo && Accounted(j, m) ==> Accounted(i, m) || m == n
    ensures j.watermark <= top && forall k :: k in j.seen ==> k <= top
  {
    forall m | Accounted(i, m)
      ensures Accounted(j, m)
    {
      if m > lo {
        assert m in Span(lo, i.watermark) + i.seen + {n};
      }
    }
    forall m | m > lo && Accounted(j, m)
      ensures Accounted(i, m) || m == n
    {
      assert m in Span(lo, j.watermark) + j.seen;
    }
    assert j.watermark > lo ==> j.watermark in Span(lo, j.watermark) + j.seen;
  }

  lemma EntriesMove(y: System, e: Event, env: Env)
    requires Inv(y) && Enabled(y, Local(e, env))
    ensures var (d, out) := Apply(y.client, e, env);
      OutcomeWithin(y.client, d, out, Entered(y.client, e), Gone(y.client, e), Reach(y.client, e, d))
    ensures Entered(y.client, e) != {} ==> e.Send? || (e.Attached? && y.client.link.attaching)
  {
    assert y.conversation != "";
    hide Apply, OutcomeWithin, Receiving, ServerTells, Ids;
    if e.Attached? && e.raw.Some? {
      assert Holds(y, e.raw.value) && Fits(e.raw.value, y);
    }
    EventOutcome(y.client, e, env);
  }

  /** A turn that this event accounts for leaves the outbox, if it was there. */
  lemma LocalNoStaleTurn(y: System, e: Event, env: Env, k: nat)
    requires Inv(y) && Enabled(y, Local(e, env)) && k < |Log(y)|
    requires var d := Apply(y.client, e, env).0; IsOwnTurn(d, Log(y)[k]) && Accounted(d.inbox, k + 1)
    ensures k + 1 <= y.life.start || Log(y)[k].clientId.value in y.ledger.late + (if e.Attached? then Entered(y.client, e) else {})
  {
    hide Apply, Outgoing, Identified, Safe, Journalled, Sound;
    var id := Log(y)[k].clientId.value;
    InboxMoves(y, e, env);
    EntriesMove(y, e, env);
    assert id in Turns(Log(y));
    if id in Memory(y) && !Accounted(y.client.inbox, k + 1) && k + 1 > y.life.start {
      SpokenOf(y, e);
      SpokenIsGone(y, e, k);
      assert false;
    }
  }

  lemma SpokenIsGone(y: System, e: Event, k: nat)
    requires ServerTells(y) && e.Receive? && y.client.link.connected && SeqOf(e) == Some(k + 1) && k < |Log(y)|
    requires IsOwnTurn(y.client, Log(y)[k]) && !Accounted(y.client.inbox, k + 1)
    requires if e.frame.Ack? then IsAckOf(e.frame, Log(y)) else e.frame == Persistent(Log(y)[k])
    ensures Log(y)[k].clientId.value in Gone(y.client, e)
  {
    hide Ids, Consistent;
  }

  lemma LocalNoStaleTurns(y: System, e: Event, env: Env)
    requires Inv(y) && Enabled(y, Local(e, env))
    ensures NoStaleTurns(AfterLocal(y, e, env))
  {
    hide Apply, Inv, Recorded, Observed, Entered, Gone;
    var y' := AfterLocal(y, e, env);
    assert Log(y') == Log(y);
    forall k | 0 <= k < |Log(y)| && IsOwnTurn(y'.client, Log(y)[k]) && Accounted(y'.client.inbox, k + 1)
      ensures k + 1 <= y.life.start || Log(y)[k].clientId.value in y'.ledger.late
    {
      LocalNoStaleTurn(y, e, env, k);
    }
    NothingResets(y, e);
    StartKept(y, e, env);
  }

  lemma StartKept(y: System, e: Event, env: Env)
    requires !ResetsAt(y.client, e)
    ensures AfterLocal(y, e, env).life.start == y.life.start && AfterLocal(y, e, env).life.resets == y.life.resets
    ensures AfterLocal(y, e, env).life.accounts == y.life.accounts + Observed(y.client, e, env)
  {
    hide Apply, Observed;
  }

  lemma OwnIdsGrow(c: Client, e: Event, id: string)
    requires id in InboxAfter(c, e).ownIds && id !in c.inbox.ownIds
    ensures e.Receive? && c.link.connected
    ensures (e.frame.Ack? && e.frame.id == id)
      || (e.frame.Persistent? && e.frame.activity.seqNo > 0 && !Accounted(c.inbox, e.frame.activity.seqNo)
          && (if e.frame.activity.id.Some? then e.frame.activity.id.value else "undefined") == id)
  {
  }

  lemma LocalOwnIds(y: System, e: Event, env: Env, id: string)
    requires Inv(y) && Enabled(y, Local(e, env)) && id in AfterLocal(y, e, env).client.inbox.ownIds
    ensures OwnIdKnown(AfterLocal(y, e, env), id)
  {
    hide Apply, Outgoing, Identified, Safe, Recorded, InboxAfter;
    InboxMoves(y, e, env);
    InboxOf(y.client, e, env);
    var j := Apply(y.client, e, env).0.inbox;
    if id in y.client.inbox.ownIds {
      assert OwnIdKnown(y, id);
      var k :| 0 <= k < |Log(y)| && Log(y)[k].id == Some(id) && Accounted(y.client.inbox, k + 1);
      assert Log(AfterLocal(y, e, env)) == Log(y) && Accounted(j, k + 1);
      assert Log(AfterLocal(y, e, env))[k].id == Some(id);
    } else {
      OwnIdsGrow(y.client, e, id);
      SpokenOf(y, e);
      var n := SeqOf(e).value;
      SpokenIsAccounted(y.client, e, env);
      assert Log(AfterLocal(y, e, env))[n - 1].id == Some(id) && Accounted(j, (n - 1) + 1);
    }
  }

  lemma SpokenIsAccounted(c: Client, e: Event, env: Env)
    requires e.Receive? && c.link.connected && SeqOf(e).Some? && !ResetsAt(c, e)
    ensures Accounted(Apply(c, e, env).0.inbox, SeqOf(e).value)
  {
    InboxOf(c, e, env);
    var n := SeqOf(e).value;
    if n > c.inbox.watermark {
      var seen := c.inbox.seen + {n};
      var w := Absorb(c.inbox.watermark, seen);
      assert n in seen;
    }
  }

  lemma LocalReceiving(y: System, e: Event, env: Env)
    requires Inv(y) && Enabled(y, Local(e, env))
    ensures Receiving(AfterLocal(y, e, env))
  {
    hide Apply, Outgoing, Identified, Recorded, Observed, NoStaleTurns, OwnIdKnown, Safe;
    var y' := AfterLocal(y, e, env);
    StepIsSafe(y.client, y.life, e, env);
    InboxMoves(y, e, env);
    LocalNoStaleTurns(y, e, env);
    NothingResets(y, e);
    StartKept(y, e, env);
    forall id | id in y'.client.inbox.ownIds
      ensures OwnIdKnown(y', id)
    {
      LocalOwnIds(y, e, env, id);
    }
    ObservedIsOwn(y, e, env);
    LedgerOnlyGrows(y, e, env);
    JoinedAccounts(y.life.accounts, Observed(y.client, e, env));
  }

  lemma LedgerOnlyGrows(y: System, e: Event, env: Env)
    ensures var y' := AfterLocal(y, e, env);
      && Log(y') == Log(y) && y'.ledger.lost == y.ledger.lost
      && y.ledger.accepted <= y'.ledger.accepted && y.ledger.known <= y'.ledger.known
      && (forall a :: WithheldIsOwn(y, a) ==> WithheldIsOwn(y', a))
  {
    hide Apply, Observed, Recorded;
  }

  lemma JoinedAccounts(a: seq<Account>, b: seq<Account>)
    ensures Seqs(a + b) == Seqs(a) + Seqs(b)
    ensures forall x :: x in a + b ==> x in a || x in b
  {
    var all := a + b;
    forall n | n in Seqs(a) + Seqs(b)
      ensures n in Seqs(all)
    {
      if n in Seqs(a) {
        var i :| 0 <= i < |a| && a[i].seqNo == n;
        assert all[i].seqNo == n;
      } else {
        var i :| 0 <= i < |b| && b[i].seqNo == n;
        assert all[|a| + i].seqNo == n;
      }
    }
  }

  // ---------------------------------------------------------------------
  // The send side is kept
  // ---------------------------------------------------------------------

  lemma LocalServerTells(y: System, e: Event, env: Env)
    requires Inv(y) && Enabled(y, Local(e, env))
    ensures ServerTells(AfterLocal(y, e, env))
  {
    hide Apply, Receiving, Observed, Recorded, Journal, Durable, OwnFirst, OwnKept, Journalled, Sound, WrittenFrames, WrittenIds;
    EntriesMove(y, e, env);
    FrameIds(Apply(y.client, e, env).1);
    EnteredIsAccepted(y, e);
  }

  /** What enters is new, by send, or comes from a snapshot of accepted sends. */
  lemma EnteredIsAccepted(y: System, e: Event)
    requires Inv(y) && Possible(y, e)
    ensures e.Send? ==> Entered(y.client, e) !! y.ledger.accepted && Entered(y.client, e) !! Turns(Log(y))
    ensures !e.Send? ==> Entered(y.client, e) <= y.ledger.accepted - y.ledger.lost
    ensures e.Attached? && y.client.link.attaching ==> Entered(y.client, e) == Fetched(y)
  {
    hide Receiving, ServerTells;
    if e.Attached? && e.raw.Some? && y.client.link.attaching {
      assert Holds(y, e.raw.value) && Fits(e.raw.value, y);
    }
  }

  lemma LocalIdentified(y: System, e: Event, env: Env)
    requires Inv(y) && Enabled(y, Local(e, env))
    ensures Identified(AfterLocal(y, e, env))
  {
    hide Apply, Receiving, Observed, Recorded, Journal, Durable, OwnFirst, OwnKept, Ids, Covers, Entered, Gone;
    EntriesMove(y, e, env);
    IdentityOf(y.client, e, env);
    if y.load.opening {
      StaysUnopened(y, e, env);
    }
    var s, t := y.client.store, Apply(y.client, e, env).0.store;
    assert s.writing == [] && t.writing != [] ==> Some(t.writing[0].key) == s.key;
  }

  lemma StaysUnopened(y: System, e: Event, env: Env)
    requires NotOpened(y) && y.load.opening && Possible(y, e)
    ensures NotOpened(AfterLocal(y, e, env))
  {
    hide Flushed, Observed;
    var (d, out) := Apply(y.client, e, env);
    if e.Send? {
      NothingFlushed(Enqueued(y.client, e.clientId, e.body), env);
    }
    assert forall o :: o in out ==> o.Refused?;
    assert Claims(out) == {};
    ObservedOf(y.client, e, env);
    assert y.life.accounts + [] == y.life.accounts;
  }

  lemma NothingFlushed(c: Client, env: Env)
    requires !c.link.connected
    ensures Flushed(c, env) == (c, [])
  {
  }

  /** Everything gone from the outbox is in the log or was rejected. */
  lemma GoneIsResolved(y: System, e: Event, env: Env)
    requires Inv(y) && Enabled(y, Local(e, env))
    ensures var y' := AfterLocal(y, e, env);
      && Unresolved(y') !! Gone(y.client, e)
      && Unresolved(y') <= Unresolved(y) + (if e.Send? then Entered(y.client, e) else {})
  {
    hide Apply, Outgoing, Receiving, Observed, Recorded;
    if e.Receive? && Gone(y.client, e) != {} {
      match e.frame
      case Ack(id, _, _) =>
        assert IsAckOf(e.frame, Log(y));
        assert Log(y)[e.frame.seqNo.value - 1] in Log(y);
      case _ =>
    }
  }

  /** The sets of sends after a local step, in terms of those before. */
  lemma LocalSets(y: System, e: Event, env: Env)
    requires Inv(y) && Enabled(y, Local(e, env))
    ensures var y' := AfterLocal(y, e, env);
      && Memory(y') == Memory(y) + Entered(y.client, e) - Gone(y.client, e)
      && Disk(y') == Disk(y)
      && Fetched(y') == (if e.Attached? && y.client.link.attaching then {} else Fetched(y))
      && y'.ledger.lost == y.ledger.lost && y'.ledger.durable == y.ledger.durable && y'.ledger.replaced == y.ledger.replaced
      && (e.Attached? ==> Gone(y.client, e) == {})
  {
    hide Apply, Outgoing, Receiving, Observed, Recorded, Ids, Journalled;
    EntriesMove(y, e, env);
    IdentityOf(y.client, e, env);
  }

  lemma LocalKept(y: System, e: Event, env: Env)
    requires Inv(y) && Enabled(y, Local(e, env))
    ensures Kept(AfterLocal(y, e, env))
  {
    hide Apply, Receiving, ServerTells, Observed, Recorded, Ids, Journal, OwnFirst, OwnKept, Durable, Journalled, Sound, Unresolved, Entered, Gone;
    EntriesMove(y, e, env);
    EnteredIsAccepted(y, e);
    GoneIsResolved(y, e, env);
    LocalSets(y, e, env);
    hide Memory, Disk, Fetched;
    MemoryIsAccepted(y, e, env);
    var y' := AfterLocal(y, e, env);
    forall id | id in Disk(y') && id in Unresolved(y') && y'.load.reading.Answered?
      ensures id in Memory(y') + Fetched(y')
    {
      assert id in Unresolved(y) ==> id in Disk(y) * Unresolved(y);
    }
  }

  lemma MemoryIsAccepted(y: System, e: Event, env: Env)
    requires Inv(y) && Enabled(y, Local(e, env))
    ensures var y' := AfterLocal(y, e, env);
      Memory(y) + Entered(y.client, e) <= y'.ledger.accepted - y'.ledger.lost
  {
    hide Apply, Receiving, Observed, Recorded, Ids, Journal, OwnFirst, OwnKept, Entered, Gone;
    EnteredIsAccepted(y, e);
  }

  /** The snapshots that a local step queues. */
  lemma QueuedSnapshots(y: System, e: Event, env: Env)
    requires Inv(y) && Enabled(y, Local(e, env))
    ensures var y' := AfterLocal(y, e, env);
      && Queue(y) <= Queue(y')
      && (forall i :: |Queue(y)| <= i < |Queue(y')| ==>
        Covers(Queue(y')[i], y'.client.store.entries, Reach(y.client, e, y'.client), Memory(y) + Entered(y.client, e)))
      && (forall w :: w in y'.client.store.writing ==> w.key == y.conversation)
  {
    hide Apply, Receiving, Observed, Recorded, Chained, Fits, Covers, Ids, OwnFirst, OwnKept, Durable;
    EntriesMove(y, e, env);
  }

  lemma LocalChained(y: System, e: Event, env: Env)
    requires Inv(y) && Enabled(y, Local(e, env))
    ensures var y' := AfterLocal(y, e, env);
      && (forall i :: 0 <= i < |Queue(y')| ==> Ids(Queue(y')[i].outbox) * Unresolved(y') <= Memory(y'))
      && Chained(Queue(y'), Unresolved(y'))
  {
    hide Apply, Observed, Recorded, Queue, Receiving, ServerTells, Unresolved, Gone, Entered, Ids, Identified, Reach, Kept;
    var y' := AfterLocal(y, e, env);
    var xs, xs' := Queue(y), Queue(y');
    QueuedSnapshots(y, e, env);
    LocalSets(y, e, env);
    GoneIsResolved(y, e, env);
    EnteredIsAccepted(y, e);
    forall i | 0 <= i < |xs'|
      ensures Ids(xs'[i].outbox) * Unresolved(y') <= Memory(y')
    {
      if i < |xs| {
        assert xs'[i] == xs[i] && Holds(y, xs[i]) && Fits(xs[i], y);
      }
    }
    forall i, j | 0 <= i < j < |xs'|
      ensures Ids(xs'[i].outbox) * Unresolved(y') <= Ids(xs'[j].outbox)
    {
      if j < |xs| {
        assert xs'[i] == xs[i] && xs'[j] == xs[j] && Holds(y, xs[i]) && Fits(xs[i], y);
      }
    }
  }

  lemma LocalDiskCovered(y: System, e: Event, env: Env, i: nat)
    requires Inv(y) && Enabled(y, Local(e, env))
    requires var y' := AfterLocal(y, e, env); y'.load.early <= i < |Queue(y')|
    ensures var y' := AfterLocal(y, e, env); Disk(y') * Unresolved(y') <= Ids(Queue(y')[i].outbox)
  {
    hide Apply, Observed, Recorded, Queue, Receiving, ServerTells, Unresolved, Gone, Entered, Ids, Reach;
    var y' := AfterLocal(y, e, env);
    var xs, xs' := Queue(y), Queue(y');
    QueuedSnapshots(y, e, env);
    LocalSets(y, e, env);
    GoneIsResolved(y, e, env);
    EnteredIsAccepted(y, e);
    LocalKept(y, e, env);
    QueueLengths(y, e, env);
    DiskIsAccepted(y);
    assert y'.load.done;
    if i < |xs| {
      assert xs'[i] == xs[i];
      forall id | id in Disk(y') && id in Unresolved(y')
        ensures id in Ids(xs[i].outbox)
      {
        assert id in Disk(y) * Unresolved(y);
      }
    }
  }

  lemma QueueLengths(y: System, e: Event, env: Env)
    requires Identified(y)
    ensures |Queue(y)| == |y.client.store.writing| && |Queue(AfterLocal(y, e, env))| == |AfterLocal(y, e, env).client.store.writing|
  {
    hide Apply, Observed, Recorded;
  }

  lemma DiskIsAccepted(y: System)
    requires Journal(y)
    ensures Disk(y) <= y.ledger.accepted - y.ledger.lost
  {
    hide Ids, Queue;
    if OnDisk(y).Some? {
      assert Holds(y, OnDisk(y).value) && Fits(OnDisk(y).value, y);
    }
  }

  lemma LocalFits(y: System, e: Event, env: Env, x: Snapshot)
    requires Inv(y) && Enabled(y, Local(e, env)) && Holds(AfterLocal(y, e, env), x)
    ensures Fits(x, AfterLocal(y, e, env))
  {
    hide Apply, Observed, Recorded, Chained, Queue, Ids, Entered, Gone, NoStaleTurns, OwnIdKnown, WithheldIsOwn, Unresolved;
    var y' := AfterLocal(y, e, env);
    LedgerOnlyGrows(y, e, env);
    if Holds(y, x) {
      assert Fits(x, y);
    } else {
      NewSnapshotFits(y, e, env, x);
    }
  }

  lemma NewSnapshotFits(y: System, e: Event, env: Env, x: Snapshot)
    requires Inv(y) && Enabled(y, Local(e, env)) && x in Queue(AfterLocal(y, e, env)) && x !in Queue(y)
    ensures Fits(x, AfterLocal(y, e, env))
  {
    hide Apply, Observed, Recorded, Chained, Queue, Ids, Entered, Gone, Unresolved, Receiving, ServerTells, Outgoing;
    var y' := AfterLocal(y, e, env);
    QueuedSnapshots(y, e, env);
    var i :| 0 <= i < |Queue(y')| && Queue(y')[i] == x;
    assert i >= |Queue(y)| by {
      assert forall j :: 0 <= j < |Queue(y)| ==> Queue(y)[j] in Queue(y) && Queue(y')[j] == Queue(y)[j];
    }
    MemoryIsAccepted(y, e, env);
    ReachIsKnown(y, e, env);
  }

  /** The furthest that a queued snapshot resumes from is known. */
  lemma ReachIsKnown(y: System, e: Event, env: Env)
    requires Inv(y) && Enabled(y, Local(e, env))
    ensures var y' := AfterLocal(y, e, env);
      var hi := Reach(y.client, e, y'.client);
      && hi.conversationId in {"", y.conversation}
      && hi.watermark <= |Log(y')| && forall w :: w <= hi.watermark ==> Span(0, w) <= y'.ledger.known
  {
    hide Apply, Observed, Recorded, Chained, Queue, Ids, Unresolved, NoStaleTurns, OwnIdKnown, WithheldIsOwn;
    var y' := AfterLocal(y, e, env);
    LocalReceiving(y, e, env);
    LocalIdentified(y, e, env);
    LedgerOnlyGrows(y, e, env);
    KnownUpTo(y');
    if e.Attached? && y.client.link.attaching && e.raw.Some? {
      assert Holds(y, e.raw.value) && Fits(e.raw.value, y);
      if e.raw.value.state.Some? {
        var top := e.raw.value.state.value.watermark;
        forall w | w <= top
          ensures Span(0, w) <= y'.ledger.known
        {
          assert Span(0, w) <= Span(0, top);
        }
      }
    }
  }

  /** All seqs up to the watermark have been accounted for, by this session or an earlier one. */
  lemma KnownUpTo(y: System)
    requires Receiving(y)
    ensures forall w :: w <= y.client.inbox.watermark ==> Span(0, w) <= y.ledger.known
  {
    var i, h := y.client.inbox, y.life;
    assert Span(0, i.watermark) <= Span(0, h.start) + Span(h.start, i.watermark);
  }

  lemma LocalJournal(y: System, e: Event, env: Env)
    requires Inv(y) && Enabled(y, Local(e, env))
    ensures Journal(AfterLocal(y, e, env))
  {
    hide Apply, Observed, Recorded, Queue, Inv, Unresolved, Gone, Entered, Ids, Chained, Fits, Holds;
    var y' := AfterLocal(y, e, env);
    LocalChained(y, e, env);
    QueuedSnapshots(y, e, env);
    forall i | y'.load.early <= i < |Queue(y')|
      ensures Disk(y') * Unresolved(y') <= Ids(Queue(y')[i].outbox)
    {
      LocalDiskCovered(y, e, env, i);
    }
    forall x | Holds(y', x)
      ensures Fits(x, y')
    {
      LocalFits(y, e, env, x);
    }
    StorageKept(y, e, env);
  }

  lemma StorageKept(y: System, e: Event, env: Env)
    requires Inv(y)
    ensures AfterLocal(y, e, env).storage == y.storage && y.storage.Keys <= {y.conversation}
  {
    hide Apply, Observed, Recorded;
  }

  lemma LocalOwnFirst(y: System, e: Event, env: Env)
    requires Inv(y) && Enabled(y, Local(e, env))
    ensures OwnFirst(AfterLocal(y, e, env))
  {
    hide Apply, Observed, Recorded, Queue, Receiving, ServerTells, Unresolved, Gone, Ids, Kept, Journal, Reach;
    var y' := AfterLocal(y, e, env);
    QueuedSnapshots(y, e, env);
    LocalSets(y, e, env);
    QueueLengths(y, e, env);
    if !y'.load.done {
      EnteredIsMine(y, e, env);
    }
    forall i | 0 <= i < y'.load.early && i < |Queue(y')|
      ensures Ids(Queue(y')[i].outbox) <= y'.ledger.mine
    {
      if i < |Queue(y)| {
        assert Queue(y')[i] == Queue(y)[i];
      }
    }
  }

  /** Until the load has ended, only this process's own sends enter. */
  lemma EnteredIsMine(y: System, e: Event, env: Env)
    requires Inv(y) && Enabled(y, Local(e, env)) && !AfterLocal(y, e, env).load.done
    ensures Entered(y.client, e) <= AfterLocal(y, e, env).ledger.mine && !y.load.done
  {
    hide Apply, Observed, Recorded, Queue, Receiving, ServerTells, Unresolved, Gone, Ids;
    EntriesMove(y, e, env);
    IdentityOf(y.client, e, env);
  }

  lemma RejectedIsEntry(y: System, e: Event)
    requires Kept(y) && e.Receive? && e.frame.Error?
    ensures Gone(y.client, e) <= y.ledger.accepted
  {
    hide Ids, Unresolved;
  }

  lemma LocalDurable(y: System, e: Event, env: Env)
    requires Inv(y) && Enabled(y, Local(e, env))
    ensures Durable(AfterLocal(y, e, env))
  {
    hide Apply, Observed, Recorded, Queue, Receiving, ServerTells, Unresolved, Gone, Entered, Ids, Kept, Journal, OwnFirst, OwnKept;
    var y' := AfterLocal(y, e, env);
    LocalSets(y, e, env);
    GoneIsResolved(y, e, env);
    EnteredIsAccepted(y, e);
    if e.Receive? && e.frame.Error? {
      RejectedIsEntry(y, e);
    }
    forall id | id in y'.ledger.durable && id in Unresolved(y')
      ensures id in Disk(y') + y'.ledger.replaced
    {
      assert id in y.ledger.durable * Unresolved(y);
    }
  }

  lemma LocalOwnKept(y: System, e: Event, env: Env)
    requires Inv(y) && Enabled(y, Local(e, env))
    ensures OwnKept(AfterLocal(y, e, env))
  {
    hide Apply, Observed, Recorded, Queue, Receiving, ServerTells, Unresolved, Gone, Ids, Kept, OwnFirst, Reach, Durable, Chained, Fits;
    var y' := AfterLocal(y, e, env);
    LocalSets(y, e, env);
    GoneIsResolved(y, e, env);
    QueuedSnapshots(y, e, env);
    DiskIsAccepted(y);
    hide Memory, Disk;
    forall i | 0 <= i < |Queue(y')|
      ensures Disk(y') * Unresolved(y') * y'.ledger.mine <= Ids(Queue(y')[i].outbox)
    {
      forall id | id in Disk(y') && id in Unresolved(y') && id in y'.ledger.mine
        ensures id in Ids(Queue(y')[i].outbox)
      {
        if i < |Queue(y)| {
          assert Queue(y')[i] == Queue(y)[i] && id in Disk(y) * Unresolved(y) * y.ledger.mine;
        }
      }
    }
  }

  lemma LocalKeepsInv(y: System, e: Event, env: Env)
    requires Inv(y) && Enabled(y, Local(e, env))
    ensures Inv(AfterLocal(y, e, env))
  {
    hide AfterLocal, ServerTells, Receiving, Kept, Journal, OwnFirst, OwnKept, Durable, Identified;
    LocalServerTells(y, e, env);
    LocalReceiving(y, e, env);
    LocalKept(y, e, env);
    LocalJournal(y, e, env);
    LocalOwnFirst(y, e, env);
    LocalOwnKept(y, e, env);
    LocalDurable(y, e, env);
    LocalIdentified(y, e, env);
  }

  // ---------------------------------------------------------------------
  // A message arrives
  // ---------------------------------------------------------------------

  lemma ArrivalFacts(y: System, m: Message, swallowAck: bool)
    requires ServerTells(y) && Enabled(y, Arrives(m, swallowAck))
    ensures var y' := AfterArrival(y, m, swallowAck);
      && Consistent(y'.server) && Log(y) <= Log(y') && |Log(y')| <= |Log(y)| + 1
      && (|Log(y')| == |Log(y)| + 1 ==> Log(y')[|Log(y)|].id == Some(m.id))
      && (forall f :: f in y'.acks && f !in y.acks ==> IsAckOf(f, Log(y')) && f.clientId in y.ledger.accepted)
  {
    hide Handled, Consistent;
    HandlingIsConsistent(y.server, y.conversation, m, None, swallowAck);
    HandlingAppends(y.server, y.conversation, m, None, swallowAck);
    AnswerIsAck(y.server, y.conversation, m, swallowAck);
  }

  lemma AnswerIsAck(s: Server, conversation: string, m: Message, swallowAck: bool)
    ensures var answer := Handled(s, conversation, m, None, swallowAck).1; answer.Some? ==> answer.value.Ack?
  {
  }

  lemma ArrivalTells(y: System, m: Message, swallowAck: bool)
    requires ServerTells(y) && Enabled(y, Arrives(m, swallowAck))
    ensures ServerTells(AfterArrival(y, m, swallowAck))
  {
    hide Handled, Consistent;
    ArrivalFacts(y, m, swallowAck);
    var y' := AfterArrival(y, m, swallowAck);
    forall i | 0 <= i < |Log(y)|
      ensures Log(y')[i] == Log(y)[i] && Log(y)[i].id != Some(m.id)
    {
      assert Log(y)[i] in Log(y);
    }
  }

  lemma ArrivalKeepsReceiving(y: System, m: Message, swallowAck: bool)
    requires ServerTells(y) && Receiving(y) && Enabled(y, Arrives(m, swallowAck))
    ensures Receiving(AfterArrival(y, m, swallowAck))
  {
    hide Handled, Consistent, Ids, Safe, ServerTells;
    ArrivalFacts(y, m, swallowAck);
    var y' := AfterArrival(y, m, swallowAck);
    assert forall i :: 0 <= i < |Log(y)| ==> Log(y')[i] == Log(y)[i];
    forall id | id in y'.client.inbox.ownIds
      ensures OwnIdKnown(y', id)
    {
      assert OwnIdKnown(y, id);
      var i :| 0 <= i < |Log(y)| && Log(y)[i].id == Some(id) && Accounted(y.client.inbox, i + 1);
      assert Log(y')[i].id == Some(id);
    }
    forall a | a in y'.life.accounts
      ensures WithheldIsOwn(y', a)
    {
      assert WithheldIsOwn(y, a);
    }
  }

  /** More of the log, and so fewer unresolved sends, and nothing else that the send side depends on. */
  lemma ArrivalKeepsOutgoing(y: System, m: Message, swallowAck: bool)
    requires ServerTells(y) && Outgoing(y) && Enabled(y, Arrives(m, swallowAck))
    ensures Outgoing(AfterArrival(y, m, swallowAck))
  {
    hide Handled, Consistent, Ids, Sound, ServerTells, Queue;
    ArrivalFacts(y, m, swallowAck);
    var y' := AfterArrival(y, m, swallowAck);
    assert Unresolved(y') <= Unresolved(y) by {
      assert forall a :: a in Log(y) ==> a in Log(y');
    }
    assert Queue(y') == Queue(y) by {
      SameQueue(y, y');
    }
    hide Unresolved;
    forall x | Holds(y', x)
      ensures Fits(x, y')
    {
      assert Holds(y, x) && Fits(x, y);
    }
  }

  lemma SameQueue(y: System, y': System)
    requires y'.client.store.writing == y.client.store.writing
    ensures Queue(y') == Queue(y)
  {
  }

  lemma ArrivalKeepsInv(y: System, m: Message, swallowAck: bool)
    requires Inv(y) && Enabled(y, Arrives(m, swallowAck))
    ensures Inv(AfterArrival(y, m, swallowAck))
  {
    ArrivalTells(y, m, swallowAck);
    ArrivalKeepsReceiving(y, m, swallowAck);
    ArrivalKeepsOutgoing(y, m, swallowAck);
    hide Handled, ServerTells, Receiving, Outgoing;
  }

  // ---------------------------------------------------------------------
  // The load
  // ---------------------------------------------------------------------

  lemma ReadKeepsInv(y: System, ok: bool)
    requires Inv(y) && Enabled(y, ReadDone(ok))
    ensures Inv(AfterRead(y, ok))
  {
    hide Consistent, Ids, Sound, Safe, Queue;
    var y' := AfterRead(y, ok);
    assert Log(y') == Log(y) && Queue(y') == Queue(y) && Unresolved(y') == Unresolved(y) by {
      SameQueue(y, y');
    }
    SameReceiving(y, y');
    hide Unresolved, Receiving;
    forall x | Holds(y', x)
      ensures Fits(x, y')
    {
      assert Holds(y, x) && Fits(x, y);
    }
  }

  lemma SameReceiving(y: System, y': System)
    requires Receiving(y) && y'.conversation == y.conversation && y'.server == y.server && y'.life == y.life
    requires y'.client.inbox == y.client.inbox && y'.client.store.entries == y.client.store.entries
    requires y'.ledger.known == y.ledger.known && y'.ledger.late == y.ledger.late && y'.ledger.accepted == y.ledger.accepted
    ensures Receiving(y')
  {
    hide Safe, Ids;
    assert Log(y') == Log(y);
    forall id | id in y'.client.inbox.ownIds
      ensures OwnIdKnown(y', id)
    {
      assert OwnIdKnown(y, id);
      var i :| 0 <= i < |Log(y)| && Log(y)[i].id == Some(id) && Accounted(y.client.inbox, i + 1);
      assert Log(y')[i].id == Some(id);
    }
    forall a | a in y'.life.accounts
      ensures WithheldIsOwn(y', a)
    {
      assert WithheldIsOwn(y, a);
    }
  }

  /** What resume() has in hand when its load ends: the stored sends and its own, from the stored watermark. */
  lemma LoadBrings(y: System)
    requires Inv(y) && Enabled(y, LoadDone)
    ensures var c := AfterLoad(y).client;
      && Sound(c) && Memory(AfterLoad(y)) == Memory(y) + Fetched(y)
      && c.inbox == Inbox(c.inbox.watermark, {}, {}, []) && c.link == y.client.link
      && c.store.writing == y.client.store.writing && c.store.key == y.client.store.key
      && 0 <= c.inbox.watermark <= |Log(y)| && Span(0, c.inbox.watermark) <= y.ledger.known
  {
    hide Consistent, Safe, Queue, Unknown, Unresolved, Chained;
    var raw := Raw(y.load.reading);
    assert Span(0, 0) == {};
    if raw.Some? {
      assert Holds(y, raw.value) && Fits(raw.value, y);
      LoadedIds(y.client.store, raw.value);
    }
  }

  lemma LoadKeepsReceiving(y: System)
    requires Inv(y) && Enabled(y, LoadDone)
    ensures Receiving(AfterLoad(y))
  {
    hide Consistent, Ids, Sound, LoadEnded, Outgoing;
    LoadBrings(y);
    EmptyTally(AfterLoad(y).client.inbox.watermark);
  }

  lemma LoadKeepsOutgoing(y: System)
    requires Inv(y) && Enabled(y, LoadDone)
    ensures Outgoing(AfterLoad(y))
  {
    hide Consistent, Ids, Sound, LoadEnded, Queue, Receiving, ServerTells;
    LoadBrings(y);
    var y' := AfterLoad(y);
    assert Unresolved(y') == Unresolved(y) && Disk(y') == Disk(y) && Fetched(y') == {};
    assert Queue(y') == Queue(y) && |Queue(y)| == |y.client.store.writing| by {
      SameQueue(y, y');
      QueueLength(y);
    }
    hide Unresolved;
    forall x | Holds(y', x)
      ensures Fits(x, y')
    {
      assert Holds(y, x) && Fits(x, y);
    }
    if Raw(y.load.reading).Some? {
      assert Holds(y, Raw(y.load.reading).value) && Fits(Raw(y.load.reading).value, y);
    }
    hide Memory, Disk, Fetched, Fits;
  }

  lemma QueueLength(y: System)
    ensures |Queue(y)| == |y.client.store.writing|
  {
  }

  lemma LoadKeepsInv(y: System)
    requires Inv(y) && Enabled(y, LoadDone)
    ensures Inv(AfterLoad(y))
  {
    hide ServerTells, Receiving, Outgoing, Identified, AfterLoad;
    LoadKeepsReceiving(y);
    LoadKeepsOutgoing(y);
    LoadKeepsRest(y);
  }

  lemma LoadKeepsRest(y: System)
    requires Inv(y) && Enabled(y, LoadDone)
    ensures ServerTells(AfterLoad(y)) && Identified(AfterLoad(y))
  {
    hide Consistent, Receiving, Outgoing, LoadEnded, Sound, Ids;
    LoadBrings(y);
    assert Log(AfterLoad(y)) == Log(y);
  }

  // ---------------------------------------------------------------------
  // A write ends
  // ---------------------------------------------------------------------

  /** A write that ends moves the oldest queued snapshot into the storage, or drops it. */
  lemma WriteShifts(y: System, ok: bool)
    requires Journal(y) && y.client.store.writing != []
    ensures var y' := AfterWrite(y, ok);
      && Queue(y) == [y.client.store.writing[0].snapshot] + Queue(y')
      && OnDisk(y') == (if ok then Some(Queue(y)[0]) else OnDisk(y))
      && y'.storage.Keys <= {y.conversation}
  {
    assert y.client.store.writing[0] in y.client.store.writing;
    hide Journal, Ids, Unresolved;
    var w := y.client.store.writing;
    assert SnapshotsOf(w) == [w[0].snapshot] + SnapshotsOf(w[1..]);
  }

  /** The sets of sends after a write; only an early one can drop a send. */
  lemma WriteSets(y: System, ok: bool)
    requires Inv(y) && y.client.store.writing != []
    ensures var y' := AfterWrite(y, ok);
      && Memory(y') == Memory(y) && Fetched(y') == Fetched(y)
      && Disk(y') == (if ok then Ids(Queue(y)[0].outbox) else Disk(y))
      && Unresolved(y') == Unresolved(y) * (Memory(y) + Disk(y') + Fetched(y))
      && y'.ledger.lost == y.ledger.lost + (Unresolved(y) - Unresolved(y'))
      && (y.load.done || !ok ==> y'.ledger.lost == y.ledger.lost)
  {
    hide Consistent, Ids, Sound, Receiving, Queue, Chained, Fits;
    WriteShifts(y, ok);
  }

  lemma WriteKeepsKept(y: System, ok: bool)
    requires Inv(y) && y.client.store.writing != []
    ensures Kept(AfterWrite(y, ok))
  {
    hide Consistent, Ids, Receiving, Queue, Chained, Fits, Unresolved, Durable, OwnFirst, OwnKept;
    WriteSets(y, ok);
    WriteShifts(y, ok);
    WrittenIsSound(y, ok);
    hide AfterWrite, Memory, Disk, Fetched, Sound;
    WriteKeepsFields(y, ok);
  }

  lemma WriteKeepsFields(y: System, ok: bool)
    requires y.client.store.writing != []
    ensures var y' := AfterWrite(y, ok);
      && y'.load.done == y.load.done && y'.load.reading == y.load.reading && y'.ledger.accepted == y.ledger.accepted
      && y'.load.early == (if y.load.early > 0 then y.load.early - 1 else 0)
      && y'.ledger.mine == y.ledger.mine
      && y'.client.store.writing == y.client.store.writing[1..] && y'.conversation == y.conversation
      && Log(y') == Log(y) && y'.ledger.known == y.ledger.known
  {
    hide Ids;
  }

  lemma WrittenIsSound(y: System, ok: bool)
    requires Sound(y.client) && y.client.store.writing != []
    ensures Sound(AfterWrite(y, ok).client)
  {
    hide Ids;
  }

  lemma WriteKeepsJournal(y: System, ok: bool)
    requires Inv(y) && y.client.store.writing != []
    ensures Journal(AfterWrite(y, ok))
  {
    hide Consistent, Ids, Receiving, Queue, Unresolved, Durable, OwnFirst, OwnKept, Sound;
    var y' := AfterWrite(y, ok);
    WriteSets(y, ok);
    WriteShifts(y, ok);
    WriteKeepsFields(y, ok);
    hide AfterWrite, Memory, Disk, Fetched;
    var xs, xs' := Queue(y), Queue(y');
    assert forall i :: 0 <= i < |xs'| ==> xs'[i] == xs[i + 1];
    forall x | Holds(y', x)
      ensures Fits(x, y')
    {
      WriteKeepsFits(y, ok, x);
    }
    forall i | y'.load.early <= i < |xs'|
      ensures Disk(y') * Unresolved(y') <= Ids(xs'[i].outbox)
    {
      assert xs'[i] == xs[i + 1];
    }
  }

  lemma WriteKeepsFits(y: System, ok: bool, x: Snapshot)
    requires Inv(y) && y.client.store.writing != [] && Holds(AfterWrite(y, ok), x)
    ensures Fits(x, AfterWrite(y, ok))
  {
    hide Consistent, Ids, Receiving, Queue, Unresolved, Durable, OwnFirst, OwnKept, Sound, Chained;
    var y' := AfterWrite(y, ok);
    WriteSets(y, ok);
    WriteShifts(y, ok);
    WriteKeepsFields(y, ok);
    var xs, xs' := Queue(y), Queue(y');
    assert x in xs' ==> x in xs;
    assert xs[0] in xs;
    assert Holds(y, x) && Fits(x, y);
    if x in xs {
      var i :| 0 <= i < |xs| && xs[i] == x;
      assert Ids(xs[i].outbox) * Unresolved(y) <= Memory(y);
    }
  }

  lemma WriteKeepsOwnFirst(y: System, ok: bool)
    requires Inv(y) && y.client.store.writing != []
    ensures OwnFirst(AfterWrite(y, ok))
  {
    hide Consistent, Ids, Receiving, Queue, Unresolved, Durable, Journal, OwnKept, Sound;
    var y' := AfterWrite(y, ok);
    WriteSets(y, ok);
    WriteKeepsFields(y, ok);
    assert Journal(y);
    WriteShifts(y, ok);
    hide AfterWrite, Memory, Disk, Fetched;
    var xs, xs' := Queue(y), Queue(y');
    forall i | 0 <= i < y'.load.early && i < |xs'|
      ensures Ids(xs'[i].outbox) <= y'.ledger.mine
    {
      assert xs'[i] == xs[i + 1];
    }
  }

  lemma WriteKeepsDurable(y: System, ok: bool)
    requires Inv(y) && y.client.store.writing != []
    ensures Durable(AfterWrite(y, ok))
  {
    hide Consistent, Ids, Receiving, Queue, Unresolved, OwnFirst, Sound, Chained;
    var y' := AfterWrite(y, ok);
    WriteSets(y, ok);
    WriteKeepsFields(y, ok);
    WriteShifts(y, ok);
    QueueLength(y);
    var x := Queue(y)[0];
    assert x in Queue(y) && Holds(y, x) && Fits(x, y);
    WritesDurable(y, ok);
    UnresolvedIsAccepted(y);
    hide AfterWrite, Memory, Disk, Fetched;
    if ok {
      EarlyWriteHoldsOwn(y);
    }
  }

  /** Of what is stored and unresolved, an early snapshot holds exactly what this process sent, and a later one everything. */
  lemma EarlyWriteHoldsOwn(y: System)
    requires Journal(y) && OwnFirst(y) && OwnKept(y) && Queue(y) != []
    ensures Disk(y) * Unresolved(y) - Ids(Queue(y)[0].outbox) == Displaced(y)
  {
    hide Ids, Queue, Unresolved, Disk, Memory;
    if y.load.early == 0 {
      assert y.load.early <= 0 < |Queue(y)|;
    }
  }

  lemma WriteKeepsOwnKept(y: System, ok: bool)
    requires Inv(y) && y.client.store.writing != []
    ensures OwnKept(AfterWrite(y, ok))
  {
    hide Consistent, Ids, Receiving, Queue, Unresolved, Durable, OwnFirst, Sound;
    var y' := AfterWrite(y, ok);
    WriteSets(y, ok);
    WriteKeepsFields(y, ok);
    WriteShifts(y, ok);
    hide AfterWrite, Memory, Disk, Fetched;
    var xs, xs' := Queue(y), Queue(y');
    forall i | 0 <= i < |xs'|
      ensures Disk(y') * Unresolved(y') * y'.ledger.mine <= Ids(xs'[i].outbox)
    {
      assert xs'[i] == xs[i + 1];
      assert Ids(xs[0].outbox) * Unresolved(y) <= Ids(xs[i + 1].outbox);
    }
  }

  lemma UnresolvedIsAccepted(y: System)
    ensures Unresolved(y) <= y.ledger.accepted && Unresolved(y) !! y.ledger.lost
  {
  }

  lemma WritesDurable(y: System, ok: bool)
    requires y.client.store.writing != []
    ensures var written := Ids(y.client.store.writing[0].snapshot.outbox);
      && AfterWrite(y, ok).ledger.durable == (if ok then y.ledger.durable + written else y.ledger.durable)
      && AfterWrite(y, ok).ledger.replaced == (if ok then y.ledger.replaced + Displaced(y) - written else y.ledger.replaced)
  {
    hide Ids;
  }

  lemma WriteKeepsInv(y: System, ok: bool)
    requires Inv(y) && Enabled(y, WriteDone(ok))
    ensures Inv(AfterWrite(y, ok))
  {
    WriteKeepsKept(y, ok);
    WriteKeepsJournal(y, ok);
    WriteKeepsOwnFirst(y, ok);
    WriteKeepsOwnKept(y, ok);
    WriteKeepsDurable(y, ok);
    SameReceiving(y, AfterWrite(y, ok));
    WriteKeepsRest(y, ok);
    hide ServerTells, Receiving, Kept, Journal, OwnFirst, OwnKept, Durable, Identified;
  }

  lemma WriteKeepsRest(y: System, ok: bool)
    requires ServerTells(y) && Identified(y) && y.client.store.writing != []
    ensures ServerTells(AfterWrite(y, ok)) && Identified(AfterWrite(y, ok))
  {
    hide Consistent, Ids;
    assert Log(AfterWrite(y, ok)) == Log(y);
  }

  // ---------------------------------------------------------------------
  // A crash
  // ---------------------------------------------------------------------

  /** Memory and pending writes are gone; what is on disk is not. */
  lemma CrashSets(y: System, birth: Birth)
    ensures var y' := AfterCrash(y, birth);
      && Memory(y') == {} && Fetched(y') == {} && Disk(y') == Disk(y) && Queue(y') == []
      && Unresolved(y') == Unresolved(y) * Disk(y)
      && y'.ledger.lost == y.ledger.lost + (Unresolved(y) - Disk(y))
      && y'.client.store.writing == [] && Log(y') == Log(y) && OnDisk(y') == OnDisk(y)
  {
    assert Ids([]) == {};
  }

  lemma CrashKeepsOutgoing(y: System, birth: Birth)
    requires Inv(y)
    ensures Outgoing(AfterCrash(y, birth))
  {
    hide Consistent, Receiving, Queue, Unresolved, Sound, Born;
    var y' := AfterCrash(y, birth);
    CrashSets(y, birth);
    UnresolvedIsAccepted(y);
    BornIsSound(birth, y.conversation, y.client.link.canSync);
    hide Ids, Memory, Disk, Fetched;
    forall x | Holds(y', x)
      ensures Fits(x, y')
    {
      assert Holds(y, x) && Fits(x, y);
      DiskHolds(y, x);
    }
  }

  lemma BornIsSound(birth: Birth, conversation: string, canSync: bool)
    ensures Sound(Born(birth, conversation, canSync))
  {
    assert Ids([]) == {};
  }

  lemma DiskHolds(y: System, x: Snapshot)
    requires OnDisk(y) == Some(x)
    ensures Disk(y) == Ids(x.outbox)
  {
  }

  lemma CrashKeepsRest(y: System, birth: Birth)
    requires Inv(y)
    ensures var y' := AfterCrash(y, birth); ServerTells(y') && Receiving(y') && Identified(y')
  {
    hide Consistent, Ids, Outgoing, Safe;
    var y' := AfterCrash(y, birth);
    assert Log(y') == Log(y) && Memory(y') == {} by {
      CrashSets(y, birth);
    }
    assert Safe(y'.client.inbox, y'.life) by {
      EmptyTally(0);
      BornSafe(y, birth);
    }
    assert Span(0, 0) == {} && Seqs([]) == {};
  }

  lemma BornSafe(y: System, birth: Birth)
    ensures Safe(AfterCrash(y, birth).client.inbox, AfterCrash(y, birth).life)
  {
    EmptyTally(0);
  }

  lemma StepKeepsInv(y: System, t: Step)
    requires Inv(y) && Enabled(y, t)
    ensures Inv(Next(y, t))
  {
    hide ServerTells, Receiving, Outgoing, Identified, AfterLocal, AfterArrival, AfterRead, AfterLoad, AfterWrite, AfterCrash;
    match t
    case Local(e, env) => LocalKeepsInv(y, e, env);
    case Arrives(m, swallowAck) => ArrivalKeepsInv(y, m, swallowAck);
    case ReadDone(ok) => ReadKeepsInv(y, ok);
    case LoadDone => LoadKeepsInv(y);
    case WriteDone(ok) => WriteKeepsInv(y, ok);
    case Crash(birth) =>
      CrashKeepsOutgoing(y, birth);
      CrashKeepsRest(y, birth);
  }

  // ---------------------------------------------------------------------
  // Whole runs
  // ---------------------------------------------------------------------

  ghost predicate IsRun(y: System, ts: seq<Step>)
    decreases |ts|
  {
    ts == [] || (Enabled(y, ts[0]) && IsRun(Next(y, ts[0]), ts[1..]))
  }

  ghost function After(y: System, ts: seq<Step>): System
    requires IsRun(y, ts)
    decreases |ts|
  {
    if ts == [] then y else After(Next(y, ts[0]), ts[1..])
  }

  /** A conversation is taken up for the first time, with whatever other participants have said in it. */
  function Beginning(conversation: string, server: Server, birth: Birth, canSync: bool): System {
    System(conversation, Born(birth, conversation, canSync), History(0, [], {}, 0), Unloaded(birth), map[], server, {}, {},
           Ledger({}, {}, {}, {}, {}, {}, {}, {}, map[]))
  }

  ghost predicate Ready(conversation: string, server: Server) {
    var log := Transcript(server, conversation);
    && conversation != "" && Consistent(server)
    && (forall i :: 0 <= i < |log| ==> log[i].id.Some?)
    && (forall i, j :: 0 <= i < j < |log| ==> log[i].id != log[j].id)
  }

  lemma BeginningIsFine(conversation: string, server: Server, birth: Birth, canSync: bool)
    requires Ready(conversation, server)
    ensures Inv(Beginning(conversation, server, birth, canSync))
  {
    hide Consistent, Sound, Safe;
    var y := Beginning(conversation, server, birth, canSync);
    BornSafe(y, birth);
    BornIsSound(birth, conversation, canSync);
    assert Span(0, 0) == {} && Seqs([]) == {};
    assert Ids([]) == {};
  }

  lemma {:induction false} RunKeepsInv(y: System, ts: seq<Step>)
    requires Inv(y) && IsRun(y, ts)
    ensures Inv(After(y, ts))
    decreases |ts|
  {
    hide Inv, Next, Enabled;
    if ts != [] {
      StepKeepsInv(y, ts[0]);
      RunKeepsInv(Next(y, ts[0]), ts[1..]);
    }
  }

  /**
   * Exactly-once send. In every run, with messages, acks and frames lost,
   * repeated, delayed and reordered, connections dropped, reads and writes of the
   * storage failing or late, and crashes followed by start() or resume():
   * the log holds no clientId twice; every ack ever sent names the position of
   * its clientId; an accepted send is in the outbox, in the stored snapshot or the one
   * about to be merged, in the log, rejected, or lost, and once the storage has been loaded it
   * is in the outbox or resolved; and of the unresolved sends that ever were in the storage exactly
   * those are missing there that an early snapshot of a later process has replaced, which are the
   * only ones of them that can be lost.
   */
  lemma ExactlyOnceSend(conversation: string, server: Server, birth: Birth, canSync: bool, ts: seq<Step>)
    requires Ready(conversation, server) && IsRun(Beginning(conversation, server, birth, canSync), ts)
    ensures var y := After(Beginning(conversation, server, birth, canSync), ts);
      && (forall i, j :: 0 <= i < j < |Log(y)| && Log(y)[i].clientId.Some? ==> Log(y)[i].clientId != Log(y)[j].clientId)
      && (forall f :: f in y.acks ==> IsAckOf(f, Log(y)))
      && y.ledger.accepted <= Memory(y) + Disk(y) + Fetched(y) + Turns(Log(y)) + y.ledger.rejected + y.ledger.lost
      && (y.load.done ==> y.ledger.accepted <= Memory(y) + Turns(Log(y)) + y.ledger.rejected + y.ledger.lost)
      && y.ledger.durable * Unresolved(y) - Disk(y) == y.ledger.replaced * Unresolved(y)
      && y.ledger.durable * y.ledger.lost <= y.ledger.replaced
  {
    hide Receiving, Ids, Identified, Memory, Disk, Fetched;
    var y0 := Beginning(conversation, server, birth, canSync);
    BeginningIsFine(conversation, server, birth, canSync);
    RunKeepsInv(y0, ts);
    var y := After(y0, ts);
    forall i, j | 0 <= i < j < |Log(y)| && Log(y)[i].clientId.Some?
      ensures Log(y)[i].clientId != Log(y)[j].clientId
    {
      StoredOnce(y.server, y.conversation, i, j);
    }
  }

  /**
   * Gap-free receive. In every such run, the current session has accounted for
   * exactly (start, watermark] and the seqs it holds beyond, each once; what it
   * did not show to the application is an own send; and every watermark it ever
   * claimed in a hello or sync is at most the head of the log, with all seqs up
   * to it accounted for by this session or one before it.
   */
  lemma GapFreeReceive(conversation: string, server: Server, birth: Birth, canSync: bool, ts: seq<Step>)
    requires Ready(conversation, server) && IsRun(Beginning(conversation, server, birth, canSync), ts)
    ensures var y := After(Beginning(conversation, server, birth, canSync), ts);
      && Tally(y.life.accounts, y.life.start, y.client.inbox.watermark, y.client.inbox.seen)
      && (forall a :: a in y.life.accounts ==> WithheldIsOwn(y, a))
      && (forall w :: w in y.life.claims ==> w <= |Log(y)| && Span(0, w) <= y.ledger.known)
  {
    hide Outgoing, Ids, Identified;
    var y0 := Beginning(conversation, server, birth, canSync);
    BeginningIsFine(conversation, server, birth, canSync);
    RunKeepsInv(y0, ts);
    KnownUpTo(After(y0, ts));
  }

  /** Some run from the beginning of a conversation leads to `y`. */
  ghost predicate Reachable(y: System) {
    exists conversation, server, birth, canSync, ts ::
      && Ready(conversation, server) && IsRun(Beginning(conversation, server, birth, canSync), ts)
      && y == After(Beginning(conversation, server, birth, canSync), ts)
  }

  lemma ReachableIsFine(y: System)
    requires Reachable(y)
    ensures Inv(y)
  {
    hide Inv;
    var conversation, server, birth, canSync, ts :|
      && Ready(conversation, server) && IsRun(Beginning(conversation, server, birth, canSync), ts)
      && y == After(Beginning(conversation, server, birth, canSync), ts);
    BeginningIsFine(conversation, server, birth, canSync);
    RunKeepsInv(Beginning(conversation, server, birth, canSync), ts);
  }

  /** In a reachable state, a send leaves the outbox only when it is in the log or is rejected at this event. */
  lemma LeavesOnlyWhenResolved(y: System, e: Event, env: Env, id: string)
    requires Reachable(y) && Enabled(y, Local(e, env))
    requires id in Ids(y.client.store.entries) && id !in Ids(AfterLocal(y, e, env).client.store.entries)
    ensures id in Turns(Log(y)) + AfterLocal(y, e, env).ledger.rejected
  {
    hide Apply, Receiving, Observed, Recorded, Reachable;
    ReachableIsFine(y);
    EntriesMove(y, e, env);
    if e.frame.Ack? {
      assert IsAckOf(e.frame, Log(y));
      assert Log(y)[e.frame.seqNo.value - 1] in Log(y);
    }
  }

  /** Whose frame reports a send as stored. */
  predicate Reports(f: Frame, o: Output) {
    match f
    case Ack(id, _, n) => o == Sent(id, n)
    case Persistent(a) => a.clientId.Some? && a.seqNo > 0 && o == Sent(a.clientId.value, Some(a.seqNo))
    case _ => false
  }

  lemma SentOutputs(c: Client, e: Event, env: Env, o: Output)
    requires o in Apply(c, e, env).1 && o.Sent?
    ensures e.Receive? && Reports(e.frame, o)
  {
    hide ApplyPersistent, ApplyAck, ApplyError, Received;
    if !e.Receive? {
      OutputsWithoutFrame(c, e, env);
    } else {
      match e.frame
      case Ack(_, _, _) => InboxAfterAck(c, e.frame, env);
      case Error(fault) => InboxAfterError(c, fault, env);
      case Persistent(a) =>
        PersistentKeepsReceivedInbox(c, a, env);
        ReceivedReports(c, a);
      case _ =>
    }
  }

  lemma ReceivedReports(c: Client, a: Activity)
    ensures forall o :: o in Received(c, a).1 && o.Sent? ==> a.clientId.Some? && o == Sent(a.clientId.value, Some(a.seqNo))
  {
  }

  /** The result that a caller of `send` gets is the position of the send in the log. */
  lemma SendResultIsPosition(y: System, e: Event, env: Env, o: Output)
    requires Reachable(y) && Enabled(y, Local(e, env)) && o in Apply(y.client, e, env).1 && o.Sent?
    ensures o.seqNo.Some? && 1 <= o.seqNo.value <= |Log(y)| && Log(y)[o.seqNo.value - 1].clientId == Some(o.clientId)
  {
    hide Apply, Reachable;
    ReachableIsFine(y);
    SentOutputs(y.client, e, env, o);
    SpokenOf(y, e);
  }

  /**
   * Resends follow the replay. In any reachable state, when a new connection
   * reports the head of the log and replays it in order, with anything that
   * does not end the replay in between, every unacknowledged send that the log
   * holds and the session misses is settled with its position; and it is not
   * written again and does not stay in the outbox, unless an attach during the
   * replay merges it after its turn has been accounted for. What is in the outbox
   * and in the log beyond the watermark is missed, unless an earlier attach merged it.
   */
  lemma ReplaySettlesStoredSends(y: System, f: Frame, from: nat, es: seq<(Event, Env)>)
    requires Reachable(y) && y.client.link.connected && y.client.inbox.watermark < |Log(y)|
    requires f.Welcome? && f.head == Some(|Log(y)|) && Genuine(y, f)
    requires from <= y.client.inbox.watermark
    requires ConversationReplay.IsReplay(ApplyWelcome(y.client, f), es, ConversationReplay.MissingFrom(y.client, Log(y)), from)
    ensures var (d, out) := ConversationReplay.RunEvents(ApplyWelcome(y.client, f), es);
      var passed := ConversationReplay.Passed(ApplyWelcome(y.client, f), es, Log(y));
      && |Log(y)| <= d.inbox.watermark
      && (forall k :: Awaited(y, k) ==> Sent(Log(y)[k].clientId.value, Some(k + 1)) in out)
      && (forall k :: Awaited(y, k) && k + 1 !in passed ==> AtRest(Log(y)[k].clientId.value, d, out))
    ensures forall k :: y.client.inbox.watermark <= k < |Log(y)| && IsOwnTurn(y.client, Log(y)[k]) ==>
      Awaited(y, k) || Log(y)[k].clientId.value in y.ledger.late
  {
    hide ConversationReplay.RunEvents, ConversationReplay.IsReplay, ConversationReplay.Passed, ApplyWelcome, Reachable;
    ReachableIsFine(y);
    LogIsLog(y);
    NothingResets(y, Receive(f));
    ConversationReplay.LostAcksAreSettled(y.client, Log(y), f, from, es);
    var m := ConversationReplay.MissingFrom(y.client, Log(y));
    var rest := ConversationReplay.Except(m, ConversationReplay.Passed(ApplyWelcome(y.client, f), es, Log(y)));
    forall k | Awaited(y, k)
      ensures ConversationReplay.TurnAt(m, k)
    {
    }
    forall k | Awaited(y, k) && k + 1 !in rest.seen - m.seen
      ensures ConversationReplay.TurnAt(rest, k)
    {
    }
  }

  /** The log holds at `k` a turn that waits in the outbox and that the session has not accounted for. */
  predicate Awaited(y: System, k: int) {
    0 <= k < |Log(y)| && IsOwnTurn(y.client, Log(y)[k]) && !Accounted(y.client.inbox, k + 1)
  }

  /** The send was not written, and is no longer waiting. */
  predicate AtRest(id: string, d: Client, out: seq<Output>) {
    id !in WrittenIds(out) && id !in Ids(d.store.entries)
  }

  lemma LogIsLog(y: System)
    requires ServerTells(y)
    ensures ConversationReplay.IsLog(Log(y))
  {
    forall i, j | 0 <= i < j < |Log(y)| && Log(y)[i].clientId.Some?
      ensures Log(y)[i].clientId != Log(y)[j].clientId
    {
      StoredOnce(y.server, y.conversation, i, j);
    }
  }
}
