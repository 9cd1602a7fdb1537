/**
 * The session of the TypeScript client: it remembers frames that arrive out of
 * order, keeps sends in a persistent outbox until they are acknowledged, and
 * resends them after the replay of a new connection.
 */
module ConversationProtocol {
  import opened Prefix
  import opened Outbox

  datatype Phase = Idle | Connecting | Open | Reconnecting | Closed

  /** `Cancelled`: the timer was cleared but its handle is still held, so the session takes it for armed. */
  datatype GapTimer = Unset | Armed(highest: int) | Cancelled

  datatype Activity = Activity(seqNo: int, id: Option<string>, clientId: Option<string>, fromUser: bool, text: string)

  datatype Fault = Fault(
    code: string,
    retryable: bool,
    clientId: Option<string>,
    retryAfterMs: Option<int>,
    watermark: Option<int>,
    frameType: Option<string>)

  datatype Frame =
    | Welcome(conversationId: string, head: Option<int>, maxInFlight: Option<int>)
    | Ack(clientId: string, id: string, seqNo: Option<int>)
    | Error(fault: Fault)
    | ReplayTruncated(headSeq: int, stoppedAt: int)
    | Heartbeat(head: Option<int>)
    | Persistent(activity: Activity)
    | Signal

  /** Positions in the log: the contiguous watermark, what was seen beyond it, and own turns. */
  datatype Inbox = Inbox(watermark: int, seen: set<int>, ownSeqs: set<int>, ownIds: seq<string>)

  /** The connection, and the replay and timers that belong to it. */
  datatype Link = Link(
    conversationId: string,
    phase: Phase,
    connected: bool,
    canSync: bool,
    welcomed: bool,
    stopped: bool,
    fatal: bool,
    replaying: bool,
    replayTarget: int,
    gapTimer: GapTimer,
    syncFrom: Option<int>,
    attaching: bool)

  /** Sends on the wire, sends waiting to be retried, and callers waiting for a result. */
  datatype Window = Window(maxInFlight: int, inFlight: set<string>, retryAt: map<string, int>, waiting: set<string>)

  datatype Client = Client(inbox: Inbox, link: Link, window: Window, store: Store)

  /** What the session does that others can see. */
  datatype Output =
    | Emitted(activity: Activity)
    | Sent(clientId: string, seqNo: Option<int>)
    | SendFailed(clientId: string)
    | Refused(clientId: string)
    | Written(entry: Entry)
    | HelloSent(claimed: Option<int>)
    | SyncSent(resumeFrom: int)

  /** The clock, and how many more sends the transport accepts during the event. */
  datatype Env = Env(now: int, room: nat)

  /** Nothing is sent; the clock does not matter then. */
  const CALM := Env(0, 0)

  const OWN_ID_LIMIT := 1000

  // ---------------------------------------------------------------------
  // Inbox
  // ---------------------------------------------------------------------

  function Marked(i: Inbox, n: int): Inbox {
    if n <= i.watermark then i
    else
      var seen := i.seen + {n};
      var w := Absorb(i.watermark, seen);
      var passed := Span(i.watermark, w);
      i.(watermark := w, seen := seen - passed, ownSeqs := i.ownSeqs - passed)
  }

  function OwnIdAdded(ids: seq<string>, id: string): seq<string> {
    var grown := if id in ids then ids else ids + [id];
    if |grown| > OWN_ID_LIMIT then grown[1..] else grown
  }

  function Owned(i: Inbox, n: Option<int>, id: string): Inbox {
    i.(ownSeqs := if n.Some? && n.value > i.watermark then i.ownSeqs + {n.value} else i.ownSeqs,
       ownIds := OwnIdAdded(i.ownIds, id))
  }

  predicate Accounted(i: Inbox, n: int) {
    n <= i.watermark || n in i.seen
  }

  function Restarted(i: Inbox): Inbox {
    i.(watermark := 0, seen := {})
  }

  // ---------------------------------------------------------------------
  // Outbox
  // ---------------------------------------------------------------------

  function StateSaved(c: Client): Client {
    if c.link.conversationId == "" then c
    else c.(store := StateSet(c.store, ResumeState(c.link.conversationId, c.inbox.watermark)))
  }

  function Seen(c: Client, n: int): Client {
    var d := c.(inbox := Marked(c.inbox, n));
    if d.inbox.watermark != c.inbox.watermark then StateSaved(d) else d
  }

  /** Whether the entry may go on the wire now. */
  predicate Due(c: Client, e: Entry, now: int) {
    e.clientId !in c.window.inFlight && (e.clientId in c.window.retryAt ==> c.window.retryAt[e.clientId] <= now)
  }

  predicate CanWrite(c: Client) {
    c.link.phase == Open && c.link.connected && !c.link.replaying
  }

  function WrittenOnce(c: Client, e: Entry): Client {
    var w := c.window;
    c.(window := w.(retryAt := w.retryAt - {e.clientId}, inFlight := w.inFlight + {e.clientId}),
       store := Touched(c.store, e.clientId))
  }

  function FlushedFrom(c: Client, i: nat, env: Env): (Client, seq<Output>)
    requires i <= |c.store.entries|
    decreases |c.store.entries| - i
  {
    if i == |c.store.entries| || |c.window.inFlight| >= c.window.maxInFlight then (c, [])
    else
      var e := c.store.entries[i];
      if !Due(c, e, env.now) then FlushedFrom(c, i + 1, env)
      else if env.room == 0 then (c.(window := c.window.(retryAt := c.window.retryAt - {e.clientId})), [])
      else
        TouchedIds(c.store, e.clientId);
        var (d, out) := FlushedFrom(WrittenOnce(c, e), i + 1, env.(room := env.room - 1));
        (d, [Written(e)] + out)
  }

  function Flushed(c: Client, env: Env): (Client, seq<Output>) {
    if CanWrite(c) then FlushedFrom(c, 0, env) else (c, [])
  }

  function Caught(c: Client): Client {
    c.(link := c.link.(replaying := false))
  }

  function ReplayEnded(c: Client, env: Env): (Client, seq<Output>) {
    if c.link.replaying then Flushed(Caught(c), env) else (c, [])
  }

  function Forgotten(w: Window, clientId: string): Window {
    w.(inFlight := w.inFlight - {clientId}, retryAt := w.retryAt - {clientId}, waiting := w.waiting - {clientId})
  }

  function SettledSend(c: Client, clientId: string, id: string, n: Option<int>): (Client, seq<Output>) {
    var known := clientId in Ids(c.store.entries) || clientId in c.window.waiting;
    (c.(inbox := Owned(c.inbox, n, id),
        window := Forgotten(c.window, clientId),
        store := Removed(c.store, clientId)),
     if known then [Sent(clientId, n)] else [])
  }

  function GapChecked(c: Client, highest: int): Client {
    if c.link.gapTimer != Unset || c.link.replaying || c.window.inFlight != {} || !c.link.connected || !c.link.canSync || highest <= c.inbox.watermark
    then c
    else c.(link := c.link.(gapTimer := Armed(highest)))
  }

  // ---------------------------------------------------------------------
  // Frames
  // ---------------------------------------------------------------------

  /** Whether `f` makes the session start over from watermark 0. */
  predicate Resets(c: Client, f: Frame) {
    match f
    case Welcome(id, _, _) => c.link.conversationId != "" && id != "" && id != c.link.conversationId
    case Error(fault) =>
      && !NamesSend(c, fault) && fault.code == "invalid_watermark"
      && fault.frameType in {None, Some("hello"), Some("sync")}
    case _ => false
  }

  predicate NamesSend(c: Client, fault: Fault) {
    fault.clientId.Some? && fault.clientId.value != "" && fault.clientId.value in Ids(c.store.entries)
  }

  /** The conversation a welcome names, which resets the positions when it is another one. */
  function Joined(c: Client, f: Frame): Client
    requires f.Welcome?
  {
    var window := if f.maxInFlight.Some? && f.maxInFlight.value > 0 then f.maxInFlight.value else c.window.maxInFlight;
    c.(inbox := if Resets(c, f) then Restarted(c.inbox) else c.inbox,
       link := c.link.(conversationId := if f.conversationId != "" then f.conversationId else c.link.conversationId, welcomed := true),
       window := c.window.(maxInFlight := window))
  }

  /** The connection is open, behind the server's head or not, and the outbox follows the conversation. */
  function Opened(c: Client, head: Option<int>): Client {
    var id := c.link.conversationId;
    var behind := head.Some? && head.value > c.inbox.watermark;
    var moves := id != "" && c.store.key != Some(id);
    c.(link := c.link.(phase := Open, replaying := behind, replayTarget := if behind then head.value else c.link.replayTarget,
                       attaching := c.link.attaching || moves),
       store := if moves then c.store.(key := Some(id)) else c.store)
  }

  function ApplyWelcome(c: Client, f: Frame): Client
    requires f.Welcome?
  {
    Opened(StateSaved(Joined(c, f)), f.head)
  }

  predicate IsOwnTurn(c: Client, a: Activity) {
    a.clientId.Some? && a.fromUser && a.clientId.value in Ids(c.store.entries)
  }

  function Received(c: Client, a: Activity): (Client, seq<Output>) {
    if Accounted(c.inbox, a.seqNo) then (c, [])
    else
      var d := Seen(c, a.seqNo);
      if IsOwnTurn(d, a) then
        SettledSend(d, a.clientId.value, if a.id.Some? then a.id.value else "undefined", Some(a.seqNo))
      else if a.seqNo in d.inbox.ownSeqs || (a.id.Some? && a.id.value in d.inbox.ownIds) then (d, [])
      else (d, [Emitted(a)])
  }

  function ApplyPersistent(c: Client, a: Activity, env: Env): (Client, seq<Output>) {
    var (d, out) := Received(c, a);
    var (e, writes) := if d.link.replaying && a.seqNo >= d.link.replayTarget then ReplayEnded(d, env) else (d, []);
    (if a.seqNo > e.inbox.watermark then GapChecked(e, a.seqNo) else e, out + writes)
  }

  function ApplyAck(c: Client, f: Frame, env: Env): (Client, seq<Output>)
    requires f.Ack?
  {
    var d := if f.seqNo.Some? then Seen(c, f.seqNo.value) else c;
    var (e, out) := SettledSend(d, f.clientId, f.id, f.seqNo);
    var (g, writes) := Flushed(e, env);
    (g, out + writes)
  }

  predicate RetryableSend(fault: Fault) {
    || fault.code in {"rate_limited", "too_many_in_flight", "unavailable", "internal"}
    || (fault.retryable && fault.code != "token_expired")
  }

  function SendRejected(c: Client, fault: Fault, env: Env): (Client, seq<Output>)
    requires fault.clientId.Some?
  {
    var id := fault.clientId.value;
    if RetryableSend(fault) then
      var delay := if fault.retryAfterMs.Some? then fault.retryAfterMs.value else 1000;
      var w := c.window;
      (c.(window := w.(inFlight := w.inFlight - {id}, retryAt := w.retryAt[id := env.now + delay])), [])
    else
      var (d, writes) := Flushed(c.(window := Forgotten(c.window, id), store := Removed(c.store, id)), env);
      (d, [SendFailed(id)] + writes)
  }

  function ApplyError(c: Client, fault: Fault, env: Env): (Client, seq<Output>) {
    if NamesSend(c, fault) then SendRejected(c, fault, env)
    else if fault.code == "replay_unavailable" then
      var (d, writes) := ReplayEnded(c, env);
      var from := if fault.watermark.Some? then fault.watermark.value else d.inbox.watermark;
      (d.(link := d.link.(syncFrom := Some(from))), writes)
    else if Resets(c, Error(fault)) then
      var (d, writes) := ReplayEnded(StateSaved(c.(inbox := Restarted(c.inbox))), env);
      (d, writes + [SyncSent(0)])
    else (c, [])
  }

  function Min(a: int, b: int): int {
    if a <= b then a else b
  }

  function ApplyFrame(c: Client, f: Frame, env: Env): (Client, seq<Output>) {
    match f
    case Welcome(_, _, _) => (ApplyWelcome(c, f), [])
    case Ack(_, _, _) => ApplyAck(c, f, env)
    case Error(fault) => ApplyError(c, fault, env)
    case ReplayTruncated(head, stoppedAt) =>
      (c.(link := c.link.(replaying := true, replayTarget := head)), [SyncSent(Min(c.inbox.watermark, stoppedAt))])
    case Heartbeat(head) =>
      (if head.Some? && head.value > c.inbox.watermark then GapChecked(c, head.value) else c, [])
    case Persistent(a) => if a.seqNo > 0 then ApplyPersistent(c, a, env) else (c, [])
    case Signal => (c, [])
  }

  // ---------------------------------------------------------------------
  // The other events
  // ---------------------------------------------------------------------

  predicate IsClientIdChar(x: char) {
    'A' <= x <= 'Z' || 'a' <= x <= 'z' || '0' <= x <= '9' || x == '.' || x == '_' || x == ':' || x == '~' || x == '-'
  }

  predicate ValidClientId(id: string) {
    1 <= |id| <= 128 && forall i :: 0 <= i < |id| ==> IsClientIdChar(id[i])
  }

  predicate Accepts(c: Client, clientId: string) {
    !c.link.fatal && ValidClientId(clientId) && clientId !in Ids(c.store.entries) && clientId !in c.window.waiting
  }

  function Enqueued(c: Client, clientId: string, body: string): Client {
    c.(window := c.window.(waiting := c.window.waiting + {clientId}), store := Added(c.store, Entry(clientId, body, 0)))
  }

  function ApplySend(c: Client, clientId: string, body: string, env: Env): (Client, seq<Output>) {
    if !Accepts(c, clientId) then (c, [Refused(clientId)])
    else Flushed(Enqueued(c, clientId, body), env)
  }

  function ApplyConnect(c: Client): (Client, seq<Output>) {
    if c.link.stopped || c.link.connected then (c, [])
    else
      var phase := if c.link.phase == Reconnecting || c.link.welcomed then Reconnecting else Connecting;
      (c.(link := c.link.(phase := phase, connected := true)),
       [HelloSent(if c.link.conversationId != "" then Some(c.inbox.watermark) else None)])
  }

  /** Clearing a timer keeps its handle. */
  function TimersCleared(l: Link): Link {
    l.(gapTimer := if l.gapTimer == Unset then Unset else Cancelled, syncFrom := None)
  }

  function ApplyClose(c: Client, fatal: bool): Client {
    if !c.link.connected then c
    else
      var l := TimersCleared(c.link).(connected := false, replaying := false);
      var w := c.window.(inFlight := {});
      if l.stopped then c.(link := l, window := w)
      else if fatal then c.(link := l.(stopped := true, fatal := true, phase := Closed), window := w.(waiting := {}))
      else c.(link := l.(phase := Reconnecting), window := w)
  }

  /** No transport could be opened: the session gives up, or tries again later. */
  function ApplyConnectFailed(c: Client, fatal: bool): Client {
    if c.link.stopped || c.link.connected then c
    else if fatal then
      c.(link := TimersCleared(c.link).(stopped := true, fatal := true, phase := Closed),
         window := c.window.(waiting := {}))
    else c.(link := c.link.(phase := Reconnecting))
  }

  function ApplyDisconnect(c: Client): Client {
    c.(link := TimersCleared(c.link).(stopped := true, connected := false, phase := Closed),
       window := c.window.(waiting := {}))
  }

  function Attachment(c: Client, raw: Option<Snapshot>): Client {
    if c.link.attaching then
      c.(link := c.link.(attaching := false), store := Persisted(Loaded(c.store, raw)))
    else c
  }

  /** The store has been attached to the conversation of the welcome; `raw` is what the storage held. */
  function ApplyAttached(c: Client, raw: Option<Snapshot>, env: Env): (Client, seq<Output>) {
    Flushed(StateSaved(Attachment(c, raw)), env)
  }

  function ApplyGapTimer(c: Client): (Client, seq<Output>) {
    var l := c.link;
    if !l.gapTimer.Armed? then (c, [])
    else
      var missing := l.gapTimer.highest > c.inbox.watermark && c.window.inFlight == {};
      (c.(link := l.(gapTimer := Unset)),
       if missing && l.phase == Open && l.connected then [SyncSent(c.inbox.watermark)] else [])
  }

  function ApplySyncTimer(c: Client): (Client, seq<Output>) {
    var l := c.link;
    if l.syncFrom.None? then (c, [])
    else
      (c.(link := l.(syncFrom := None)),
       if l.phase == Open && l.connected then [SyncSent(Min(l.syncFrom.value, c.inbox.watermark))] else [])
  }

  datatype Event =
    | Receive(frame: Frame)
    | Send(clientId: string, body: string)
    | Connect
    | ConnectFailed(fatal: bool)
    | Close(fatal: bool)
    | Disconnect
    | Attached(raw: Option<Snapshot>)
    | ReplayTimer
    | RetryTimer
    | GapTimerDue
    | SyncTimerDue

  function Apply(c: Client, e: Event, env: Env): (Client, seq<Output>) {
    match e
    case Receive(f) => if c.link.connected then ApplyFrame(c, f, env) else (c, [])
    case Send(id, body) => ApplySend(c, id, body, env)
    case Connect => ApplyConnect(c)
    case ConnectFailed(fatal) => (ApplyConnectFailed(c, fatal), [])
    case Close(fatal) => (ApplyClose(c, fatal), [])
    case Disconnect => (ApplyDisconnect(c), [])
    case Attached(raw) => ApplyAttached(c, raw, env)
    case ReplayTimer => ReplayEnded(c, env)
    case RetryTimer => Flushed(c, env)
    case GapTimerDue => ApplyGapTimer(c)
    case SyncTimerDue => ApplySyncTimer(c)
  }

  // ---------------------------------------------------------------------
  // Beginnings
  // ---------------------------------------------------------------------

  function Blank(conversationId: string, watermark: int, canSync: bool, store: Store): Client {
    Client(
      Inbox(watermark, {}, {}, []),
      Link(conversationId, Idle, false, canSync, false, false, false, false, 0, Unset, None, false),
      Window(32, {}, map[], {}),
      store)
  }

  /** A new session object; the key of its store is set when it was made for a conversation. */
  function Constructed(id: string, key: Option<string>, canSync: bool): Client {
    Blank(id, 0, canSync, Store(key, [], None, []))
  }

  /** The load that resume() waits for has ended: the caller's watermark, or else the stored one of this conversation. */
  function LoadEnded(c: Client, raw: Option<Snapshot>, given: Option<int>): Client {
    var store := Loaded(c.store, raw);
    var watermark :=
      if given.Some? then given.value
      else if store.state.Some? && store.state.value.conversationId == c.link.conversationId then store.state.value.watermark
      else c.inbox.watermark;
    c.(inbox := c.inbox.(watermark := watermark), store := store)
  }
}
