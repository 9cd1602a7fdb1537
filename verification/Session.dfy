/**
 * The resume state machine of the Go and Python clients: a session drops
 * frames that arrive out of order and asks for a replay from its watermark.
 */
module SessionProtocol {
  import opened Prefix

  datatype Kind = Welcome | Ack | Heartbeat | ReplayTruncated | Error | TokenRefreshed | Other

  /** A decoded frame: the fields that the machine reads; absent fields are None, "" or false. */
  datatype Frame = Frame(
    kind: Kind,
    seqNo: Option<int>,
    headSeq: Option<int>,
    conversationId: string,
    code: string,
    hasClientId: bool,
    retryAfterMs: Option<int>)

  /** What the transport is asked to do; a sync is represented by its watermark. */
  datatype Step = Step(deliver: seq<Frame>, send: seq<int>, schedule: seq<(int, int)>)

  datatype State = State(watermark: int, conversationId: string, syncPending: bool, own: set<int>)

  const NOTHING := Step([], [], [])

  function Fresh(watermark: int, conversationId: string): State {
    State(watermark, conversationId, false, {})
  }

  /** A frame with a seq that is neither a welcome nor an ack belongs to the log. */
  predicate IsPersistent(f: Frame) {
    f.kind != Welcome && f.kind != Ack && f.seqNo.Some?
  }

  /** Whether `f` makes the session start over from watermark 0. */
  predicate Resets(s: State, f: Frame) {
    || (f.kind == Welcome && s.conversationId != "" && f.conversationId != s.conversationId)
    || (f.kind == Error && f.seqNo.None? && f.code == "invalid_watermark" && !f.hasClientId)
  }

  function Advanced(s: State, n: int): State {
    var w := Absorb(n, s.own);
    s.(watermark := w, own := Above(s.own, w))
  }

  function SyncRequested(s: State): (State, Step) {
    if s.syncPending then (s, NOTHING) else (s.(syncPending := true), NOTHING.(send := [s.watermark]))
  }

  function ApplyWelcome(s: State, f: Frame): (State, Step) {
    var reset := if Resets(s, f) then s.(watermark := 0, own := {}) else s;
    var named := if f.conversationId != "" then reset.(conversationId := f.conversationId) else reset;
    (named.(syncPending := false), NOTHING.(deliver := [f]))
  }

  function ApplyAck(s: State, n: int): State {
    if n == s.watermark + 1 then Advanced(s, n)
    else if n > s.watermark + 1 then s.(own := s.own + {n})
    else s
  }

  function ApplyPersistent(s: State, f: Frame): (State, Step)
    requires f.seqNo.Some?
  {
    var n := f.seqNo.value;
    if n <= s.watermark || n in s.own then (s, NOTHING)
    else if n == s.watermark + 1 then (Advanced(s, n).(syncPending := false), NOTHING.(deliver := [f]))
    else SyncRequested(s)
  }

  function ApplyError(s: State, f: Frame): (State, Step) {
    var told := NOTHING.(deliver := [f]);
    if f.code == "replay_unavailable" then
      var after := if f.retryAfterMs.Some? then f.retryAfterMs.value else 1000;
      (s.(syncPending := true), told.(schedule := [(after, s.watermark)]))
    else if f.code == "invalid_watermark" && !f.hasClientId then
      (s.(watermark := 0, own := {}, syncPending := true), told.(send := [0]))
    else (s, told)
  }

  function ApplyFrame(s: State, f: Frame): (State, Step) {
    if f.kind == Welcome then ApplyWelcome(s, f)
    else if f.kind == Ack then (if f.seqNo.Some? then ApplyAck(s, f.seqNo.value) else s, NOTHING)
    else if f.seqNo.Some? then ApplyPersistent(s, f)
    else match f.kind
      case Heartbeat =>
        if f.headSeq.Some? && f.headSeq.value > s.watermark then SyncRequested(s) else (s, NOTHING)
      case ReplayTruncated => (s.(syncPending := true), Step([f], [s.watermark], []))
      case Error => ApplyError(s, f)
      case TokenRefreshed => (s, NOTHING)
      case _ => (s, NOTHING.(deliver := [f]))
  }

  // ---------------------------------------------------------------------
  // Histories: what a run has accounted for since the last reset
  // ---------------------------------------------------------------------

  /** A watermark put on the wire or scheduled, and how many accounts there were at that time. */
  datatype Claim = Claim(watermark: int, known: nat)

  datatype History = History(start: int, accounts: seq<Account>, claims: seq<Claim>, asked: bool)

  /** Something that happens to a session: a frame, a new connection, or a scheduled sync falling due. */
  datatype Event = Receive(frame: Frame) | Connect | SyncDue

  predicate Accounted(s: State, n: int) {
    n <= s.watermark || n in s.own
  }

  function After(s: State, e: Event): State {
    if e.Receive? then ApplyFrame(s, e.frame).0 else s
  }

  function Scheduled(schedule: seq<(int, int)>): seq<int> {
    seq(|schedule|, i requires 0 <= i < |schedule| => schedule[i].1)
  }

  /** The watermarks put on the wire by hello and sync frames, and those of scheduled syncs. */
  function Resumes(s: State, e: Event): seq<int> {
    match e
    case Receive(f) => ApplyFrame(s, f).1.send + Scheduled(ApplyFrame(s, f).1.schedule)
    case Connect => [s.watermark]
    case SyncDue => [s.watermark]
  }

  function Claims(watermarks: seq<int>, known: nat): seq<Claim> {
    seq(|watermarks|, i requires 0 <= i < |watermarks| => Claim(watermarks[i], known))
  }

  /** The frames of the log among those handed to the application. */
  function Handed(deliver: seq<Frame>): seq<Account> {
    if deliver == [] then []
    else if IsPersistent(deliver[0]) then [Delivered(deliver[0].seqNo.value)] + Handed(deliver[1..])
    else Handed(deliver[1..])
  }

  /** What an observer of the deliveries and of the accounted set sees happen at `e`. */
  function Observed(s: State, e: Event): seq<Account> {
    if !e.Receive? then []
    else
      var f := e.frame;
      Handed(ApplyFrame(s, f).1.deliver) +
      if f.kind == Ack && f.seqNo.Some? && Accounted(After(s, e), f.seqNo.value) && !Accounted(s, f.seqNo.value) then [Own(f.seqNo.value)]
      else []
  }

  /** Whether a sync was sent or scheduled after the last welcome and the last in-order delivery. */
  function Asked(s: State, asked: bool, e: Event): bool {
    if !e.Receive? then asked
    else
      var step := ApplyFrame(s, e.frame).1;
      if step.send != [] || step.schedule != [] then true
      else asked && e.frame.kind != Welcome && (IsPersistent(e.frame) ==> step.deliver == [])
  }

  function Recorded(s: State, h: History, e: Event): History {
    if e.Receive? && Resets(s, e.frame) then History(0, [], Claims(Resumes(s, e), 0), Asked(s, h.asked, e))
    else
      var accounts := h.accounts + Observed(s, e);
      History(h.start, accounts, h.claims + Claims(Resumes(s, e), |accounts|), Asked(s, h.asked, e))
  }

  function Run(s: State, h: History, es: seq<Event>): (State, History)
    decreases |es|
  {
    if es == [] then (s, h) else Run(After(s, es[0]), Recorded(s, h, es[0]), es[1..])
  }

  ghost predicate DeliveredInOrder(accounts: seq<Account>) {
    forall i, j :: 0 <= i < j < |accounts| && accounts[i].Delivered? && accounts[j].Delivered?
      ==> accounts[i].seqNo < accounts[j].seqNo
  }

  /** `w` is the end of what is accounted for without a gap. */
  ghost predicate IsPrefix(accounts: seq<Account>, start: int, w: int) {
    start <= w && Span(start, w) <= Seqs(accounts) && w + 1 !in Seqs(accounts)
  }

  /** A claim was the largest that was safe when it was made. */
  ghost predicate Largest(h: History, c: Claim) {
    c.known <= |h.accounts| && IsPrefix(h.accounts[..c.known], h.start, c.watermark)
  }

  /** The safety of a session, whatever frames it was fed. */
  ghost predicate Safe(s: State, h: History) {
    && Tally(h.accounts, h.start, s.watermark, s.own)
    && DeliveredInOrder(h.accounts)
    && (forall i :: 0 <= i < |h.accounts| && h.accounts[i].Delivered? ==> h.accounts[i].seqNo <= s.watermark)
    && (forall i :: 0 <= i < |h.claims| ==> Largest(h, h.claims[i]))
    && s.syncPending == h.asked
  }

  /** Advancing to the next seq accounts for that seq and nothing else. */
  lemma AdvancingAccountsOne(s: State, lo: int)
    requires lo <= s.watermark && forall k :: k in s.own ==> s.watermark + 1 < k
    ensures var t := Advanced(s, s.watermark + 1);
      && s.watermark < t.watermark
      && Span(lo, t.watermark) + t.own == Span(lo, s.watermark) + s.own + {s.watermark + 1}
      && forall k :: k in t.own ==> t.watermark + 1 < k
  {
    var n := s.watermark + 1;
    AbsorbKeepsAccounted(n, s.own, lo);
    assert Above(s.own, n) == s.own;
    assert Span(lo, n) == Span(lo, s.watermark) + {n};
  }

  lemma HandedOne(f: Frame)
    ensures Handed([f]) == if IsPersistent(f) then [Delivered(f.seqNo.value)] else []
  {
    assert [f][1..] == [];
  }

  /** An event accounts for the seq of a delivered frame of the log, or for that of a new ack. */
  lemma ObservedOf(s: State, e: Event)
    ensures Observed(s, e) ==
      if e.Receive? && IsPersistent(e.frame) && !Accounted(s, e.frame.seqNo.value) && e.frame.seqNo.value == s.watermark + 1 then
        [Delivered(e.frame.seqNo.value)]
      else if e.Receive? && e.frame.kind == Ack && e.frame.seqNo.Some? && Accounted(After(s, e), e.frame.seqNo.value)
              && !Accounted(s, e.frame.seqNo.value) then [Own(e.frame.seqNo.value)]
      else []
  {
    if e.Receive? {
      HandedOne(e.frame);
    }
  }

  /** A frame that accounts for a seq accounts for exactly that one, and asks for nothing. */
  lemma AccountingStepMovesPosition(s: State, h: History, e: Event)
    requires Safe(s, h) && Observed(s, e) != []
    ensures var t, a := After(s, e), Observed(s, e)[0];
      && Observed(s, e) == [a] && !Accounted(s, a.seqNo)
      && s.watermark <= t.watermark && (a.Delivered? ==> a.seqNo <= t.watermark)
      && (forall k :: k in t.own ==> t.watermark + 1 < k)
      && Span(h.start, t.watermark) + t.own == Span(h.start, s.watermark) + s.own + {a.seqNo}
      && Resumes(s, e) == [] && !Resets(s, e.frame)
      && t.syncPending == (s.syncPending && a.Own?) == Asked(s, h.asked, e)
  {
    ObservedOf(s, e);
    AdvancingAccountsOne(s, h.start);
  }

  lemma AccountingIsRecorded(s: State, h: History, e: Event)
    requires Resumes(s, e) == [] && (e.Receive? ==> !Resets(s, e.frame))
    ensures Recorded(s, h, e) == History(h.start, h.accounts + Observed(s, e), h.claims, Asked(s, h.asked, e))
  {
    hide Observed, Asked, Resumes, Resets;
    assert h.claims + [] == h.claims;
  }

  lemma AccountingStepIsSafe(s: State, h: History, e: Event)
    requires Safe(s, h) && Observed(s, e) != []
    ensures Safe(After(s, e), Recorded(s, h, e))
  {
    AccountingStepMovesPosition(s, h, e);
    AccountingIsRecorded(s, h, e);
    hide After, Observed, Asked, Resumes, Recorded, Resets, Largest, Tally;
    var t, a := After(s, e), Observed(s, e)[0];
    TallyGrows(h.accounts, h.start, s.watermark, s.own, a, t.watermark, t.own);
    ClaimsStay(h, Recorded(s, h, e));
  }

  lemma ClaimsStay(h: History, k: History)
    requires (forall i :: 0 <= i < |h.claims| ==> Largest(h, h.claims[i])) && k.start == h.start && h.accounts <= k.accounts
    ensures forall i :: 0 <= i < |h.claims| ==> Largest(k, h.claims[i])
  {
    forall i | 0 <= i < |h.claims|
      ensures Largest(k, h.claims[i])
    {
      assert Largest(h, h.claims[i]) && k.accounts[..h.claims[i].known] == h.accounts[..h.claims[i].known];
    }
  }

  /** A watermark claimed now is the end of the prefix. */
  lemma WatermarkIsPrefix(accounts: seq<Account>, start: int, w: int, beyond: set<int>)
    requires Tally(accounts, start, w, beyond)
    ensures IsPrefix(accounts, start, w)
  {
  }

  lemma ResetIsSafe(s: State, h: History, e: Event)
    requires Safe(s, h) && e.Receive? && Resets(s, e.frame)
    ensures Safe(After(s, e), Recorded(s, h, e))
  {
    EmptyTally(0);
    WatermarkIsPrefix([], 0, 0, {});
    assert Recorded(s, h, e).accounts[..0] == [];
  }

  /** A frame that accounts for nothing new leaves the watermark and the kept acks alone. */
  lemma QuietStepKeepsPosition(s: State, h: History, e: Event)
    requires Safe(s, h) && Observed(s, e) == []
    requires e.Receive? ==> !Resets(s, e.frame)
    ensures After(s, e).watermark == s.watermark && After(s, e).own == s.own
    ensures forall w :: w in Resumes(s, e) ==> w == s.watermark
  {
    ObservedOf(s, e);
    if e.Receive? && e.frame.kind == Ack && e.frame.seqNo.Some? {
      AdvancingAccountsOne(s, h.start);
    }
  }

  lemma QuietStepAsks(s: State, h: History, e: Event)
    requires s.syncPending == h.asked && Observed(s, e) == []
    ensures After(s, e).syncPending == Asked(s, h.asked, e)
  {
    if e.Receive? {
      HandedOne(e.frame);
    }
  }

  lemma QuietIsRecorded(s: State, h: History, e: Event)
    requires Observed(s, e) == [] && (e.Receive? ==> !Resets(s, e.frame))
    ensures Recorded(s, h, e) == History(h.start, h.accounts, h.claims + Claims(Resumes(s, e), |h.accounts|), Asked(s, h.asked, e))
  {
    hide Observed, Asked, Resumes, Resets, Claims;
    assert h.accounts + [] == h.accounts;
  }

  /** Claims of the end of the prefix are the largest ones. */
  lemma NewClaimsAreLargest(h: History, w: int, watermarks: seq<int>, asked: bool)
    requires IsPrefix(h.accounts, h.start, w) && (forall x :: x in watermarks ==> x == w)
    requires forall i :: 0 <= i < |h.claims| ==> Largest(h, h.claims[i])
    ensures var k := History(h.start, h.accounts, h.claims + Claims(watermarks, |h.accounts|), asked);
      forall i :: 0 <= i < |k.claims| ==> Largest(k, k.claims[i])
  {
    hide IsPrefix;
    var k := History(h.start, h.accounts, h.claims + Claims(watermarks, |h.accounts|), asked);
    forall i | 0 <= i < |k.claims|
      ensures Largest(k, k.claims[i])
    {
      if i < |h.claims| {
        assert Largest(h, h.claims[i]);
      } else {
        assert k.claims[i] == Claim(watermarks[i - |h.claims|], |h.accounts|) && watermarks[i - |h.claims|] in watermarks;
        assert h.accounts[..|h.accounts|] == h.accounts;
      }
    }
  }

  lemma QuietStepIsSafe(s: State, h: History, e: Event)
    requires Safe(s, h) && Observed(s, e) == []
    ensures Safe(After(s, e), Recorded(s, h, e))
  {
    if e.Receive? && Resets(s, e.frame) {
      ResetIsSafe(s, h, e);
    } else {
      QuietStepKeepsPosition(s, h, e);
      QuietStepAsks(s, h, e);
      QuietIsRecorded(s, h, e);
      hide After, Observed, Asked, Resumes, Recorded, Resets, Largest, Claims, Tally, DeliveredInOrder;
      WatermarkIsPrefix(h.accounts, h.start, s.watermark, s.own);
      NewClaimsAreLargest(h, s.watermark, Resumes(s, e), Asked(s, h.asked, e));
    }
  }

  lemma {:induction false} RunStaysSafe(s: State, h: History, es: seq<Event>)
    requires Safe(s, h)
    ensures var (t, k) := Run(s, h, es); Safe(t, k)
    decreases |es|
  {
    if es != [] {
      if Observed(s, es[0]) == [] {
        QuietStepIsSafe(s, h, es[0]);
      } else {
        AccountingStepIsSafe(s, h, es[0]);
      }
      RunStaysSafe(After(s, es[0]), Recorded(s, h, es[0]), es[1..]);
    }
  }

  /**
   * Session safety. After any sequence of frames, connections and due syncs,
   * lost, repeated or out of order, the seqs accounted for since the last reset
   * are exactly (start, watermark] and the acked seqs kept beyond it; each was
   * accounted for once, by handing over one frame with it or by one ack; the
   * frames were handed over in increasing order; and every hello and sync, sent or
   * scheduled, named the end of what was accounted for without a gap at that time.
   */
  lemma SessionSafety(start: int, conversationId: string, es: seq<Event>)
    ensures var (s, h) := Run(Fresh(start, conversationId), History(start, [], [], false), es);
      && Tally(h.accounts, h.start, s.watermark, s.own)
      && DeliveredInOrder(h.accounts)
      && s.syncPending == h.asked
      && (forall i :: 0 <= i < |h.claims| ==> Largest(h, h.claims[i]))
  {
    EmptyTally(start);
    RunStaysSafe(Fresh(start, conversationId), History(start, [], [], false), es);
  }

  // ---------------------------------------------------------------------
  // What a frame brings about
  // ---------------------------------------------------------------------

  /** The frame is the next one of the log after what is accounted for without a gap. */
  ghost predicate IsNext(h: History, f: Frame) {
    IsPersistent(f) && IsPrefix(h.accounts, h.start, f.seqNo.value - 1)
  }

  /** The frame shows that a seq is missing before it. */
  ghost predicate ShowsGap(h: History, f: Frame) {
    || (IsPersistent(f) && f.seqNo.value !in Seqs(h.accounts) && h.start < f.seqNo.value && !IsNext(h, f))
    || (f.kind == Heartbeat && f.seqNo.None? && f.headSeq.Some? && h.start < f.headSeq.value
        && !(Span(h.start, f.headSeq.value) <= Seqs(h.accounts)))
  }

  predicate IsAbout(f: Frame, kind: Kind) {
    f.kind == kind && (kind == Welcome || f.seqNo.None?)
  }

  predicate IsRefusal(f: Frame, code: string) {
    IsAbout(f, Error) && f.code == code
  }

  /**
   * Which frames reach the application, in terms of what it was handed before: of the log exactly the
   * next one, and of the rest everything but acks, heartbeats and token frames; and as they came.
   */
  lemma HandsOver(s: State, h: History, f: Frame)
    requires Safe(s, h)
    ensures var told := IsNext(h, f) || IsAbout(f, Welcome) || IsAbout(f, ReplayTruncated) || IsAbout(f, Error) || IsAbout(f, Other);
      ApplyFrame(s, f).1.deliver == if told then [f] else []
  {
    assert IsPersistent(f) && IsPrefix(h.accounts, h.start, f.seqNo.value - 1) ==> f.seqNo.value == s.watermark + 1 by {
      if IsPersistent(f) && IsPrefix(h.accounts, h.start, f.seqNo.value - 1) {
        PrefixIsWatermark(s, h, f.seqNo.value - 1);
      }
    }
    WatermarkIsPrefix(h.accounts, h.start, s.watermark, s.own);
  }

  lemma PrefixIsWatermark(s: State, h: History, w: int)
    requires Safe(s, h) && IsPrefix(h.accounts, h.start, w)
    ensures w == s.watermark
  {
    assert w < s.watermark ==> w + 1 in Span(h.start, s.watermark);
    assert s.watermark < w ==> s.watermark + 1 in Span(h.start, w);
  }

  /**
   * What an event accounts for, in terms of what was accounted for before: the next frame of the log by
   * a delivery, and every other seq by its ack, in whatever order acks come.
   */
  lemma AccountsFor(s: State, h: History, e: Event)
    requires Safe(s, h) && (e.Receive? ==> !Resets(s, e.frame))
    ensures Recorded(s, h, e).accounts == h.accounts +
      if e.Receive? && IsNext(h, e.frame) then [Delivered(e.frame.seqNo.value)]
      else if e.Receive? && e.frame.kind == Ack && e.frame.seqNo.Some? && h.start < e.frame.seqNo.value && e.frame.seqNo.value !in Seqs(h.accounts)
      then [Own(e.frame.seqNo.value)]
      else []
  {
    ObservedOf(s, e);
    WatermarkIsPrefix(h.accounts, h.start, s.watermark, s.own);
    if e.Receive? && IsNext(h, e.frame) {
      PrefixIsWatermark(s, h, e.frame.seqNo.value - 1);
    }
    AdvancingAccountsOne(s, h.start);
  }

  /**
   * When a session asks for a replay: at a truncated one always, at a gap unless it has asked already,
   * from 0 when its watermark is refused, and later, after the delay it is told, when the server cannot
   * replay now; at no other frame.
   */
  lemma AsksFor(s: State, h: History, f: Frame)
    requires Safe(s, h)
    ensures var step := ApplyFrame(s, f).1;
      && step.send == (if IsRefusal(f, "invalid_watermark") && !f.hasClientId then [0]
                       else if IsAbout(f, ReplayTruncated) || (ShowsGap(h, f) && !h.asked) then [s.watermark] else [])
      && step.schedule == (if IsRefusal(f, "replay_unavailable")
                           then [(if f.retryAfterMs.Some? then f.retryAfterMs.value else 1000, s.watermark)] else [])
    ensures IsPrefix(h.accounts, h.start, s.watermark)
  {
    WatermarkIsPrefix(h.accounts, h.start, s.watermark, s.own);
    if f.headSeq.Some? && f.headSeq.value > s.watermark {
      assert s.watermark + 1 in Span(h.start, f.headSeq.value);
    }
    if IsPersistent(f) && IsNext(h, f) {
      PrefixIsWatermark(s, h, f.seqNo.value - 1);
    }
  }

  /** The conversation that was named last, by a welcome or at the start. */
  function Named(id: string, es: seq<Event>): string {
    if es == [] then id
    else
      var e := es[|es| - 1];
      if e.Receive? && e.frame.kind == Welcome && e.frame.conversationId != "" then e.frame.conversationId
      else Named(id, es[..|es| - 1])
  }

  lemma {:induction false} RunOn(s: State, h: History, es: seq<Event>, e: Event)
    ensures var (t, k) := Run(s, h, es); Run(s, h, es + [e]) == (After(t, e), Recorded(t, k, e))
    decreases |es|
  {
    hide After, Recorded;
    if es == [] {
      assert es + [e] == [e] && [e][1..] == [];
    } else {
      assert (es + [e])[1..] == es[1..] + [e];
      RunOn(After(s, es[0]), Recorded(s, h, es[0]), es[1..], e);
    }
  }

  lemma {:induction false} ConversationIsLastNamed(start: int, id: string, es: seq<Event>)
    ensures Run(Fresh(start, id), History(start, [], [], false), es).0.conversationId == Named(id, es)
    decreases |es|
  {
    hide Recorded;
    if es != [] {
      var front := es[..|es| - 1];
      assert es == front + [es[|es| - 1]];
      RunOn(Fresh(start, id), History(start, [], [], false), front, es[|es| - 1]);
      ConversationIsLastNamed(start, id, front);
    }
  }

  /**
   * In every run a session starts over from 0 exactly when a welcome names another conversation than
   * the last one, or its watermark is refused; no other event makes it forget anything, and the
   * conversation it knows is the one named last.
   */
  lemma StartsOverIff(start: int, id: string, es: seq<Event>, e: Event)
    ensures var (s, h) := Run(Fresh(start, id), History(start, [], [], false), es);
      var t, k := After(s, e), Recorded(s, h, e);
      && s.conversationId == Named(id, es)
      && if e.Receive? && ((e.frame.kind == Welcome && Named(id, es) != "" && e.frame.conversationId != Named(id, es))
                           || (IsRefusal(e.frame, "invalid_watermark") && !e.frame.hasClientId))
         then t.watermark == 0 && t.own == {} && k.start == 0 && k.accounts == []
         else k.start == h.start && h.accounts <= k.accounts
  {
    ConversationIsLastNamed(start, id, es);
  }

  /** A frame or heartbeat that shows a missing seq never passes unnoticed: a sync is sent or outstanding. */
  lemma NoSilentGap(s: State, h: History, f: Frame)
    requires Safe(s, h)
    requires
      || (IsPersistent(f) && s.watermark + 1 < f.seqNo.value && f.seqNo.value !in s.own)
      || (f.kind == Heartbeat && f.seqNo.None? && f.headSeq.Some? && s.watermark < f.headSeq.value)
    ensures Recorded(s, h, Receive(f)).asked && After(s, Receive(f)).watermark == s.watermark
    ensures !h.asked ==> Recorded(s, h, Receive(f)).claims == h.claims + [Claim(s.watermark, |h.accounts|)]
  {
    assert Observed(s, Receive(f)) == [];
    QuietStepKeepsPosition(s, h, Receive(f));
  }

  // ---------------------------------------------------------------------
  // Replays
  // ---------------------------------------------------------------------

  /** `fs` replays the log seqs (from, to] in order, with acks of logged seqs anywhere in between. */
  ghost predicate IsReplay(fs: seq<Frame>, from: int, to: int, head: int)
    decreases |fs|
  {
    if fs == [] then from == to
    else if fs[0].kind == Ack then
      fs[0].seqNo.Some? && fs[0].seqNo.value <= head && IsReplay(fs[1..], from, to, head)
    else IsPersistent(fs[0]) && fs[0].seqNo == Some(from + 1) && from < to && IsReplay(fs[1..], from + 1, to, head)
  }

  function Receives(fs: seq<Frame>): seq<Event> {
    seq(|fs|, i requires 0 <= i < |fs| => Receive(fs[i]))
  }

  /** The state is one a session can be in over a log of `head` activities. */
  ghost predicate WithinLog(s: State, head: int) {
    && s.watermark <= head
    && forall k :: k in s.own ==> s.watermark + 1 < k <= head
  }

  lemma ReceivesTail(fs: seq<Frame>)
    requires fs != []
    ensures Receives(fs)[1..] == Receives(fs[1..])
  {
  }

  lemma AbsorbStaysBelow(w: int, s: set<int>, head: int)
    requires w <= head && forall k :: k in s ==> k <= head
    ensures Absorb(w, s) <= head
  {
    assert head < Absorb(w, s) ==> Absorb(w, s) in Span(w, Absorb(w, s));
  }

  lemma ReplayFrameStep(s: State, h: History, f: Frame, from: int, head: int)
    requires Safe(s, h) && WithinLog(s, head) && from <= s.watermark
    requires f.seqNo.Some? && f.seqNo.value <= head
    requires f.kind == Ack || (IsPersistent(f) && f.seqNo == Some(from + 1))
    ensures var t := After(s, Receive(f));
      && WithinLog(t, head) && s.watermark <= t.watermark
      && Recorded(s, h, Receive(f)).claims == h.claims
      && Recorded(s, h, Receive(f)).start == h.start
      && h.accounts <= Recorded(s, h, Receive(f)).accounts
      && Safe(t, Recorded(s, h, Receive(f)))
      && (f.kind != Ack ==> from + 1 <= t.watermark)
  {
    if Observed(s, Receive(f)) == [] {
      QuietStepIsSafe(s, h, Receive(f));
    } else {
      AccountingStepIsSafe(s, h, Receive(f));
    }
    AdvancingAccountsOne(s, h.start);
    if f.seqNo.value == s.watermark + 1 {
      AbsorbStaysBelow(f.seqNo.value, s.own, head);
    }
  }

  /**
   * Replay completeness. From any state over a log of `head` activities, an
   * in-order replay that starts at or below the watermark and reaches `to`,
   * with acks of logged seqs arriving in between, sends no sync and leaves every
   * seq up to `to` accounted for; what it adds to the history are accounts only.
   */
  lemma {:induction false} ReplayAccountsForAll(s: State, h: History, fs: seq<Frame>, from: int, to: int, head: int)
    requires Safe(s, h) && WithinLog(s, head)
    requires from <= s.watermark && to <= head && IsReplay(fs, from, to, head)
    ensures var (t, k) := Run(s, h, Receives(fs));
      && to <= t.watermark && s.watermark <= t.watermark && WithinLog(t, head)
      && k.claims == h.claims
      && k.start == h.start && h.accounts <= k.accounts
      && Safe(t, k)
    decreases |fs|
  {
    if fs != [] {
      ReceivesTail(fs);
      var f := fs[0];
      ReplayFrameStep(s, h, f, from, head);
      var e := Receive(f);
      ReplayAccountsForAll(After(s, e), Recorded(s, h, e), fs[1..], if f.kind == Ack then from else from + 1, to, head);
    }
  }

  /** A replay up to the head delivers exactly what was unaccounted and not acked meanwhile, in order. */
  lemma ReplayReachesHead(s: State, h: History, fs: seq<Frame>, from: int, head: int)
    requires Safe(s, h) && WithinLog(s, head)
    requires from <= s.watermark && IsReplay(fs, from, head, head)
    ensures var (t, k) := Run(s, h, Receives(fs));
      && t.watermark == head && t.own == {}
      && k.claims == h.claims && h.accounts <= k.accounts
      && var added := k.accounts[|h.accounts|..];
      && Seqs(added) == Span(s.watermark, head) - s.own && EachOnce(added) && DeliveredInOrder(added)
  {
    ReplayAccountsForAll(s, h, fs, from, head, head);
    var (t, k) := Run(s, h, Receives(fs));
    SplitHistory(h.accounts, k.accounts);
    assert t.own == {};
    NewlyAccounted(s, h, t, k);
  }

  lemma NewlyAccounted(s: State, h: History, t: State, k: History)
    requires Safe(s, h) && Safe(t, k) && h.accounts <= k.accounts && k.start == h.start && t.own == {}
    requires s.watermark <= t.watermark && forall n :: n in s.own ==> n <= t.watermark
    ensures Seqs(k.accounts[|h.accounts|..]) == Span(s.watermark, t.watermark) - s.own
  {
    SplitHistory(h.accounts, k.accounts);
    var added := Seqs(k.accounts[|h.accounts|..]);
    assert added == Seqs(k.accounts) - Seqs(h.accounts);
  }

  lemma SplitHistory(a: seq<Account>, all: seq<Account>)
    requires a <= all && EachOnce(all)
    ensures Seqs(all) == Seqs(a) + Seqs(all[|a|..]) && Seqs(a) !! Seqs(all[|a|..])
    ensures EachOnce(all[|a|..])
    ensures DeliveredInOrder(all) ==> DeliveredInOrder(all[|a|..])
  {
    var b := all[|a|..];
    forall n | n in Seqs(b)
      ensures n in Seqs(all)
    {
      var i :| 0 <= i < |b| && b[i].seqNo == n;
      assert all[|a| + i].seqNo == n;
    }
    forall n | n in Seqs(all)
      ensures n in Seqs(a) + Seqs(b)
    {
      var i :| 0 <= i < |all| && all[i].seqNo == n;
      assert if i < |a| then a[i].seqNo == n else b[i - |a|].seqNo == n;
    }
    forall n | n in Seqs(a)
      ensures n in Seqs(all)
    {
      var i :| 0 <= i < |a| && a[i].seqNo == n;
      assert all[i].seqNo == n;
    }
  }

  /** One answer of a server that replays a bounded number of activities: it stops at `to`. */
  datatype Round = Round(frames: seq<Frame>, to: int, truncated: Frame)

  function RunRound(s: State, h: History, r: Round): (State, History) {
    var (t, k) := Run(s, h, Receives(r.frames));
    (After(t, Receive(r.truncated)), Recorded(t, k, Receive(r.truncated)))
  }

  function RunRounds(s: State, h: History, rounds: seq<Round>): (State, History)
    decreases |rounds|
  {
    if rounds == [] then (s, h)
    else var (t, k) := RunRound(s, h, rounds[0]); RunRounds(t, k, rounds[1..])
  }

  /** `r` replays at least one activity beyond the watermark, then says that it stopped. */
  ghost predicate IsRound(s: State, r: Round, head: int) {
    && s.watermark < r.to <= head
    && IsReplay(r.frames, s.watermark, r.to, head)
    && r.truncated.kind == ReplayTruncated && r.truncated.seqNo.None?
  }

  lemma RoundAdvances(s: State, h: History, r: Round, head: int)
    requires Safe(s, h) && WithinLog(s, head) && IsRound(s, r, head)
    ensures var (t, k) := RunRound(s, h, r);
      && Safe(t, k) && WithinLog(t, head)
      && s.watermark < t.watermark && r.to <= t.watermark
      && |k.claims| == |h.claims| + 1 && k.claims[|h.claims|].watermark == t.watermark
  {
    ReplayAccountsForAll(s, h, r.frames, s.watermark, r.to, head);
    var (m, j) := Run(s, h, Receives(r.frames));
    TruncationAsksAgain(m, j, r.truncated);
  }

  /** Every round answers the sync that ended the round before. */
  ghost predicate AreRounds(s: State, h: History, rounds: seq<Round>, head: int)
    decreases |rounds|
  {
    rounds == [] ||
      (var r := rounds[0];
       && IsRound(s, r, head)
       && var (t, k) := RunRound(s, h, r);
       AreRounds(t, k, rounds[1..], head))
  }

  lemma TruncationAsksAgain(s: State, h: History, f: Frame)
    requires Safe(s, h) && f.kind == ReplayTruncated && f.seqNo.None?
    ensures var t, k := After(s, Receive(f)), Recorded(s, h, Receive(f));
      && Safe(t, k) && t == s.(syncPending := true) && k == h.(claims := h.claims + [Claim(s.watermark, |h.accounts|)], asked := true)
  {
    ObservedOf(s, Receive(f));
    QuietStepIsSafe(s, h, Receive(f));
    assert h.accounts + [] == h.accounts;
  }

  /**
   * Truncated replays terminate: each round moves the watermark at least one
   * closer to the head, and asks for the next round once, from the new watermark.
   */
  lemma {:induction false} TruncatedReplaysTerminate(s: State, h: History, rounds: seq<Round>, head: int)
    requires Safe(s, h) && WithinLog(s, head) && AreRounds(s, h, rounds, head)
    ensures var (t, k) := RunRounds(s, h, rounds);
      && s.watermark + |rounds| <= t.watermark <= head
      && Safe(t, k) && WithinLog(t, head)
      && |k.claims| == |h.claims| + |rounds|
      && (rounds != [] ==> rounds[|rounds| - 1].to <= t.watermark && k.claims[|k.claims| - 1].watermark == t.watermark)
    decreases |rounds|
  {
    hide Safe, RunRound;
    if rounds != [] {
      RoundAdvances(s, h, rounds[0], head);
      var (t, k) := RunRound(s, h, rounds[0]);
      TruncatedReplaysTerminate(t, k, rounds[1..], head);
    }
  }

  // ---------------------------------------------------------------------
  // The session object
  // ---------------------------------------------------------------------

  class Session {
    var watermark: int
    var conversationId: string
    var syncPending: bool
    var own: set<int>

    ghost function Value(): State
      reads this
    {
      State(watermark, conversationId, syncPending, own)
    }

    constructor (watermark: int, conversationId: string)
      ensures Value() == Fresh(watermark, conversationId)
    {
      this.watermark := watermark;
      this.conversationId := conversationId;
      syncPending := false;
      own := {};
    }

    method Hello() returns (resumeFrom: int, conversation: Option<string>)
      ensures Resumes(Value(), Connect) == [resumeFrom]
      ensures conversation == if conversationId == "" then None else Some(conversationId)
    {
      resumeFrom := watermark;
      conversation := if conversationId != "" then Some(conversationId) else None;
    }

    method Advance(n: int)
      modifies this`watermark, this`own
      ensures Value() == Advanced(old(Value()), n)
    {
      watermark := n;
      while watermark + 1 in own
        invariant Absorb(watermark, own) == Absorb(n, old(own))
        invariant forall k :: watermark < k ==> (k in own <==> k in old(own))
        decreases own
      {
        watermark := watermark + 1;
        own := own - {watermark};
      }
      own := set k | k in own && watermark < k;
      assert own == Above(old(own), watermark);
    }

    method Sync() returns (step: Step)
      modifies this`syncPending
      ensures (Value(), step) == SyncRequested(old(Value()))
    {
      step := NOTHING;
      if !syncPending {
        step := step.(send := [watermark]);
        syncPending := true;
      }
    }

    method OnFrame(f: Frame) returns (step: Step)
      modifies this
      ensures (Value(), step) == ApplyFrame(old(Value()), f)
    {
      step := NOTHING;
      if f.kind == Welcome {
        if conversationId != "" && f.conversationId != conversationId {
          watermark := 0;
          own := {};
        }
        if f.conversationId != "" {
          conversationId := f.conversationId;
        }
        syncPending := false;
        step := step.(deliver := [f]);
      } else if f.kind == Ack {
        if f.seqNo.Some? {
          if f.seqNo.value == watermark + 1 {
            Advance(f.seqNo.value);
          } else if f.seqNo.value > watermark + 1 {
            own := own + {f.seqNo.value};
          }
        }
      } else if f.seqNo.Some? {
        if f.seqNo.value <= watermark || f.seqNo.value in own {
        } else if f.seqNo.value == watermark + 1 {
          step := step.(deliver := [f]);
          Advance(f.seqNo.value);
          syncPending := false;
        } else {
          step := Sync();
        }
      } else if f.kind == Heartbeat {
        if f.headSeq.Some? && f.headSeq.value > watermark {
          step := Sync();
        }
      } else if f.kind == ReplayTruncated {
        step := Step([f], [watermark], []);
        syncPending := true;
      } else if f.kind == Error {
        step := OnErrorFrame(f);
      } else if f.kind != TokenRefreshed {
        step := step.(deliver := [f]);
      }
    }

    method OnErrorFrame(f: Frame) returns (step: Step)
      modifies this
      ensures (Value(), step) == ApplyError(old(Value()), f)
    {
      step := NOTHING.(deliver := [f]);
      if f.code == "replay_unavailable" {
        var after := if f.retryAfterMs.Some? then f.retryAfterMs.value else 1000;
        step := step.(schedule := [(after, watermark)]);
        syncPending := true;
      } else if f.code == "invalid_watermark" && !f.hasClientId {
        watermark := 0;
        own := {};
        step := step.(send := [watermark]);
        syncPending := true;
      }
    }
  }
}
