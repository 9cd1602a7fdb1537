/**
 * The two clients side by side. Fed the same log frames and acknowledgements,
 * the session of Go and Python never gets ahead of the one of TypeScript: it
 * accounts for less, because it drops what the other one remembers.
 */
module Simulation {
  import opened Prefix
  import S = SessionProtocol
  import opened ConversationProtocol
  import opened ConversationReceive

  /** What the server sends to both: a turn of the log, or the acknowledgement of a send. */
  datatype Input = Turn(activity: Activity) | Confirmation(clientId: string, id: string, seqNo: Option<int>)

  /** One thing that happens to the pair; what only one of them sees must not be part of the log for Go. */
  datatype Move =
    | Shared(input: Input)
    | SessionOnly(sessionEvent: S.Event)
    | ConversationOnly(event: Event)

  function ForSession(i: Input): S.Event {
    match i
    case Turn(a) => S.Receive(S.Frame(S.Other, Some(a.seqNo), None, "", "", false, None))
    case Confirmation(_, _, n) => S.Receive(S.Frame(S.Ack, n, None, "", "", false, None))
  }

  function ForConversation(i: Input): Event {
    match i
    case Turn(a) => Receive(Persistent(a))
    case Confirmation(clientId, id, n) => Receive(Ack(clientId, id, n))
  }

  /** Only the TypeScript client may see more of the log, and only it is kept from starting over. */
  predicate Possible(s: S.State, c: Client, m: Move) {
    match m
    case Shared(_) => c.link.connected
    case SessionOnly(e) => e.Receive? ==> e.frame.kind != S.Ack && !S.IsPersistent(e.frame)
    case ConversationOnly(e) => !ResetsAt(c, e)
  }

  function SessionAfter(s: S.State, m: Move): S.State {
    match m
    case Shared(i) => S.After(s, ForSession(i))
    case SessionOnly(e) => S.After(s, e)
    case ConversationOnly(_) => s
  }

  function ConversationAfter(c: Client, m: Move, env: Env): Client {
    match m
    case Shared(i) => Apply(c, ForConversation(i), env).0
    case SessionOnly(_) => c
    case ConversationOnly(e) => Apply(c, e, env).0
  }

  /** Everything the session has accounted for, the conversation has too. */
  ghost predicate Covered(s: S.State, i: Inbox) {
    && 0 <= s.watermark && 0 <= i.watermark
    && (forall k :: k in i.seen ==> i.watermark + 1 < k)
    && forall n :: S.Accounted(s, n) ==> Accounted(i, n)
  }

  lemma CoveredOrdersWatermarks(s: S.State, i: Inbox)
    requires Covered(s, i)
    ensures s.watermark <= i.watermark
  {
    assert S.Accounted(s, s.watermark) && (i.watermark < s.watermark ==> S.Accounted(s, i.watermark + 1));
  }

  /** A session accounts for at most the seq of the frame; a reset only makes it forget. */
  lemma SessionAccounts(s: S.State, e: S.Event)
    requires 0 <= s.watermark
    ensures var t := S.After(s, e);
      && 0 <= t.watermark
      && forall k :: S.Accounted(t, k) ==> S.Accounted(s, k) || k <= 0 || (e.Receive? && e.frame.seqNo == Some(k) && e.frame.kind != S.Welcome)
  {
    var t := S.After(s, e);
    if t.watermark != s.watermark && e.Receive? && e.frame.seqNo == Some(s.watermark + 1) && e.frame.kind != S.Welcome {
      var n := e.frame.seqNo.value;
      assert t.watermark == Absorb(n, s.own);
      forall k | n < k <= t.watermark
        ensures k in s.own
      {
        assert k in Span(n, t.watermark);
      }
    }
  }

  lemma MoveStaysCovered(s: S.State, c: Client, m: Move, env: Env)
    requires Covered(s, c.inbox) && Possible(s, c, m)
    ensures Covered(SessionAfter(s, m), ConversationAfter(c, m, env).inbox)
  {
    hide Apply, S.ApplyFrame;
    match m
    case Shared(i) =>
      SessionAccounts(s, ForSession(i));
      EventAccounts(c, ForConversation(i), env);
    case SessionOnly(e) =>
      SessionAccounts(s, e);
      NothingFromLog(s, e);
    case ConversationOnly(e) =>
      EventAccounts(c, e, env);
  }

  lemma NothingFromLog(s: S.State, e: S.Event)
    requires e.Receive? ==> e.frame.kind != S.Ack && !S.IsPersistent(e.frame)
    ensures var t := S.After(s, e); (t.watermark == s.watermark && t.own == s.own) || (t.watermark == 0 && t.own == {})
  {
  }

  function Pair(s: S.State, c: Client, moves: seq<(Move, Env)>): (S.State, Client)
    decreases |moves|
  {
    if moves == [] || !Possible(s, c, moves[0].0) then (s, c)
    else Pair(SessionAfter(s, moves[0].0), ConversationAfter(c, moves[0].0, moves[0].1), moves[1..])
  }

  lemma {:induction false} PairStaysCovered(s: S.State, c: Client, moves: seq<(Move, Env)>)
    requires Covered(s, c.inbox)
    ensures var (t, d) := Pair(s, c, moves); Covered(t, d.inbox)
    decreases |moves|
  {
    if moves != [] && Possible(s, c, moves[0].0) {
      MoveStaysCovered(s, c, moves[0].0, moves[0].1);
      PairStaysCovered(SessionAfter(s, moves[0].0), ConversationAfter(c, moves[0].0, moves[0].1), moves[1..]);
    }
  }

  /**
   * From the same watermark, whatever log frames and acknowledgements both receive and
   * whatever else happens to each, the session's accounted seqs are the conversation's too,
   * so its watermark never exceeds the other one.
   */
  lemma SessionNeverAhead(w: nat, id: string, c: Client, moves: seq<(Move, Env)>)
    requires c.inbox.watermark == w && c.inbox.seen == {}
    ensures var (t, d) := Pair(S.Fresh(w, id), c, moves);
      && (forall n :: S.Accounted(t, n) ==> Accounted(d.inbox, n))
      && t.watermark <= d.inbox.watermark
  {
    PairStaysCovered(S.Fresh(w, id), c, moves);
    var (t, d) := Pair(S.Fresh(w, id), c, moves);
    CoveredOrdersWatermarks(t, d.inbox);
  }

  /** The converse fails: a turn out of order is remembered by the conversation and dropped by the session. */
  lemma ConversationMayBeAhead(w: nat, id: string, c: Client, a: Activity, env: Env)
    requires c.inbox.watermark == w && c.inbox.seen == {} && c.link.connected && a.seqNo > w + 1
    ensures var (t, d) := Pair(S.Fresh(w, id), c, [(Shared(Turn(a)), env)]);
      Accounted(d.inbox, a.seqNo) && !S.Accounted(t, a.seqNo)
  {
    hide Apply;
    EventAccounts(c, Receive(Persistent(a)), env);
    var s, m := S.Fresh(w, id), Shared(Turn(a));
    assert Pair(s, c, [(m, env)]) == Pair(SessionAfter(s, m), ConversationAfter(c, m, env), []);
  }
}
