/** What the TypeScript session remembers of its own turns, and that it does not show them again. */
module ConversationOwn {
  import opened Prefix
  import opened Recency
  import opened ConversationProtocol
  import opened ConversationReceive

  /** An own send of which the server says where it is in the log. */
  datatype Settled = Settled(id: string, seqNo: Option<int>)

  /** The own send that an event settles: by its ack, or as a new turn of an entry of the outbox. */
  function SettledAt(c: Client, e: Event): seq<Settled> {
    if !c.link.connected then []
    else match e
      case Receive(Ack(_, id, n)) => [Settled(id, n)]
      case Receive(Persistent(a)) =>
        if a.seqNo > 0 && !Accounted(c.inbox, a.seqNo) && IsOwnTurn(c, a) then
          [Settled(if a.id.Some? then a.id.value else "undefined", Some(a.seqNo))]
        else []
      case _ => []
  }

  function SettledIds(c: Client, es: seq<(Event, Env)>): seq<string>
    decreases |es|
  {
    if es == [] then []
    else
      var (now, later) := (SettledAt(c, es[0].0), SettledIds(Apply(c, es[0].0, es[0].1).0, es[1..]));
      if now == [] then later else [now[0].id] + later
  }

  // ---------------------------------------------------------------------
  // Ids
  // ---------------------------------------------------------------------

  /** The ids that are remembered when these are settled one after the other. */
  function Recalled(known: seq<string>, ids: seq<string>): seq<string>
    decreases |ids|
  {
    if ids == [] then known else Recalled(OwnIdAdded(known, ids[0]), ids[1..])
  }

  lemma StepRecalls(c: Client, e: Event, env: Env)
    ensures var own := SettledAt(c, e);
      Apply(c, e, env).0.inbox.ownIds == if own == [] then c.inbox.ownIds else OwnIdAdded(c.inbox.ownIds, own[0].id)
  {
    hide Apply, OwnIdAdded;
    InboxOf(c, e, env);
  }

  lemma {:induction false} RunRecalls(c: Client, h: History, es: seq<(Event, Env)>)
    ensures Run(c, h, es).0.inbox.ownIds == Recalled(c.inbox.ownIds, SettledIds(c, es))
    decreases |es|
  {
    hide Apply, OwnIdAdded, Recorded, SettledAt;
    if es != [] {
      var d := Apply(c, es[0].0, es[0].1).0;
      StepRecalls(c, es[0].0, es[0].1);
      RunRecalls(d, Recorded(c, h, es[0].0, es[0].1), es[1..]);
      var now, later := SettledAt(c, es[0].0), SettledIds(d, es[1..]);
      assert now != [] ==> ([now[0].id] + later)[1..] == later;
    }
  }

  /** A new id goes to the end, and the oldest of more than a thousand is forgotten. */
  lemma NewIdIsLast(known: seq<string>, id: string)
    requires id !in known && |known| <= 1000
    ensures OwnIdAdded(known, id) == Last(known + [id], 1000)
  {
  }

  lemma LastTwice(known: seq<string>, rest: seq<string>)
    ensures Last(Last(known, 1000) + rest, 1000) == Last(known + rest, 1000)
  {
  }

  lemma NoRepeatsOfLast(s: seq<string>, rest: seq<string>)
    requires NoRepeats(s + rest)
    ensures NoRepeats(Last(s, 1000) + rest)
  {
    var t, all := Last(s, 1000) + rest, s + rest;
    var skip := |all| - |t|;
    assert forall i :: 0 <= i < |t| ==> t[i] == all[skip + i];
  }

  /** Of ids that are all different, the last thousand are remembered, in order. */
  lemma {:induction false} RecallsLastThousand(known: seq<string>, ids: seq<string>)
    requires NoRepeats(known + ids) && |known| <= 1000
    ensures Recalled(known, ids) == Last(known + ids, 1000)
    decreases |ids|
  {
    if ids == [] {
      assert known + ids == known;
    } else {
      var id, rest := ids[0], ids[1..];
      assert known + ids == known + [id] + rest;
      assert id !in known by {
        assert (known + ids)[|known|] == id;
        assert forall i :: 0 <= i < |known| ==> (known + ids)[i] == known[i];
      }
      NewIdIsLast(known, id);
      NoRepeatsOfLast(known + [id], rest);
      RecallsLastThousand(Last(known + [id], 1000), rest);
      LastTwice(known + [id], rest);
    }
  }

  /**
   * In every run of a new session in which the server gives each of its sends another id, the session
   * remembers exactly the last thousand of them; and an activity with such an id is not shown, whatever
   * resets there were in between.
   */
  lemma OwnTurnsStayHidden(c: Client, h: History, es: seq<(Event, Env)>, a: Activity, env: Env)
    requires c.inbox.ownIds == [] && NoRepeats(SettledIds(c, es))
    ensures var (d, own) := (Run(c, h, es).0, Last(SettledIds(c, es), 1000));
      && d.inbox.ownIds == own
      && (a.id.Some? && a.id.value in own ==> Emissions(Apply(d, Receive(Persistent(a)), env).1) == [])
  {
    hide Run, Apply, SettledIds;
    assert [] + SettledIds(c, es) == SettledIds(c, es);
    RunRecalls(c, h, es);
    RecallsLastThousand([], SettledIds(c, es));
    EmissionsOf(Run(c, h, es).0, Receive(Persistent(a)), env);
  }

  // ---------------------------------------------------------------------
  // Seqs
  // ---------------------------------------------------------------------

  /** The own seqs above the watermark after an event that leads to watermark `w`; starting over forgets none. */
  function HeldAfter(c: Client, held: set<int>, e: Event, w: int): set<int> {
    var own := SettledAt(c, e);
    if ResetsAt(c, e) then held
    else
      var left := held - Span(c.inbox.watermark, w);
      if own != [] && own[0].seqNo.Some? && own[0].seqNo.value > w then left + {own[0].seqNo.value} else left
  }

  function Held(c: Client, held: set<int>, es: seq<(Event, Env)>): set<int>
    decreases |es|
  {
    if es == [] then held
    else
      var d := Apply(c, es[0].0, es[0].1).0;
      Held(d, HeldAfter(c, held, es[0].0, d.inbox.watermark), es[1..])
  }

  lemma StepHolds(c: Client, e: Event, env: Env)
    ensures var d := Apply(c, e, env).0;
      d.inbox.ownSeqs == HeldAfter(c, c.inbox.ownSeqs, e, d.inbox.watermark)
  {
    hide Apply, OwnIdAdded;
    InboxOf(c, e, env);
    assert c.inbox.ownSeqs - Span(c.inbox.watermark, c.inbox.watermark) == c.inbox.ownSeqs;
  }

  /**
   * In every run the session remembers exactly the seqs of own sends that were settled above the
   * watermark and that the watermark has not passed since; one that is not passed next either is not shown.
   */
  lemma {:induction false} OwnSeqsAreHeld(c: Client, h: History, es: seq<(Event, Env)>)
    ensures Run(c, h, es).0.inbox.ownSeqs == Held(c, c.inbox.ownSeqs, es)
    decreases |es|
  {
    hide Apply, Recorded, SettledAt, HeldAfter;
    if es != [] {
      StepHolds(c, es[0].0, es[0].1);
      OwnSeqsAreHeld(Apply(c, es[0].0, es[0].1).0, Recorded(c, h, es[0].0, es[0].1), es[1..]);
    }
  }

  lemma HeldTurnIsHidden(c: Client, a: Activity, env: Env)
    requires a.seqNo in c.inbox.ownSeqs && Absorb(c.inbox.watermark, c.inbox.seen + {a.seqNo}) < a.seqNo
    ensures Emissions(Apply(c, Receive(Persistent(a)), env).1) == []
  {
    hide Apply;
    EmissionsOf(c, Receive(Persistent(a)), env);
  }
}
