/**
 * Acknowledgements over Server-Sent Events: the answer to a POST and the turn
 * on the stream race, and whichever comes second makes the ack.
 */
module SseAcks {
  import opened Recency

  const LIMIT := 500

  datatype Entry = Entry(id: string, seqNo: int)

  datatype Ack = Ack(clientId: string, id: string, seqNo: int)

  /** Activities seen on the stream, oldest first, and posts whose activity has not been seen. */
  datatype Transport = Transport(recent: seq<Entry>, awaiting: map<string, string>)

  datatype Event = Arrived(id: string, seqNo: int) | Posted(clientId: string, id: string)

  function IndexOf(recent: seq<Entry>, id: string): (i: nat)
    ensures i <= |recent| && (i < |recent| ==> recent[i].id == id)
    ensures forall j :: 0 <= j < i ==> recent[j].id != id
  {
    if recent == [] || recent[0].id == id then 0 else IndexOf(recent[1..], id) + 1
  }

  /** Map.set, then the oldest entry leaves when there are too many. */
  function Remembered(recent: seq<Entry>, id: string, n: int): seq<Entry> {
    var i := IndexOf(recent, id);
    var grown := if i < |recent| then recent[i := Entry(id, n)] else recent + [Entry(id, n)];
    if |grown| > LIMIT then grown[1..] else grown
  }

  function Apply(t: Transport, e: Event): (Transport, seq<Ack>) {
    match e
    case Arrived(id, n) =>
      var seen := t.(recent := Remembered(t.recent, id, n));
      if id in t.awaiting then (seen.(awaiting := t.awaiting - {id}), [Ack(t.awaiting[id], id, n)]) else (seen, [])
    case Posted(clientId, id) =>
      var i := IndexOf(t.recent, id);
      if clientId == "" then (t, [])
      else if i < |t.recent| then (t, [Ack(clientId, id, t.recent[i].seqNo)])
      else (t.(awaiting := t.awaiting[id := clientId]), [])
  }

  function Run(t: Transport, es: seq<Event>): Transport
    decreases |es|
  {
    if es == [] then t else Run(Apply(t, es[0]).0, es[1..])
  }

  /** The acks that name an activity. */
  function Acks(t: Transport, es: seq<Event>, id: string): seq<Ack>
    decreases |es|
  {
    if es == [] then []
    else
      var (u, out) := Apply(t, es[0]);
      (if out != [] && out[0].id == id then out else []) + Acks(u, es[1..], id)
  }

  predicate Knows(t: Transport, id: string) {
    IndexOf(t.recent, id) < |t.recent|
  }

  /** The activity was stored as `n`: every frame of it says so, and none of these events is its POST. */
  ghost predicate OnStream(es: seq<Event>, id: string, n: int) {
    forall i :: 0 <= i < |es| ==> match es[i]
      case Arrived(x, k) => x == id ==> k == n
      case Posted(_, x) => x != id
  }

  predicate Arrives(es: seq<Event>, id: string) {
    exists i :: 0 <= i < |es| && es[i].Arrived? && es[i].id == id
  }

  // ---------------------------------------------------------------------
  // Before and after the answer
  // ---------------------------------------------------------------------

  /** What the transport remembers of the activity is right. */
  ghost predicate Right(t: Transport, id: string, n: int) {
    forall j :: 0 <= j < |t.recent| && t.recent[j].id == id ==> t.recent[j].seqNo == n
  }

  lemma ApplyStaysRight(t: Transport, e: Event, id: string, n: int)
    requires Right(t, id, n) && OnStream([e], id, n)
    ensures Right(Apply(t, e).0, id, n)
  {
    assert OnStream([e], id, n) && [e][0] == e;
  }

  lemma TailOnStream(es: seq<Event>, id: string, n: int)
    requires es != [] && OnStream(es, id, n)
    ensures OnStream([es[0]], id, n) && OnStream(es[1..], id, n)
  {
  }

  lemma {:induction false} QuietBefore(t: Transport, es: seq<Event>, id: string, n: int)
    requires OnStream(es, id, n) && id !in t.awaiting && Right(t, id, n)
    ensures Acks(t, es, id) == [] && id !in Run(t, es).awaiting && Right(Run(t, es), id, n)
    decreases |es|
  {
    if es != [] {
      TailOnStream(es, id, n);
      ApplyStaysRight(t, es[0], id, n);
      QuietBefore(Apply(t, es[0]).0, es[1..], id, n);
    }
  }

  /** A post that waits gets its ack from the first frame of its activity, and from no other. */
  lemma {:induction false} AckedByFirstFrame(t: Transport, es: seq<Event>, clientId: string, id: string, n: int)
    requires OnStream(es, id, n) && id in t.awaiting && t.awaiting[id] == clientId && Right(t, id, n)
    ensures Acks(t, es, id) == if Arrives(es, id) then [Ack(clientId, id, n)] else []
    decreases |es|
  {
    if es != [] {
      var rest := es[1..];
      TailOnStream(es, id, n);
      ApplyStaysRight(t, es[0], id, n);
      if es[0].Arrived? && es[0].id == id {
        QuietBefore(Apply(t, es[0]).0, rest, id, n);
        assert Arrives(es, id);
      } else {
        AckedByFirstFrame(Apply(t, es[0]).0, rest, clientId, id, n);
        ArrivesLater(es, id);
      }
    }
  }

  lemma ArrivesLater(es: seq<Event>, id: string)
    requires es != [] && !(es[0].Arrived? && es[0].id == id)
    ensures Arrives(es, id) <==> Arrives(es[1..], id)
  {
    if Arrives(es[1..], id) {
      var i :| 0 <= i < |es[1..]| && es[1..][i].Arrived? && es[1..][i].id == id;
      assert es[i + 1].id == id;
    }
  }

  lemma {:induction false} AcksOfAppend(t: Transport, a: seq<Event>, b: seq<Event>, id: string)
    ensures Acks(t, a + b, id) == Acks(t, a, id) + Acks(Run(t, a), b, id)
    decreases |a|
  {
    hide Apply;
    if a == [] {
      assert a + b == b;
    } else {
      AcksOfAppend(Apply(t, a[0]).0, a[1..], b, id);
      assert (a + b)[1..] == a[1..] + b;
    }
  }

  /**
   * A send posted once never gets more than one ack, and an ack carries its own client id and
   * the stored seq. It gets it exactly when the answer still finds the activity among the recent
   * ones, or the activity arrives after the answer.
   */
  lemma OneAckOrNone(before: seq<Event>, after: seq<Event>, clientId: string, id: string, n: int)
    requires clientId != "" && OnStream(before, id, n) && OnStream(after, id, n)
    ensures var t := Transport([], map[]);
      Acks(t, before + [Posted(clientId, id)] + after, id) ==
        if Knows(Run(t, before), id) || Arrives(after, id) then [Ack(clientId, id, n)] else []
  {
    var t, post := Transport([], map[]), [Posted(clientId, id)];
    QuietBefore(t, before, id, n);
    var u := Run(t, before);
    var v := Apply(u, post[0]).0;
    AcksOfAppend(t, before + post, after, id);
    AcksOfAppend(t, before, post, id);
    RunOfAppend(t, before, post);
    assert Run(u, post) == Run(v, post[1..]) == v;
    if Knows(u, id) {
      QuietBefore(v, after, id, n);
    } else {
      AckedByFirstFrame(v, after, clientId, id, n);
    }
  }

  lemma {:induction false} RunOfAppend(t: Transport, a: seq<Event>, b: seq<Event>)
    ensures Run(t, a + b) == Run(Run(t, a), b)
    decreases |a|
  {
    hide Apply;
    if a == [] {
      assert a + b == b;
    } else {
      RunOfAppend(Apply(t, a[0]).0, a[1..], b);
      assert (a + b)[1..] == a[1..] + b;
    }
  }

  // ---------------------------------------------------------------------
  // How long an activity stays known
  // ---------------------------------------------------------------------

  /** The other activities that arrive. */
  function Others(es: seq<Event>, id: string): set<string> {
    set e | e in es && e.Arrived? && e.id != id :: e.id
  }

  function Ids(recent: seq<Entry>): seq<string> {
    seq(|recent|, i requires 0 <= i < |recent| => recent[i].id)
  }

  /** The activity is known, and the ones that came after it are among `others`. */
  ghost predicate Followed(recent: seq<Entry>, id: string, others: set<string>) {
    && NoRepeats(Ids(recent)) && |recent| <= LIMIT
    && exists k :: FollowedAt(recent, id, others, k)
  }

  ghost predicate FollowedAt(recent: seq<Entry>, id: string, others: set<string>, k: int) {
    0 <= k < |recent| && recent[k].id == id && forall j :: k < j < |recent| ==> recent[j].id in others
  }

  lemma RememberedHasNoRepeats(recent: seq<Entry>, id: string, n: int)
    requires NoRepeats(Ids(recent)) && |recent| <= LIMIT
    ensures NoRepeats(Ids(Remembered(recent, id, n))) && |Remembered(recent, id, n)| <= LIMIT
  {
    var i := IndexOf(recent, id);
    var grown := if i < |recent| then recent[i := Entry(id, n)] else recent + [Entry(id, n)];
    assert forall j :: 0 <= j < |recent| ==> Ids(recent)[j] == recent[j].id;
    forall a, b | 0 <= a < b < |grown|
      ensures grown[a].id != grown[b].id
    {
      assert a < |recent| ==> grown[a].id == recent[a].id == Ids(recent)[a];
      assert b < |recent| ==> grown[b].id == recent[b].id == Ids(recent)[b];
    }
  }

  /** With no repeats, fewer than the limit can follow, so the activity is not the one to leave. */
  lemma FollowedStays(recent: seq<Entry>, id: string, others: set<string>, x: string, n: int)
    requires Followed(recent, id, others) && |others| < LIMIT && (x == id || x in others) && id !in others
    ensures Followed(Remembered(recent, x, n), id, others)
  {
    RememberedHasNoRepeats(recent, x, n);
    var k :| FollowedAt(recent, id, others, k);
    var i := IndexOf(recent, x);
    var r := Remembered(recent, x, n);
    if i < |recent| {
      assert FollowedAt(r, id, others, k);
    } else if |recent| < LIMIT {
      assert FollowedAt(r, id, others, k);
    } else {
      assert k == 0 ==> |recent| - 1 <= |others - {x}| by {
        if k == 0 {
          AllOthers(recent, others - {x});
        }
      }
      assert FollowedAt(r, id, others, k - 1);
    }
  }

  lemma AllOthers(recent: seq<Entry>, others: set<string>)
    requires NoRepeats(Ids(recent)) && recent != [] && forall j :: 0 < j < |recent| ==> recent[j].id in others
    ensures |recent| - 1 <= |others|
  {
    var tail := Ids(recent)[1..];
    SizeOfElements(tail);
    assert Elements(tail) <= others;
    assert others == Elements(tail) + (others - Elements(tail));
  }

  lemma {:induction false} StaysKnown(t: Transport, es: seq<Event>, id: string, others: set<string>)
    requires Followed(t.recent, id, others) && Others(es, id) <= others && |others| < LIMIT && id !in others
    ensures Followed(Run(t, es).recent, id, others)
    decreases |es|
  {
    hide Followed;
    if es != [] {
      if es[0].Arrived? {
        assert es[0].id != id ==> es[0].id in Others(es, id);
        FollowedStays(t.recent, id, others, es[0].id, es[0].seqNo);
      }
      assert Others(es[1..], id) <= Others(es, id);
      StaysKnown(Apply(t, es[0]).0, es[1..], id, others);
    }
  }

  lemma {:induction false} RunHasNoRepeats(t: Transport, es: seq<Event>)
    requires NoRepeats(Ids(t.recent)) && |t.recent| <= LIMIT
    ensures NoRepeats(Ids(Run(t, es).recent)) && |Run(t, es).recent| <= LIMIT
    decreases |es|
  {
    hide NoRepeats, Remembered;
    if es != [] {
      if es[0].Arrived? {
        RememberedHasNoRepeats(t.recent, es[0].id, es[0].seqNo);
      }
      RunHasNoRepeats(Apply(t, es[0]).0, es[1..]);
    }
  }

  lemma FollowedIsKnown(t: Transport, id: string, others: set<string>)
    requires Followed(t.recent, id, others)
    ensures Knows(t, id)
  {
  }

  /** The activity has just been taken up, as the newest one. */
  lemma NewestIsFollowed(t: Transport, id: string, n: int, others: set<string>)
    requires NoRepeats(Ids(t.recent)) && |t.recent| <= LIMIT && !Knows(t, id)
    ensures Followed(Apply(t, Arrived(id, n)).0.recent, id, others)
  {
    var r := Remembered(t.recent, id, n);
    RememberedHasNoRepeats(t.recent, id, n);
    assert FollowedAt(r, id, others, |r| - 1);
  }

  /**
   * The activity of a send arrives before the answer to its POST, with fewer than 500 other
   * activities in between: a send posted once then yields exactly one ack, with its own client id and
   * the stored seq. When the answer comes first, OneAckOrNone says that the arrival makes the ack.
   */
  lemma ExactlyOneAck(early: seq<Event>, between: seq<Event>, after: seq<Event>, clientId: string, id: string, n: int)
    requires clientId != "" && OnStream(early + [Arrived(id, n)] + between, id, n) && OnStream(after, id, n)
    requires !Knows(Run(Transport([], map[]), early), id) && |Others(between, id)| < 500
    ensures Acks(Transport([], map[]), early + [Arrived(id, n)] + between + [Posted(clientId, id)] + after, id)
      == [Ack(clientId, id, n)]
  {
    var t, arrival := Transport([], map[]), [Arrived(id, n)];
    var u := Run(t, early);
    RunHasNoRepeats(t, early);
    NewestIsFollowed(u, id, n, Others(between, id));
    RunOfAppend(t, early + arrival, between);
    RunOfAppend(t, early, arrival);
    assert Run(u, arrival) == Run(Apply(u, arrival[0]).0, arrival[1..]);
    StaysKnown(Run(t, early + arrival), between, id, Others(between, id));
    FollowedIsKnown(Run(t, early + arrival + between), id, Others(between, id));
    OneAckOrNone(early + arrival + between, after, clientId, id, n);
  }

  // ---------------------------------------------------------------------
  // The bound is exact
  // ---------------------------------------------------------------------

  function ArrivalIds(es: seq<Event>): seq<string> {
    seq(|es|, i requires 0 <= i < |es| => es[i].id)
  }

  /** Activities that arrive for the first time. */
  ghost predicate AllNew(t: Transport, es: seq<Event>) {
    && (forall i :: 0 <= i < |es| ==> es[i].Arrived?)
    && NoRepeats(Ids(t.recent) + ArrivalIds(es))
  }

  lemma IdsAfterNew(recent: seq<Entry>, id: string, n: int)
    requires |recent| <= LIMIT && id !in Ids(recent)
    ensures Ids(Remembered(recent, id, n)) == Last(Ids(recent) + [id], LIMIT)
  {
    assert forall j :: 0 <= j < |recent| ==> Ids(recent)[j] == recent[j].id;
    assert Ids(recent + [Entry(id, n)]) == Ids(recent) + [id];
  }

  lemma LastTwice<T>(s: seq<T>, t: seq<T>, n: nat)
    requires n >= 1
    ensures Last(Last(s, n) + t, n) == Last(s + t, n)
  {
  }

  lemma {:induction false} NewIdsQueueUp(t: Transport, es: seq<Event>)
    requires |t.recent| <= LIMIT && AllNew(t, es)
    ensures Ids(Run(t, es).recent) == Last(Ids(t.recent) + ArrivalIds(es), LIMIT)
    decreases |es|
  {
    var ids := Ids(t.recent);
    if es == [] {
      assert ids + ArrivalIds(es) == ids;
    } else {
      var x, rest, u := es[0].id, es[1..], Apply(t, es[0]).0;
      assert ArrivalIds(es) == [x] + ArrivalIds(rest);
      assert ids + ArrivalIds(es) == ids + [x] + ArrivalIds(rest);
      assert x !in ids by {
        assert (ids + ArrivalIds(es))[|ids|] == x;
        assert forall j :: 0 <= j < |ids| ==> (ids + ArrivalIds(es))[j] == ids[j];
      }
      IdsAfterNew(t.recent, x, es[0].seqNo);
      LastTwice(ids + [x], ArrivalIds(rest), LIMIT);
      StillNew(t, es);
      NewIdsQueueUp(u, rest);
    }
  }

  lemma StillNew(t: Transport, es: seq<Event>)
    requires es != [] && |t.recent| <= LIMIT && AllNew(t, es) && es[0].id !in Ids(t.recent)
    ensures AllNew(Apply(t, es[0]).0, es[1..]) && |Apply(t, es[0]).0.recent| <= LIMIT
  {
    var x, ids, rest := es[0].id, Ids(t.recent), ArrivalIds(es[1..]);
    IdsAfterNew(t.recent, x, es[0].seqNo);
    assert ids + ArrivalIds(es) == ids + [x] + rest;
    var all, left := ids + [x] + rest, Last(ids + [x], LIMIT) + rest;
    assert left == all[|all| - |left|..];
  }

  /**
   * Once taken up, an activity is known exactly as long as fewer than 500 new ones have arrived:
   * an answer after that finds nothing, and without another frame of the activity there is no ack.
   */
  lemma KnownIffFewerThanLimit(t: Transport, id: string, n: int, es: seq<Event>)
    requires |t.recent| <= LIMIT && AllNew(t, [Arrived(id, n)] + es)
    ensures Knows(Run(t, [Arrived(id, n)] + es), id) <==> |es| < 500
  {
    var all := [Arrived(id, n)] + es;
    var u := Run(t, all);
    NewIdsQueueUp(t, all);
    var queued, p := Ids(t.recent) + ArrivalIds(all), |t.recent|;
    assert queued[p] == id;
    KnownIsListed(u, id);
    InLastIff(queued, p, LIMIT);
  }

  /** A post without a client id is not acknowledged and changes nothing. */
  lemma AnonymousPostIsNotAcked(before: seq<Event>, after: seq<Event>, id: string, n: int)
    requires OnStream(before, id, n) && OnStream(after, id, n)
    ensures var t := Transport([], map[]);
      && Acks(t, before + [Posted("", id)] + after, id) == []
      && Run(t, before + [Posted("", id)]) == Run(t, before)
  {
    var t, post := Transport([], map[]), [Posted("", id)];
    QuietBefore(t, before, id, n);
    var u := Run(t, before);
    QuietBefore(u, after, id, n);
    AnonymousPostIsQuiet(u, id);
    RunOfAppend(t, before, post);
    AcksOfAppend(t, before, post, id);
    AcksOfAppend(t, before + post, after, id);
  }

  lemma AnonymousPostIsQuiet(t: Transport, id: string)
    ensures Run(t, [Posted("", id)]) == t && Acks(t, [Posted("", id)], id) == []
  {
    var post, none: seq<Ack> := [Posted("", id)], [];
    assert post[1..] == [] && Apply(t, post[0]) == (t, none) && none + none == none;
    assert Acks(t, post[1..], id) == none;
    assert Acks(t, post, id) == none + Acks(t, post[1..], id);
  }

  /** What the stream said last of an activity is what a post of it is told right after. */
  lemma LatestSeqIsAcked(t: Transport, clientId: string, id: string, n: int)
    requires clientId != "" && |t.recent| <= LIMIT
    ensures Apply(Apply(t, Arrived(id, n)).0, Posted(clientId, id)).1 == [Ack(clientId, id, n)]
  {
    var i, r := IndexOf(t.recent, id), Remembered(t.recent, id, n);
    var k := if i < |t.recent| then i else |r| - 1;
    assert r[k] == Entry(id, n);
    assert forall j :: 0 <= j < k ==> r[j].id != id;
  }

  lemma KnownIsListed(t: Transport, id: string)
    ensures Knows(t, id) <==> id in Ids(t.recent)
  {
    var i := IndexOf(t.recent, id);
    assert forall j :: 0 <= j < |t.recent| ==> Ids(t.recent)[j] == t.recent[j].id;
    assert i < |t.recent| ==> Ids(t.recent)[i] == id;
  }

  lemma InLastIff<T(!new)>(s: seq<T>, p: nat, n: nat)
    requires p < |s| && NoRepeats(s) && n >= 1
    ensures s[p] in Last(s, n) <==> |s| - p <= n
  {
    var l := Last(s, n);
    if |s| > n {
      assert |s| - n <= p ==> l[p - (|s| - n)] == s[p];
    }
  }

  // ---------------------------------------------------------------------
  // The object
  // ---------------------------------------------------------------------

  class Stream {
    var recent: seq<Entry>
    var awaiting: map<string, string>

    ghost function Value(): Transport
      reads this
    {
      Transport(recent, awaiting)
    }

    constructor ()
      ensures Value() == Transport([], map[])
    {
      recent, awaiting := [], map[];
    }

    method Find(id: string) returns (i: nat)
      ensures i == IndexOf(recent, id)
    {
      i := 0;
      while i < |recent| && recent[i].id != id
        invariant i <= |recent| && IndexOf(recent, id) == i + IndexOf(recent[i..], id)
      {
        assert recent[i..][1..] == recent[i + 1..];
        i := i + 1;
      }
    }

    method OnActivity(id: string, n: int) returns (acks: seq<Ack>)
      modifies this
      ensures (Value(), acks) == Apply(old(Value()), Arrived(id, n))
    {
      var i := Find(id);
      recent := if i < |recent| then recent[i := Entry(id, n)] else recent + [Entry(id, n)];
      if |recent| > LIMIT {
        recent := recent[1..];
      }
      acks := [];
      if id in awaiting {
        acks := [Ack(awaiting[id], id, n)];
        awaiting := awaiting - {id};
      }
    }

    method OnPosted(clientId: string, id: string) returns (acks: seq<Ack>)
      modifies this
      ensures (Value(), acks) == Apply(old(Value()), Posted(clientId, id))
    {
      acks := [];
      if clientId == "" {
        return;
      }
      var i := Find(id);
      if i < |recent| {
        acks := [Ack(clientId, id, recent[i].seqNo)];
      } else {
        awaiting := awaiting[id := clientId];
      }
    }
  }
}
