/** The sends of the Go socket: a pending map, an order list and one-place result channels. */
module GoSocket {
  /** A send as its caller sees it: results put in its channel, and whether the caller gave up. */
  datatype Send = Send(clientId: string, results: nat, forgotten: bool)

  datatype Socket = Socket(pending: map<string, nat>, order: seq<string>, closed: bool, sends: seq<Send>)

  datatype Step = Submit(clientId: string) | Answer(clientId: string) | Forget(send: nat) | Welcome | Finish

  function Told(sends: seq<Send>, p: nat): seq<Send> {
    if p < |sends| then sends[p := sends[p].(results := sends[p].results + 1)] else sends
  }

  function Submitted(s: Socket, id: string): Socket {
    if s.closed then s
    else s.(pending := s.pending[id := |s.sends|], order := s.order + [id], sends := s.sends + [Send(id, 0, false)])
  }

  /** An ack or an error that names a send. */
  function Answered(s: Socket, id: string): Socket {
    if id in s.pending then s.(pending := s.pending - {id}, sends := Told(s.sends, s.pending[id])) else s
  }

  /** The caller of a send without a result stops waiting, and removes what is pending under its id, be it another send. */
  function Forgotten(s: Socket, p: nat): Socket {
    if p < |s.sends| && Unresolved(s.sends[p]) then
      s.(pending := s.pending - {s.sends[p].clientId}, sends := s.sends[p := s.sends[p].(forgotten := true)])
    else s
  }

  predicate Unresolved(x: Send) {
    x.results == 0 && !x.forgotten
  }

  function Kept(order: seq<string>, pending: map<string, nat>): seq<string> {
    if order == [] then []
    else
      var (front, last) := (Kept(order[..|order| - 1], pending), order[|order| - 1]);
      if last in pending then front + [last] else front
  }

  /** The sends written again at a welcome. */
  function Resent(order: seq<string>, pending: map<string, nat>): seq<nat> {
    if order == [] then []
    else
      var (front, last) := (Resent(order[..|order| - 1], pending), order[|order| - 1]);
      if last in pending then front + [pending[last]] else front
  }

  function ToldAll(sends: seq<Send>, waiting: set<nat>): seq<Send> {
    seq(|sends|, i requires 0 <= i < |sends| => if i in waiting then sends[i].(results := sends[i].results + 1) else sends[i])
  }

  function Finished(s: Socket): Socket {
    if s.closed then s else s.(closed := true, pending := map[], sends := ToldAll(s.sends, s.pending.Values))
  }

  function Next(s: Socket, step: Step): Socket {
    match step
    case Submit(id) => Submitted(s, id)
    case Answer(id) => Answered(s, id)
    case Forget(p) => Forgotten(s, p)
    case Welcome => s.(order := Kept(s.order, s.pending))
    case Finish => Finished(s)
  }

  function Opened(): Socket {
    Socket(map[], [], false, [])
  }

  function Run(s: Socket, steps: seq<Step>): Socket
    decreases |steps|
  {
    if steps == [] then s else Run(Next(s, steps[0]), steps[1..])
  }

  // ---------------------------------------------------------------------
  // One result for each send
  // ---------------------------------------------------------------------

  /** A pending send has got nothing yet, is pending under its own id only, and will be met in the order list. */
  ghost predicate Sound(s: Socket) {
    && (forall id :: id in s.pending ==>
         && s.pending[id] < |s.sends| && s.sends[s.pending[id]].clientId == id
         && s.sends[s.pending[id]].results == 0 && !s.sends[s.pending[id]].forgotten && id in s.order)
    && (forall i :: 0 <= i < |s.sends| ==> s.sends[i].results <= 1)
    && (s.closed ==> s.pending == map[])
  }

  lemma {:induction false} KeptHolds(order: seq<string>, pending: map<string, nat>)
    ensures forall id :: id in Kept(order, pending) <==> id in order && id in pending
  {
    if order != [] {
      KeptHolds(order[..|order| - 1], pending);
      assert order == order[..|order| - 1] + [order[|order| - 1]];
    }
  }

  lemma StepIsSound(s: Socket, step: Step)
    requires Sound(s)
    ensures Sound(Next(s, step))
  {
    match step
    case Welcome => KeptHolds(s.order, s.pending);
    case Finish =>
      forall i | 0 <= i < |s.sends| && i in s.pending.Values
        ensures s.sends[i].results == 0
      {
        var id :| id in s.pending && s.pending[id] == i;
      }
    case _ =>
  }

  lemma {:induction false} RunIsSound(s: Socket, steps: seq<Step>)
    requires Sound(s)
    ensures Sound(Run(s, steps))
    decreases |steps|
  {
    hide Sound, Next;
    if steps != [] {
      StepIsSound(s, steps[0]);
      RunIsSound(Next(s, steps[0]), steps[1..]);
    }
  }

  /**
   * In every run, whatever ids the callers choose, a send's channel gets at most one result, so
   * putting it there under the lock never blocks; and every pending id is in the order list.
   */
  lemma ChannelsGetOneResult(steps: seq<Step>)
    ensures var s := Run(Opened(), steps);
      && (forall i :: 0 <= i < |s.sends| ==> s.sends[i].results <= 1)
      && (forall id :: id in s.pending ==> id in s.order && s.pending[id] < |s.sends| && s.sends[s.pending[id]].results == 0)
      && (s.closed ==> s.pending == map[])
  {
    RunIsSound(Opened(), steps);
  }

  // ---------------------------------------------------------------------
  // What a welcome writes again
  // ---------------------------------------------------------------------

  /** The unresolved sends, in the order of their submission. */
  function Waiting(sends: seq<Send>): seq<nat> {
    if sends == [] then []
    else
      var (front, last) := (Waiting(sends[..|sends| - 1]), |sends| - 1);
      if Unresolved(sends[last]) then front + [last] else front
  }

  function Except(s: seq<nat>, p: nat): seq<nat> {
    if s == [] then []
    else
      var (front, last) := (Except(s[..|s| - 1], p), s[|s| - 1]);
      if last == p then front else front + [last]
  }

  ghost predicate InOrder(s: Socket) {
    Resent(s.order, s.pending) == Waiting(s.sends)
  }

  lemma {:induction false} ResentWithout(order: seq<string>, pending: map<string, nat>, id: string)
    requires id in pending && forall x :: x in pending && x != id ==> pending[x] != pending[id]
    ensures Resent(order, pending - {id}) == Except(Resent(order, pending), pending[id])
  {
    if order != [] {
      var front, last := order[..|order| - 1], order[|order| - 1];
      ResentWithout(front, pending, id);
      if last in pending {
        ExceptLast(Resent(front, pending), pending[last], pending[id]);
      } else {
        assert Resent(order, pending) == Resent(front, pending);
      }
    }
  }

  lemma ExceptLast(s: seq<nat>, x: nat, p: nat)
    ensures Except(s + [x], p) == if x == p then Except(s, p) else Except(s, p) + [x]
  {
    assert (s + [x])[..|s|] == s;
  }

  lemma {:induction false} WaitingIsBelow(sends: seq<Send>)
    ensures forall i :: 0 <= i < |Waiting(sends)| ==> Waiting(sends)[i] < |sends|
    ensures forall i, j :: 0 <= i < j < |Waiting(sends)| ==> Waiting(sends)[i] < Waiting(sends)[j]
    ensures forall k :: k in Waiting(sends) <==> 0 <= k < |sends| && Unresolved(sends[k])
  {
    if sends != [] {
      WaitingIsBelow(sends[..|sends| - 1]);
    }
  }

  lemma {:induction false} ExceptAbsent(s: seq<nat>, p: nat)
    requires p !in s
    ensures Except(s, p) == s
  {
    if s != [] {
      ExceptAbsent(s[..|s| - 1], p);
    }
  }

  /** Resolving a send, by an answer or by giving up, takes it out of the waiting ones and nothing else. */
  lemma {:induction false} WaitingWithout(sends: seq<Send>, p: nat, x: Send)
    requires p < |sends| && !Unresolved(x)
    ensures Waiting(sends[p := x]) == Except(Waiting(sends), p)
  {
    var last := |sends| - 1;
    var front := sends[..last];
    WaitingIsBelow(front);
    assert sends == front + [sends[last]];
    WaitingLast(front, sends[last]);
    if p == last {
      hide Waiting, Unresolved;
      assert sends[p := x] == front + [x];
      WaitingLast(front, x);
      ExceptAbsent(Waiting(front), p);
      ExceptLast(Waiting(front), p, p);
    } else {
      hide Waiting, Unresolved;
      assert sends[p := x] == front[p := x] + [sends[last]];
      WaitingLast(front[p := x], sends[last]);
      WaitingWithout(front, p, x);
      ExceptLast(Waiting(front), last, p);
    }
  }

  lemma WaitingLast(front: seq<Send>, x: Send)
    ensures Waiting(front + [x]) == if Unresolved(x) then Waiting(front) + [|front|] else Waiting(front)
  {
    assert (front + [x])[..|front|] == front;
  }

  lemma {:induction false} ResentAfterSubmit(order: seq<string>, pending: map<string, nat>, id: string, n: nat)
    requires id !in order
    ensures Resent(order, pending[id := n]) == Resent(order, pending)
  {
    if order != [] {
      ResentAfterSubmit(order[..|order| - 1], pending, id, n);
    }
  }

  lemma {:induction false} ResentOfKept(order: seq<string>, pending: map<string, nat>)
    ensures Resent(Kept(order, pending), pending) == Resent(order, pending)
  {
    if order != [] {
      var front, last := order[..|order| - 1], order[|order| - 1];
      ResentOfKept(front, pending);
      if last in pending {
        assert (Kept(front, pending) + [last])[..|Kept(front, pending)|] == Kept(front, pending);
      } else {
        assert Kept(order, pending) == Kept(front, pending);
      }
    }
  }

  lemma {:induction false} NothingResent(order: seq<string>)
    ensures Resent(order, map[]) == []
  {
    if order != [] {
      NothingResent(order[..|order| - 1]);
    }
  }

  lemma {:induction false} NothingWaits(sends: seq<Send>)
    requires forall i :: 0 <= i < |sends| ==> !Unresolved(sends[i])
    ensures Waiting(sends) == []
  {
    if sends != [] {
      NothingWaits(sends[..|sends| - 1]);
    }
  }

  /** Finishing tells everyone who waits. */
  lemma FinishedTellsAll(s: Socket)
    requires Sound(s) && InOrder(s)
    ensures InOrder(Finished(s))
  {
    if !s.closed {
      var t := Finished(s);
      WaitingIsBelow(s.sends);
      ResentArePending(s.order, s.pending);
      forall i | 0 <= i < |t.sends|
        ensures !Unresolved(t.sends[i])
      {
        if Unresolved(s.sends[i]) {
          assert i in Waiting(s.sends);
        }
      }
      NothingWaits(t.sends);
      NothingResent(s.order);
    }
  }

  lemma {:induction false} ResentArePending(order: seq<string>, pending: map<string, nat>)
    ensures forall i :: i in Resent(order, pending) ==> i in pending.Values
  {
    if order != [] {
      ResentArePending(order[..|order| - 1], pending);
      var last := order[|order| - 1];
      assert last in pending ==> pending[last] in pending.Values;
    }
  }

  lemma ResolvedKeepsOrder(s: Socket, id: string, x: Send)
    requires Sound(s) && InOrder(s) && id in s.pending && !Unresolved(x)
    ensures InOrder(s.(pending := s.pending - {id}, sends := s.sends[s.pending[id] := x]))
  {
    ResentWithout(s.order, s.pending, id);
    WaitingWithout(s.sends, s.pending[id], x);
  }

  /** With new ids, whoever waits is pending under its own id. */
  lemma UnresolvedIsPending(s: Socket, p: nat)
    requires Sound(s) && InOrder(s) && p < |s.sends| && Unresolved(s.sends[p])
    ensures var id := s.sends[p].clientId; id in s.pending && s.pending[id] == p
  {
    WaitingIsBelow(s.sends);
    ResentArePending(s.order, s.pending);
    assert p in Resent(s.order, s.pending);
    var id :| id in s.pending && s.pending[id] == p;
  }

  lemma StepKeepsOrder(s: Socket, step: Step)
    requires Sound(s) && InOrder(s) && (step.Submit? ==> step.clientId !in s.order)
    ensures InOrder(Next(s, step))
  {
    match step
    case Submit(id) =>
      ResentAfterSubmit(s.order, s.pending, id, |s.sends|);
      assert (s.order + [id])[..|s.order|] == s.order;
      assert (s.sends + [Send(id, 0, false)])[..|s.sends|] == s.sends;
    case Answer(id) =>
      if id in s.pending {
        ResolvedKeepsOrder(s, id, s.sends[s.pending[id]].(results := 1));
      }
    case Forget(p) =>
      if p < |s.sends| && Unresolved(s.sends[p]) {
        UnresolvedIsPending(s, p);
        ResolvedKeepsOrder(s, s.sends[p].clientId, s.sends[p].(forgotten := true));
      }
    case Welcome => ResentOfKept(s.order, s.pending);
    case Finish => FinishedTellsAll(s);
  }

  /** No id is submitted again while the order list still has it. */
  predicate NewIds(s: Socket, steps: seq<Step>)
    decreases |steps|
  {
    steps == [] || ((steps[0].Submit? ==> steps[0].clientId !in s.order) && NewIds(Next(s, steps[0]), steps[1..]))
  }

  lemma {:induction false} RunKeepsOrder(s: Socket, steps: seq<Step>)
    requires Sound(s) && InOrder(s) && NewIds(s, steps)
    ensures Sound(Run(s, steps)) && InOrder(Run(s, steps))
    decreases |steps|
  {
    hide Sound, InOrder, Next;
    if steps != [] {
      StepIsSound(s, steps[0]);
      StepKeepsOrder(s, steps[0]);
      RunKeepsOrder(Next(s, steps[0]), steps[1..]);
    }
  }

  /**
   * In every run with new ids a welcome writes again exactly the sends that are neither answered
   * nor given up nor failed, each once, in the order of their submission.
   */
  lemma WelcomeResendsUnresolved(steps: seq<Step>)
    requires NewIds(Opened(), steps)
    ensures var s := Run(Opened(), steps);
      var again := Resent(s.order, s.pending);
      && (forall i, j :: 0 <= i < j < |again| ==> again[i] < again[j])
      && (forall k :: k in again <==> 0 <= k < |s.sends| && Unresolved(s.sends[k]))
  {
    RunKeepsOrder(Opened(), steps);
    WaitingIsBelow(Run(Opened(), steps).sends);
  }

  /** A welcome leaves in the order list exactly the ids that are pending. */
  lemma WelcomeForgetsResolved(steps: seq<Step>)
    ensures var (s, t) := (Run(Opened(), steps), Next(Run(Opened(), steps), Welcome));
      && (forall id :: id in t.order <==> id in s.pending)
      && Resent(t.order, t.pending) == Resent(s.order, s.pending) && t.sends == s.sends && t.pending == s.pending
  {
    hide Run;
    var s := Run(Opened(), steps);
    RunIsSound(Opened(), steps);
    KeptHolds(s.order, s.pending);
    ResentOfKept(s.order, s.pending);
  }

  /** In every run the socket is closed exactly when it was finished. */
  lemma {:induction false} ClosedIffFinished(s: Socket, steps: seq<Step>)
    ensures Run(s, steps).closed <==> s.closed || Finish in steps
    decreases |steps|
  {
    if steps != [] {
      ClosedIffFinished(Next(s, steps[0]), steps[1..]);
      assert forall x :: x in steps <==> x == steps[0] || x in steps[1..];
    }
  }

  /** What a step makes of the send numbered `i`, which is all that its caller learns. */
  function Verdict(x: Send, i: nat, step: Step): Send {
    if !Unresolved(x) then x
    else match step
      case Answer(id) => if x.clientId == id then x.(results := 1) else x
      case Forget(p) => if p == i then x.(forgotten := true) else x
      case Finish => x.(results := 1)
      case _ => x
  }

  lemma StepEnds(s: Socket, step: Step, i: nat)
    requires Sound(s) && InOrder(s) && i < |s.sends|
    ensures var t := Next(s, step);
      && |t.sends| == |s.sends| + (if step.Submit? && !s.closed then 1 else 0)
      && t.sends[i] == Verdict(s.sends[i], i, step)
      && (|t.sends| > |s.sends| ==> t.sends[|s.sends|] == Send(step.clientId, 0, false))
  {
    if Unresolved(s.sends[i]) {
      UnresolvedIsPending(s, i);
      assert s.pending[s.sends[i].clientId] in s.pending.Values;
    }
    assert i in s.pending.Values ==> exists id :: id in s.pending && s.pending[id] == i;
  }

  function Fate(x: Send, i: nat, steps: seq<Step>): Send
    decreases |steps|
  {
    if steps == [] then x else Fate(Verdict(x, i, steps[0]), i, steps[1..])
  }

  /**
   * In every run with new ids a send gets its result exactly at the first answer that names it or at the
   * close of the socket, unless its caller has given up before.
   */
  lemma {:induction false} SendEndsAsTold(s: Socket, steps: seq<Step>, i: nat)
    requires Sound(s) && InOrder(s) && NewIds(s, steps) && i < |s.sends|
    ensures i < |Run(s, steps).sends| && Run(s, steps).sends[i] == Fate(s.sends[i], i, steps)
    decreases |steps|
  {
    hide Sound, InOrder, Next, Verdict;
    if steps != [] {
      StepEnds(s, steps[0], i);
      StepIsSound(s, steps[0]);
      StepKeepsOrder(s, steps[0]);
      SendEndsAsTold(Next(s, steps[0]), steps[1..], i);
    }
  }

  /** An id submitted again while it is in the order list is written twice at the next welcome, and only such an id. */
  lemma ResentTwiceIffIdInOrder(s: Socket, id: string)
    requires Sound(s) && InOrder(s) && !s.closed
    ensures InOrder(Submitted(s, id)) <==> id !in s.order
  {
    var t := Submitted(s, id);
    assert t.order[..|s.order|] == s.order && t.sends[..|s.sends|] == s.sends;
    if id in s.order {
      var a, b, n := Resent(s.order, t.pending), Waiting(s.sends), |s.sends|;
      assert Resent(t.order, t.pending) == a + [n] && Waiting(t.sends) == b + [n];
      OldPlaceIsResent(s.order, t.pending, id);
      WaitingIsBelow(s.sends);
      assert n in a && n !in b;
      assert (a + [n])[..|a|] == a && (b + [n])[..|b|] == b;
    } else {
      StepKeepsOrder(s, Submit(id));
    }
  }

  /** An id that is answered and submitted again before a welcome is written twice by it. */
  lemma ReusedIdIsResentTwice(id: string)
    ensures var s := Run(Opened(), [Submit(id), Answer(id), Submit(id)]); Resent(s.order, s.pending) == [1, 1]
  {
    var steps := [Submit(id), Answer(id), Submit(id)];
    var s1 := Next(Opened(), Submit(id));
    assert s1 == Socket(map[id := 0], [id], false, [Send(id, 0, false)]);
    var s2 := Next(s1, Answer(id));
    assert s2 == Socket(map[], [id], false, [Send(id, 1, false)]);
    var s3 := Next(s2, Submit(id));
    assert s3.pending == map[id := 1] && s3.order == [id, id];
    hide Next;
    assert steps[1..][1..] == [Submit(id)] && [Submit(id)][1..] == [];
    assert Run(s2, [Submit(id)]) == Run(s3, []);
    assert Run(s1, steps[1..]) == Run(s2, [Submit(id)]);
    assert [id, id][..1] == [id] && [id][..0] == [];
    assert Resent([id], s3.pending) == [1];
  }

  /** A send that is not pending: nobody puts a result in its channel. */
  predicate CutOff(s: Socket, p: nat) {
    p < |s.sends| && Unresolved(s.sends[p]) && p !in s.pending.Values
  }

  lemma CutOffStep(s: Socket, step: Step, p: nat)
    requires CutOff(s, p) && step != Forget(p)
    ensures CutOff(Next(s, step), p)
  {
    if step.Answer? && step.clientId in s.pending {
      assert s.pending[step.clientId] in s.pending.Values;
    }
    var t := Next(s, step);
    forall id | id in t.pending
      ensures t.pending[id] != p
    {
      assert id in s.pending ==> s.pending[id] in s.pending.Values;
    }
  }

  /** A caller that is cut off gets no result in any run, the close of the socket included, until it stops waiting itself. */
  lemma {:induction false} CutOffEndsOnlyItself(s: Socket, steps: seq<Step>, p: nat)
    requires CutOff(s, p) && Forget(p) !in steps
    ensures CutOff(Run(s, steps), p)
    decreases |steps|
  {
    hide CutOff, Next;
    if steps != [] {
      assert steps[0] in steps;
      CutOffStep(s, steps[0], p);
      CutOffEndsOnlyItself(Next(s, steps[0]), steps[1..], p);
    }
  }

  function TwoSends(id: string): Socket {
    Socket(map[id := 1], [id, id], false, [Send(id, 0, false), Send(id, 0, false)])
  }

  lemma TwoSendsRun(id: string, more: seq<Step>)
    ensures Run(Opened(), [Submit(id), Submit(id)] + more) == Run(TwoSends(id), more)
  {
    var steps := [Submit(id), Submit(id)] + more;
    var s1 := Next(Opened(), Submit(id));
    assert s1 == Socket(map[id := 0], [id], false, [Send(id, 0, false)]);
    assert Next(s1, Submit(id)) == TwoSends(id);
    hide Next;
    assert steps[1..] == [Submit(id)] + more && steps[1..][1..] == more;
  }

  lemma OneValue(id: string, n: nat)
    ensures map[id := n].Values == {n}
  {
    assert map[id := n][id] in map[id := n].Values;
  }

  /**
   * Two sends under one id over a new socket: the first is cut off until its timeout, and that timeout
   * removes the entry of the second, which is cut off in turn: even the ack of the message ends neither.
   */
  lemma ReusedIdCutsOffBoth(id: string, more: seq<Step>)
    requires Forget(0) !in more
    ensures CutOff(Run(Opened(), [Submit(id), Submit(id)] + more), 0)
    ensures Forget(1) !in more ==> CutOff(Run(Opened(), [Submit(id), Submit(id)] + ([Forget(0)] + more)), 1)
  {
    var s := TwoSends(id);
    OneValue(id, 1);
    TwoSendsRun(id, more);
    TwoSendsRun(id, [Forget(0)] + more);
    CutOffEndsOnlyItself(s, more, 0);
    if Forget(1) !in more {
      var t := Next(s, Forget(0));
      assert t.pending == map[] && t.sends == [Send(id, 0, true), Send(id, 0, false)];
      assert ([Forget(0)] + more)[1..] == more;
      CutOffEndsOnlyItself(t, more, 1);
    }
  }

  lemma {:induction false} OldPlaceIsResent(order: seq<string>, pending: map<string, nat>, id: string)
    requires id in order && id in pending
    ensures pending[id] in Resent(order, pending)
  {
    var front, last := order[..|order| - 1], order[|order| - 1];
    if last != id {
      OldPlaceIsResent(front, pending, id);
    }
  }

  // ---------------------------------------------------------------------
  // The object
  // ---------------------------------------------------------------------

  class Connection {
    var pending: map<string, nat>
    var order: seq<string>
    var closed: bool
    var sends: seq<Send>

    ghost function Value(): Socket
      reads this
    {
      Socket(pending, order, closed, sends)
    }

    constructor ()
      ensures Value() == Opened()
    {
      pending, order, closed, sends := map[], [], false, [];
    }

    method SendMessage(id: string) returns (ok: bool)
      modifies this
      ensures Value() == Submitted(old(Value()), id) && ok == !old(closed)
    {
      if closed {
        return false;
      }
      pending := pending[id := |sends|];
      order := order + [id];
      sends := sends + [Send(id, 0, false)];
      return true;
    }

    method OnAnswer(id: string)
      requires Sound(Value())
      modifies this
      ensures Value() == Answered(old(Value()), id) && Sound(Value())
    {
      StepIsSound(Value(), Answer(id));
      if id in pending {
        var p := pending[id];
        pending := pending - {id};
        sends := sends[p := sends[p].(results := sends[p].results + 1)];
      }
    }

    /** The caller of send `p` stops waiting. */
    method Forget(p: nat)
      requires p < |sends| && Unresolved(sends[p]) && Sound(Value())
      modifies this
      ensures Value() == Forgotten(old(Value()), p) && Sound(Value())
    {
      StepIsSound(Value(), Step.Forget(p));
      pending := pending - {sends[p].clientId};
      sends := sends[p := sends[p].(forgotten := true)];
    }

    /** The frames to write again; the order list forgets what is resolved. */
    method OnWelcome() returns (resend: seq<nat>)
      modifies `order
      ensures resend == Resent(old(order), pending)
      ensures Value() == Next(old(Value()), Welcome)
    {
      var kept: seq<string> := [];
      resend := [];
      for i := 0 to |order|
        invariant kept == Kept(order[..i], pending) && resend == Resent(order[..i], pending)
      {
        assert order[..i + 1][..i] == order[..i];
        if order[i] in pending {
          resend := resend + [pending[order[i]]];
          kept := kept + [order[i]];
        }
      }
      assert order[..|order|] == order;
      order := kept;
    }

    /** A result for everyone who waits. */
    method TellPending()
      requires Apart(pending) && forall id :: id in pending ==> pending[id] < |sends|
      modifies `sends
      ensures sends == ToldAll(old(sends), pending.Values)
    {
      hide ToldAll, Apart;
      NobodyTold(sends);
      var left := pending;
      ghost var told: set<nat> := {};
      while left != map[]
        invariant sends == ToldAll(old(sends), told)
        invariant told + left.Values == pending.Values && told !! left.Values
        invariant Apart(left) && forall id :: id in left ==> left[id] < |sends|
        decreases left
      {
        var id :| id in left;
        var p := left[id];
        assert p in left.Values;
        ValuesWithout(left, id);
        ToldOneMore(old(sends), told, p);
        sends := sends[p := sends[p].(results := sends[p].results + 1)];
        left := left - {id};
        told := told + {p};
      }
      assert told == pending.Values;
    }

    method Close()
      requires Sound(Value())
      modifies this
      ensures Value() == Finished(old(Value())) && Sound(Value())
    {
      hide Sound;
      StepIsSound(Value(), Finish);
      SoundIsApart(Value());
      if closed {
        return;
      }
      closed := true;
      TellPending();
      pending := map[];
    }
  }

  lemma SoundIsApart(s: Socket)
    requires Sound(s)
    ensures Apart(s.pending) && forall id :: id in s.pending ==> s.pending[id] < |s.sends|
  {
  }

  ghost predicate Apart(pending: map<string, nat>) {
    forall x, y :: x in pending && y in pending && x != y ==> pending[x] != pending[y]
  }

  lemma ValuesWithout(m: map<string, nat>, id: string)
    requires id in m && Apart(m)
    ensures (m - {id}).Values == m.Values - {m[id]} && Apart(m - {id})
  {
    forall v | v in m.Values && v != m[id]
      ensures v in (m - {id}).Values
    {
      var x :| x in m && m[x] == v;
      assert x in m - {id} && (m - {id})[x] == v;
    }
  }

  lemma NobodyTold(sends: seq<Send>)
    ensures ToldAll(sends, {}) == sends
  {
  }

  lemma ToldOneMore(sends: seq<Send>, told: set<nat>, p: nat)
    requires p < |sends| && p !in told
    ensures var t := ToldAll(sends, told); t[p := t[p].(results := t[p].results + 1)] == ToldAll(sends, told + {p})
  {
  }
}
