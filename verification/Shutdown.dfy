/** How the .NET agent ends: running turns, pending sends and asks when RunAsync returns. */
module Shutdown {
  import T = TurnDispatch

  datatype Outcome = Open | Answered | Failed | Abandoned

  /** What a caller waits for: the ack of a send, or the answer to an ask. */
  datatype Promise = Promise(isAsk: bool, key: string, outcome: Outcome)

  datatype Runtime = Runtime(turns: T.Dispatcher, pending: map<string, nat>, asks: map<string, nat>, promises: seq<Promise>)

  datatype Step =
    | Turns(step: T.Step)
    | Send(clientId: string)
    | Ask(interrupt: string)
    | Ack(clientId: string)
    | Error(clientId: string)
    | Resume(interrupts: seq<string>)
    | Forget(promise: nat)
    | DropAsk(interrupt: string)
    | Stop

  /** A promise completes once; later results are ignored. */
  function Completed(promises: seq<Promise>, p: nat, o: Outcome): seq<Promise> {
    if p < |promises| && promises[p].outcome == Open then promises[p := promises[p].(outcome := o)] else promises
  }

  function SendDone(r: Runtime, clientId: string, o: Outcome): Runtime {
    if clientId !in r.pending then r
    else r.(pending := r.pending - {clientId}, promises := Completed(r.promises, r.pending[clientId], o))
  }

  /** The caller of a send stops waiting, and removes what is registered under its key, be it another send. */
  function Forgotten(r: Runtime, p: nat): Runtime {
    if p < |r.promises| && !r.promises[p].isAsk && r.promises[p].outcome == Open then
      r.(pending := r.pending - {r.promises[p].key}, promises := Completed(r.promises, p, Abandoned))
    else r
  }

  function AskDone(r: Runtime, interrupt: string, o: Outcome): Runtime {
    if interrupt !in r.asks then r
    else r.(asks := r.asks - {interrupt}, promises := Completed(r.promises, r.asks[interrupt], o))
  }

  function Resumed(r: Runtime, interrupts: seq<string>): Runtime
    decreases |interrupts|
  {
    if interrupts == [] then r else Resumed(AskDone(r, interrupts[0], Answered), interrupts[1..])
  }

  function FailedAll(promises: seq<Promise>, waiting: set<nat>): seq<Promise> {
    seq(|promises|, i requires 0 <= i < |promises| =>
      if i in waiting && promises[i].outcome == Open then promises[i].(outcome := Failed) else promises[i])
  }

  function Stopped(r: Runtime): Runtime {
    if r.turns.stopped then r
    else Runtime(T.Stopped(r.turns), map[], map[], FailedAll(r.promises, r.pending.Values + r.asks.Values))
  }

  function Next(r: Runtime, s: Step): Runtime {
    match s
    case Turns(step) => if step.Stop? then Stopped(r) else r.(turns := T.Next(r.turns, step))
    case Send(id) =>
      if r.turns.stopped then r
      else r.(pending := r.pending[id := |r.promises|], promises := r.promises + [Promise(false, id, Open)])
    case Ask(id) =>
      if r.turns.stopped then r
      else r.(asks := r.asks[id := |r.promises|], promises := r.promises + [Promise(true, id, Open)])
    case Ack(id) => SendDone(r, id, Answered)
    case Error(id) => if id == "" then r else SendDone(r, id, Failed)
    case Resume(ids) => Resumed(r, ids)
    case Forget(p) => Forgotten(r, p)
    case DropAsk(id) => AskDone(r, id, Abandoned)
    case Stop => Stopped(r)
  }

  /** Whoever waits can still be told: the agent holds the promise under its key. */
  predicate Reachable(r: Runtime, i: nat)
    requires i < |r.promises|
  {
    var p := r.promises[i];
    var table := if p.isAsk then r.asks else r.pending;
    p.outcome == Open ==> p.key in table && table[p.key] == i
  }

  /** A table leads to promises of its own kind and key. */
  predicate Leads(table: map<string, nat>, promises: seq<Promise>, isAsk: bool) {
    forall id :: id in table ==>
      table[id] < |promises| && promises[table[id]].isAsk == isAsk && promises[table[id]].key == id
  }

  ghost predicate Inv(r: Runtime) {
    && (forall i :: 0 <= i < |r.promises| ==> Reachable(r, i))
    && Leads(r.pending, r.promises, false) && Leads(r.asks, r.promises, true)
    && (r.turns.stopped ==> r.pending == map[] && r.asks == map[])
    && T.Inv(r.turns)
  }

  /** Two sends, or two asks, do not wait under one key at a time. */
  predicate Distinct(r: Runtime, s: Step) {
    match s
    case Send(id) => id !in r.pending
    case Ask(id) => id !in r.asks
    case _ => true
  }

  lemma SendDoneKeepsInv(r: Runtime, id: string, o: Outcome)
    requires Inv(r) && o != Open
    ensures Inv(SendDone(r, id, o))
  {
    hide T.Inv;
    var s := SendDone(r, id, o);
    forall i | 0 <= i < |s.promises|
      ensures Reachable(s, i)
    {
      assert Reachable(r, i);
    }
  }

  lemma ForgottenKeepsInv(r: Runtime, p: nat)
    requires Inv(r)
    ensures Inv(Forgotten(r, p))
  {
    hide T.Inv;
    var s := Forgotten(r, p);
    assert p < |r.promises| ==> Reachable(r, p);
    forall i | 0 <= i < |s.promises|
      ensures Reachable(s, i)
    {
      assert Reachable(r, i);
    }
  }

  lemma AskDoneKeepsInv(r: Runtime, id: string, o: Outcome)
    requires Inv(r) && o != Open
    ensures Inv(AskDone(r, id, o))
  {
    hide T.Inv;
    var s := AskDone(r, id, o);
    forall i | 0 <= i < |s.promises|
      ensures Reachable(s, i)
    {
      assert Reachable(r, i);
    }
  }

  lemma {:induction false} ResumedKeepsInv(r: Runtime, ids: seq<string>)
    requires Inv(r)
    ensures Inv(Resumed(r, ids))
    decreases |ids|
  {
    hide Inv, AskDone;
    if ids != [] {
      AskDoneKeepsInv(r, ids[0], Answered);
      ResumedKeepsInv(AskDone(r, ids[0], Answered), ids[1..]);
    }
  }

  lemma RegisteredKeepsInv(r: Runtime, s: Step)
    requires Inv(r) && (s.Send? || s.Ask?) && Distinct(r, s)
    ensures Inv(Next(r, s))
  {
    hide T.Inv;
    var n := Next(r, s);
    forall i | 0 <= i < |n.promises|
      ensures Reachable(n, i)
    {
      assert i < |r.promises| ==> Reachable(r, i);
    }
  }

  /** Nobody who waits is left out when everything is failed. */
  lemma StopFailsAll(r: Runtime)
    requires Inv(r)
    ensures Inv(Stopped(r)) && forall i :: 0 <= i < |r.promises| ==> Stopped(r).promises[i].outcome != Open
  {
    T.StopKeepsInv(r.turns);
    hide T.Inv, T.Stopped;
    var n := Stopped(r);
    assert n.turns.stopped by {
      StopStops(r);
    }
    forall i | 0 <= i < |r.promises|
      ensures n.promises[i].outcome != Open && Reachable(n, i)
    {
      var p := r.promises[i];
      assert Reachable(r, i);
      if p.outcome == Open && !r.turns.stopped {
        if p.isAsk {
          assert r.asks[p.key] in r.asks.Values;
        } else {
          assert r.pending[p.key] in r.pending.Values;
        }
      }
    }
  }

  lemma StopStops(r: Runtime)
    ensures Stopped(r).turns.stopped
  {
  }

  lemma TurnsKeepInv(r: Runtime, step: T.Step)
    requires Inv(r) && !step.Stop?
    ensures Inv(r.(turns := T.Next(r.turns, step)))
  {
    T.StepKeepsInv(r.turns, step);
    assert T.Next(r.turns, step).stopped == r.turns.stopped;
    hide T.Inv, T.Next;
    var n := r.(turns := T.Next(r.turns, step));
    forall i | 0 <= i < |n.promises|
      ensures Reachable(n, i)
    {
      assert Reachable(r, i);
    }
  }

  lemma StepKeepsInv(r: Runtime, s: Step)
    requires Inv(r) && Distinct(r, s)
    ensures Inv(Next(r, s))
  {
    hide Inv, Stopped, T.Next, SendDone, AskDone;
    match s
    case Turns(step) =>
      if step.Stop? {
        StopFailsAll(r);
      } else {
        TurnsKeepInv(r, step);
      }
    case Send(id) => RegisteredKeepsInv(r, s);
    case Ask(id) => RegisteredKeepsInv(r, s);
    case Ack(id) => SendDoneKeepsInv(r, id, Answered);
    case Error(id) => SendDoneKeepsInv(r, id, Failed);
    case Resume(ids) => ResumedKeepsInv(r, ids);
    case Forget(p) => ForgottenKeepsInv(r, p);
    case DropAsk(id) => AskDoneKeepsInv(r, id, Abandoned);
    case Stop => StopFailsAll(r);
  }

  function Created(marks: map<string, int>): Runtime {
    Runtime(T.Created(marks), map[], map[], [])
  }

  function Run(r: Runtime, steps: seq<Step>): Runtime
    decreases |steps|
  {
    if steps == [] then r else Run(Next(r, steps[0]), steps[1..])
  }

  predicate AllDistinct(r: Runtime, steps: seq<Step>)
    decreases |steps|
  {
    steps == [] || (Distinct(r, steps[0]) && AllDistinct(Next(r, steps[0]), steps[1..]))
  }

  lemma {:induction false} RunKeepsInv(r: Runtime, steps: seq<Step>)
    requires Inv(r) && AllDistinct(r, steps)
    ensures Inv(Run(r, steps))
    decreases |steps|
  {
    hide Inv, Next, Distinct;
    if steps != [] {
      StepKeepsInv(r, steps[0]);
      RunKeepsInv(Next(r, steps[0]), steps[1..]);
    }
  }

  /**
   * RunAsync returns once the agent has drained. In every interleaving, at that point it is
   * stopped, no drain and so no handler is left, and every send and every ask that was ever
   * registered is answered, failed or was given up by its own caller.
   */
  lemma NothingPendingOnReturn(marks: map<string, int>, steps: seq<Step>)
    requires AllDistinct(Created(marks), steps)
    ensures var r := Run(Created(marks), steps);
      r.turns.drained ==>
        && r.turns.stopped
        && (forall d :: 0 <= d < |r.turns.drains| ==> r.turns.drains[d].phase == T.Gone)
        && (forall i :: 0 <= i < |r.promises| ==> r.promises[i].outcome != Open)
  {
    var r := Run(Created(marks), steps);
    assert Inv(Created(marks));
    RunKeepsInv(Created(marks), steps);
    forall i | 0 <= i < |r.promises| && r.turns.drained
      ensures r.promises[i].outcome != Open
    {
      assert Reachable(r, i);
    }
    forall d | 0 <= d < |r.turns.drains| && r.turns.drained
      ensures r.turns.drains[d].phase == T.Gone
    {
      if r.turns.drains[d].phase != T.Gone {
        T.SomeActive(r.turns.drains, d);
      }
    }
  }

  // ---------------------------------------------------------------------
  // How a promise ends
  // ---------------------------------------------------------------------

  /** What a step makes of the promise numbered `i`, which is all that its caller learns. */
  function Verdict(p: Promise, i: nat, s: Step): Outcome {
    if p.outcome != Open then p.outcome
    else match s
      case Ack(id) => if !p.isAsk && p.key == id then Answered else Open
      case Error(id) => if !p.isAsk && p.key == id && id != "" then Failed else Open
      case Resume(ids) => if p.isAsk && p.key in ids then Answered else Open
      case Forget(q) => if !p.isAsk && q == i then Abandoned else Open
      case DropAsk(id) => if p.isAsk && p.key == id then Abandoned else Open
      case Stop => Failed
      case Turns(step) => if step.Stop? then Failed else Open
      case _ => Open
  }

  lemma {:induction false} ResumedEnds(r: Runtime, ids: seq<string>, i: nat)
    requires Inv(r) && i < |r.promises|
    ensures var n := Resumed(r, ids);
      |n.promises| == |r.promises| && n.promises[i] == r.promises[i].(outcome := Verdict(r.promises[i], i, Resume(ids)))
    decreases |ids|
  {
    hide T.Inv;
    assert Reachable(r, i);
    if ids != [] {
      AskDoneKeepsInv(r, ids[0], Answered);
      ResumedEnds(AskDone(r, ids[0], Answered), ids[1..], i);
      assert forall id :: id in ids <==> id == ids[0] || id in ids[1..];
    }
  }

  lemma StopEnds(r: Runtime, i: nat)
    requires Inv(r) && i < |r.promises|
    ensures var n := Stopped(r);
      |n.promises| == |r.promises| && n.promises[i] == r.promises[i].(outcome := Verdict(r.promises[i], i, Stop))
  {
    hide Inv, T.Stopped;
    StopFailsAll(r);
  }

  /** A step ends a promise in exactly this way, and registers a new one only for a send or an ask of a running agent. */
  lemma StepEnds(r: Runtime, s: Step, i: nat)
    requires Inv(r) && i < |r.promises|
    ensures var n := Next(r, s);
      && |n.promises| == |r.promises| + (if (s.Send? || s.Ask?) && !r.turns.stopped then 1 else 0)
      && n.promises[i] == r.promises[i].(outcome := Verdict(r.promises[i], i, s))
      && (|n.promises| > |r.promises| ==> n.promises[|r.promises|] == Promise(s.Ask?, if s.Ask? then s.interrupt else s.clientId, Open))
  {
    hide T.Inv, T.Next, Resumed, Stopped;
    assert Reachable(r, i);
    match s
    case Resume(ids) => ResumedEnds(r, ids, i);
    case Turns(step) => StopEnds(r, i);
    case Stop => StopEnds(r, i);
    case _ =>
  }

  lemma {:induction false} ResumedKeepsTurns(r: Runtime, ids: seq<string>)
    ensures Resumed(r, ids).turns == r.turns
    decreases |ids|
  {
    if ids != [] {
      ResumedKeepsTurns(AskDone(r, ids[0], Answered), ids[1..]);
    }
  }

  /** The turns of the agent go on as the dispatcher says, and stop with it; sends and asks do not touch them. */
  lemma StepTurns(r: Runtime, s: Step)
    ensures Next(r, s).turns == if s.Turns? then T.Next(r.turns, s.step) else if s.Stop? then T.Next(r.turns, T.Stop) else r.turns
  {
    hide T.Enqueued, T.Locked, T.Exited;
    if s.Resume? {
      ResumedKeepsTurns(r, s.interrupts);
    }
  }

  function Fate(p: Promise, i: nat, steps: seq<Step>): Promise
    decreases |steps|
  {
    if steps == [] then p else Fate(p.(outcome := Verdict(p, i, steps[0])), i, steps[1..])
  }

  /**
   * In every run: a send is answered exactly by its own ack and fails exactly at an error that names it
   * or at the stop, an ask is answered exactly by a resume that names it and fails at the stop, and each
   * is given up only by its own caller; whatever comes first counts.
   */
  lemma {:induction false} PromiseEndsAsTold(r: Runtime, steps: seq<Step>, i: nat)
    requires Inv(r) && AllDistinct(r, steps) && i < |r.promises|
    ensures i < |Run(r, steps).promises| && Run(r, steps).promises[i] == Fate(r.promises[i], i, steps)
    decreases |steps|
  {
    hide Inv, Next, Distinct, Verdict;
    if steps != [] {
      StepEnds(r, steps[0], i);
      StepKeepsInv(r, steps[0]);
      PromiseEndsAsTold(Next(r, steps[0]), steps[1..], i);
    }
  }

  /** A second send under a key that still waits cuts the first one off: only then is a waiter out of reach. */
  lemma SendCutsOffIffKeyWaits(r: Runtime, id: string)
    requires Inv(r) && !r.turns.stopped
    ensures (forall i :: 0 <= i < |Next(r, Send(id)).promises| ==> Reachable(Next(r, Send(id)), i)) <==>
      id !in r.pending || r.promises[r.pending[id]].outcome != Open
  {
    var n := Next(r, Send(id));
    if id in r.pending && r.promises[r.pending[id]].outcome == Open {
      assert !Reachable(n, r.pending[id]);
    } else {
      forall i | 0 <= i < |n.promises|
        ensures Reachable(n, i)
      {
        assert i < |r.promises| ==> Reachable(r, i);
      }
    }
  }

  /** The open promise of a send that the agent holds nowhere: nobody can complete it but its caller. */
  predicate CutOff(r: Runtime, p: nat) {
    && p < |r.promises| && !r.promises[p].isAsk && r.promises[p].outcome == Open
    && p !in r.pending.Values && p !in r.asks.Values
  }

  lemma FewerValues(table: map<string, nat>, id: string, p: nat)
    requires p !in table.Values
    ensures p !in (table - {id}).Values && (id in table ==> table[id] != p)
  {
    assert id in table ==> table[id] in table.Values;
  }

  lemma CutOffAtAsk(r: Runtime, id: string, o: Outcome, p: nat)
    requires CutOff(r, p)
    ensures CutOff(AskDone(r, id, o), p)
  {
    FewerValues(r.asks, id, p);
  }

  lemma CutOffAtSend(r: Runtime, id: string, o: Outcome, p: nat)
    requires CutOff(r, p)
    ensures CutOff(SendDone(r, id, o), p)
  {
    FewerValues(r.pending, id, p);
  }

  lemma {:induction false} CutOffAtResume(r: Runtime, ids: seq<string>, p: nat)
    requires CutOff(r, p)
    ensures CutOff(Resumed(r, ids), p)
    decreases |ids|
  {
    hide CutOff, AskDone;
    if ids != [] {
      CutOffAtAsk(r, ids[0], Answered, p);
      CutOffAtResume(AskDone(r, ids[0], Answered), ids[1..], p);
    }
  }

  lemma CutOffAtStop(r: Runtime, p: nat)
    requires CutOff(r, p)
    ensures CutOff(Stopped(r), p)
  {
    hide T.Stopped;
  }

  lemma CutOffAtForget(r: Runtime, q: nat, p: nat)
    requires CutOff(r, p) && q != p
    ensures CutOff(Forgotten(r, q), p)
  {
    if q < |r.promises| {
      FewerValues(r.pending, r.promises[q].key, p);
    }
  }

  lemma CutOffStep(r: Runtime, s: Step, p: nat)
    requires CutOff(r, p) && s != Forget(p)
    ensures CutOff(Next(r, s), p)
  {
    hide T.Next, SendDone, AskDone, Resumed, Forgotten, Stopped;
    match s
    case Turns(step) => CutOffAtStop(r, p);
    case Send(id) => FewerValues(r.pending, id, p);
    case Ask(id) => FewerValues(r.asks, id, p);
    case Ack(id) => CutOffAtSend(r, id, Answered, p);
    case Error(id) => CutOffAtSend(r, id, Failed, p);
    case Resume(ids) => CutOffAtResume(r, ids, p);
    case Forget(q) => CutOffAtForget(r, q, p);
    case DropAsk(id) => CutOffAtAsk(r, id, Abandoned, p);
    case Stop => CutOffAtStop(r, p);
  }

  /**
   * A caller that is cut off gets no answer and no error in any run, the stop of the agent included:
   * it waits until it stops waiting itself.
   */
  lemma {:induction false} CutOffEndsOnlyItself(r: Runtime, steps: seq<Step>, p: nat)
    requires CutOff(r, p) && Forget(p) !in steps
    ensures CutOff(Run(r, steps), p)
    decreases |steps|
  {
    hide CutOff, Next;
    if steps != [] {
      assert steps[0] in steps;
      CutOffStep(r, steps[0], p);
      CutOffEndsOnlyItself(Next(r, steps[0]), steps[1..], p);
    }
  }

  /** Two sends under one key. */
  function TwoSends(marks: map<string, int>, id: string): Runtime {
    Created(marks).(pending := map[id := 1], promises := [Promise(false, id, Open), Promise(false, id, Open)])
  }

  lemma TwoSendsRun(marks: map<string, int>, id: string, more: seq<Step>)
    ensures Run(Created(marks), [Send(id), Send(id)] + more) == Run(TwoSends(marks, id), more)
  {
    var steps, r0 := [Send(id), Send(id)] + more, Created(marks);
    var r1 := Next(r0, Send(id));
    assert r1 == r0.(pending := map[id := 0], promises := [Promise(false, id, Open)]);
    assert Next(r1, Send(id)) == TwoSends(marks, id);
    hide Next;
    assert steps[1..] == [Send(id)] + more && steps[1..][1..] == more;
  }

  /**
   * Two sends under one key from a new agent: the first is cut off, and no run but its own timeout
   * ends it. That timeout removes the entry of the second, which is then cut off in turn, so that
   * even the ack of the message ends neither.
   */
  lemma ReusedKeyCutsOffBoth(marks: map<string, int>, id: string, more: seq<Step>)
    requires Forget(0) !in more
    ensures CutOff(Run(Created(marks), [Send(id), Send(id)] + more), 0)
    ensures Forget(1) !in more ==> CutOff(Run(Created(marks), [Send(id), Send(id)] + ([Forget(0)] + more)), 1)
  {
    var r := TwoSends(marks, id);
    OneValue(id, 1);
    TwoSendsRun(marks, id, more);
    TwoSendsRun(marks, id, [Forget(0)] + more);
    CutOffEndsOnlyItself(r, more, 0);
    if Forget(1) !in more {
      var t := Next(r, Forget(0));
      assert t.pending == map[] && t.promises == [Promise(false, id, Abandoned), Promise(false, id, Open)];
      assert ([Forget(0)] + more)[1..] == more;
      CutOffEndsOnlyItself(t, more, 1);
    }
  }

  lemma OneValue(id: string, n: nat)
    ensures map[id := n].Values == {n}
  {
    assert map[id := n][id] in map[id := n].Values;
  }
}
