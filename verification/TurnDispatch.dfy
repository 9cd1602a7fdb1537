/**
 * The turn dispatcher of the Go and .NET agents. Every region under the mutex
 * is one step; any number of drains and of frames interleave.
 */
module TurnDispatch {
  import opened Prefix

  /** The queue object of a conversation; drains hold on to it. */
  datatype Queue = Queue(turns: seq<int>, running: bool)

  /** A drain waits for the lock, runs a handler, or is on its way out. */
  datatype Phase = AtLock | Running(turn: int) | Exiting | Gone

  datatype Drain = Drain(conversation: string, queue: nat, phase: Phase)

  /** What was accepted and what was started, by conversation, as an observer sees it. */
  datatype Ledger = Ledger(accepted: map<string, seq<int>>, started: map<string, seq<int>>)

  datatype Dispatcher = Dispatcher(
    marks: map<string, int>,
    queues: map<string, nat>,
    objects: seq<Queue>,
    drains: seq<Drain>,
    activeDrains: int,
    stopped: bool,
    drained: bool,
    ledger: Ledger)

  datatype Step =
    | Frame(conversation: string, seqNo: int, isTurn: bool)
    | Lock(drain: nat)
    | Return(drain: nat)
    | Exit(drain: nat)
    | Stop

  function MarkOf(a: Dispatcher, id: string): int {
    if id in a.marks then a.marks[id] else 0
  }

  function Of(log: map<string, seq<int>>, id: string): seq<int> {
    if id in log then log[id] else []
  }

  function Noted(log: map<string, seq<int>>, id: string, n: int): map<string, seq<int>> {
    log[id := Of(log, id) + [n]]
  }

  /** The queue of a conversation, made when there is none. */
  function Looked(a: Dispatcher, id: string): Dispatcher {
    if id in a.queues then a
    else a.(objects := a.objects + [Queue([], false)], queues := a.queues[id := |a.objects|])
  }

  function Enqueued(a: Dispatcher, id: string, n: int): Dispatcher {
    if a.stopped then a
    else
      var b := Looked(a, id);
      var q := b.queues[id];
      if q >= |b.objects| then b
      else
        var o := b.objects[q];
        var c := b.(objects := b.objects[q := Queue(o.turns + [n], true)],
                    ledger := b.ledger.(accepted := Noted(b.ledger.accepted, id, n)));
        if o.running then c
        else c.(drains := c.drains + [Drain(id, q, AtLock)], activeDrains := c.activeDrains + 1)
  }

  function ApplyFrame(a: Dispatcher, id: string, n: int, isTurn: bool): Dispatcher {
    if n <= MarkOf(a, id) then a
    else
      var b := a.(marks := a.marks[id := n]);
      if isTurn then Enqueued(b, id, n) else b
  }

  function Moved(a: Dispatcher, d: nat, phase: Phase): Dispatcher
    requires d < |a.drains|
  {
    a.(drains := a.drains[d := a.drains[d].(phase := phase)])
  }

  predicate At(a: Dispatcher, d: nat, phase: Phase) {
    d < |a.drains| && a.drains[d].phase == phase && a.drains[d].queue < |a.objects|
  }

  /** A drain has the lock: it takes the next turn, or gives the queue up. */
  function Locked(a: Dispatcher, d: nat): Dispatcher
    requires At(a, d, AtLock)
  {
    var (id, q) := (a.drains[d].conversation, a.drains[d].queue);
    var o := a.objects[q];
    if o.turns == [] || a.stopped then
      Moved(a.(objects := a.objects[q := o.(running := false)], queues := a.queues - {id}), d, Exiting)
    else
      Moved(a.(objects := a.objects[q := o.(turns := o.turns[1..])],
               ledger := a.ledger.(started := Noted(a.ledger.started, id, o.turns[0]))), d, Running(o.turns[0]))
  }

  function Exited(a: Dispatcher, d: nat): Dispatcher
    requires d < |a.drains|
  {
    var b := Moved(a, d, Gone).(activeDrains := a.activeDrains - 1);
    b.(drained := b.drained || (b.activeDrains == 0 && b.stopped))
  }

  function Stopped(a: Dispatcher): Dispatcher {
    if a.stopped then a else a.(stopped := true, drained := a.drained || a.activeDrains == 0)
  }

  function Next(a: Dispatcher, s: Step): Dispatcher {
    match s
    case Frame(id, n, isTurn) => ApplyFrame(a, id, n, isTurn)
    case Lock(d) => if At(a, d, AtLock) then Locked(a, d) else a
    case Return(d) => if d < |a.drains| && a.drains[d].phase.Running? then Moved(a, d, AtLock) else a
    case Exit(d) => if d < |a.drains| && a.drains[d].phase == Exiting then Exited(a, d) else a
    case Stop => Stopped(a)
  }

  // ---------------------------------------------------------------------
  // What every step keeps
  // ---------------------------------------------------------------------

  predicate Alive(p: Phase) {
    p == AtLock || p.Running?
  }

  function Active(drains: seq<Drain>): nat {
    if drains == [] then 0
    else Active(drains[..|drains| - 1]) + if drains[|drains| - 1].phase == Gone then 0 else 1
  }

  predicate Serves(a: Dispatcher, d: int, id: string) {
    0 <= d < |a.drains| && Alive(a.drains[d].phase) && a.drains[d].conversation == id
  }

  /** A live drain that serves the registered queue of its conversation. */
  predicate Owns(a: Dispatcher, d: int, id: string) {
    && Serves(a, d, id)
    && id in a.queues && a.queues[id] == a.drains[d].queue
  }

  /** Registered queues are running, belong to one conversation and have a drain; live drains are registered. */
  ghost predicate Owned(a: Dispatcher) {
    && (forall id :: id in a.queues ==> a.queues[id] < |a.objects| && a.objects[a.queues[id]].running)
    && (forall id, jd :: id in a.queues && jd in a.queues && id != jd ==> a.queues[id] != a.queues[jd])
    && (forall id :: id in a.queues ==> exists d :: Owns(a, d, id))
    && (forall d :: 0 <= d < |a.drains| && Alive(a.drains[d].phase) ==> Owns(a, d, a.drains[d].conversation))
  }

  ghost predicate Alone(a: Dispatcher) {
    forall d, e :: 0 <= d < e < |a.drains| && Alive(a.drains[d].phase) && Alive(a.drains[e].phase) ==>
      a.drains[d].conversation != a.drains[e].conversation
  }

  ghost predicate Counted(a: Dispatcher) {
    && a.activeDrains == Active(a.drains)
    && (a.drained <==> a.stopped && a.activeDrains == 0)
  }

  function Waiting(a: Dispatcher, id: string): seq<int> {
    if id in a.queues && a.queues[id] < |a.objects| then a.objects[a.queues[id]].turns else []
  }

  ghost predicate Increasing(s: seq<int>) {
    forall i, j :: 0 <= i < j < |s| ==> s[i] < s[j]
  }

  /** The turns of a conversation: what was accepted has been started, in order, or waits. */
  ghost predicate InOrder(a: Dispatcher, id: string) {
    var accepted, started := Of(a.ledger.accepted, id), Of(a.ledger.started, id);
    && Increasing(accepted) && (forall i :: 0 <= i < |accepted| ==> accepted[i] <= MarkOf(a, id))
    && (if a.stopped then started <= accepted else accepted == started + Waiting(a, id))
  }

  ghost predicate Inv(a: Dispatcher) {
    Owned(a) && Alone(a) && Counted(a) && forall id :: InOrder(a, id)
  }

  // ---------------------------------------------------------------------
  // Ownership
  // ---------------------------------------------------------------------

  /** A registered queue is running, so its drain will see the turn. */
  lemma EnqueuedToOld(a: Dispatcher, id: string, n: int)
    requires Owned(a) && !a.stopped && id in a.queues
    ensures var q := a.queues[id];
      Enqueued(a, id, n) == a.(objects := a.objects[q := Queue(a.objects[q].turns + [n], true)],
                               ledger := a.ledger.(accepted := Noted(a.ledger.accepted, id, n)))
  {
  }

  lemma EnqueuedToNew(a: Dispatcher, id: string, n: int)
    requires !a.stopped && id !in a.queues
    ensures Enqueued(a, id, n) == a.(
      objects := a.objects + [Queue([n], true)], queues := a.queues[id := |a.objects|],
      drains := a.drains + [Drain(id, |a.objects|, AtLock)], activeDrains := a.activeDrains + 1,
      ledger := a.ledger.(accepted := Noted(a.ledger.accepted, id, n)))
  {
    var b, none: seq<int> := Looked(a, id), [];
    assert none + [n] == [n];
    assert b.objects[|a.objects| := Queue([n], true)] == a.objects + [Queue([n], true)];
  }

  lemma OldIsOwned(a: Dispatcher, id: string, n: int)
    requires Owned(a) && Alone(a) && !a.stopped && id in a.queues
    ensures Owned(Enqueued(a, id, n)) && Alone(Enqueued(a, id, n))
  {
    hide Enqueued;
    var c := Enqueued(a, id, n);
    EnqueuedToOld(a, id, n);
    forall jd | jd in c.queues
      ensures exists d :: Owns(c, d, jd)
    {
      var d :| Owns(a, d, jd);
      assert Owns(c, d, jd);
    }
    forall d | 0 <= d < |c.drains| && Alive(c.drains[d].phase)
      ensures Owns(c, d, c.drains[d].conversation)
    {
      assert Owns(a, d, a.drains[d].conversation);
    }
  }

  lemma NewIsOwned(a: Dispatcher, id: string, n: int)
    requires Owned(a) && !a.stopped && id !in a.queues
    ensures Owned(Enqueued(a, id, n))
  {
    hide Enqueued;
    var c, last := Enqueued(a, id, n), |a.drains|;
    EnqueuedToNew(a, id, n);
    assert c.drains[last] == Drain(id, |a.objects|, AtLock);
    assert Owns(c, last, id);
    forall jd | jd in c.queues
      ensures exists d :: Owns(c, d, jd)
    {
      if jd != id {
        var d :| Owns(a, d, jd);
        assert c.drains[d] == a.drains[d] && Owns(c, d, jd);
      }
    }
    forall d | 0 <= d < |c.drains| && Alive(c.drains[d].phase)
      ensures Owns(c, d, c.drains[d].conversation)
    {
      if d < last {
        assert c.drains[d] == a.drains[d] && Owns(a, d, a.drains[d].conversation);
      }
    }
  }

  /** No live drain serves a conversation without a queue, so the new one is alone. */
  lemma NewIsAlone(a: Dispatcher, id: string, n: int)
    requires Owned(a) && Alone(a) && !a.stopped && id !in a.queues
    ensures Alone(Enqueued(a, id, n))
  {
    hide Enqueued;
    var c := Enqueued(a, id, n);
    EnqueuedToNew(a, id, n);
    forall d | 0 <= d < |a.drains| && Alive(a.drains[d].phase)
      ensures a.drains[d].conversation != id
    {
      assert Owns(a, d, a.drains[d].conversation);
    }
  }

  lemma EnqueuedWaits(a: Dispatcher, id: string, n: int, jd: string)
    requires Owned(a) && !a.stopped
    ensures Waiting(Enqueued(a, id, n), jd) == if jd == id then Waiting(a, id) + [n] else Waiting(a, jd)
  {
    hide Enqueued;
    if id in a.queues {
      EnqueuedToOld(a, id, n);
    } else {
      EnqueuedToNew(a, id, n);
    }
  }

  /** A step of one drain that leaves the registered queues as they are. */
  lemma MovedIsOwned(a: Dispatcher, b: Dispatcher, d: nat, phase: Phase)
    requires Owned(a) && Alone(a) && d < |a.drains| && Alive(a.drains[d].phase) && Alive(phase)
    requires b.drains == a.drains[d := a.drains[d].(phase := phase)] && b.queues == a.queues && |b.objects| == |a.objects|
    requires forall q :: 0 <= q < |a.objects| ==> b.objects[q].running == a.objects[q].running
    ensures Owned(b) && Alone(b)
  {
    forall id | id in b.queues
      ensures exists e :: Owns(b, e, id)
    {
      var e :| Owns(a, e, id);
      assert Owns(b, e, id);
    }
    forall e | 0 <= e < |b.drains| && Alive(b.drains[e].phase)
      ensures Owns(b, e, b.drains[e].conversation)
    {
      assert Owns(a, e, a.drains[e].conversation);
    }
  }

  lemma GivenUpIsOwned(a: Dispatcher, d: nat)
    requires Owned(a) && Alone(a) && At(a, d, AtLock) && (a.objects[a.drains[d].queue].turns == [] || a.stopped)
    ensures Owned(Locked(a, d)) && Alone(Locked(a, d))
  {
    var b, id := Locked(a, d), a.drains[d].conversation;
    assert Owns(a, d, id);
    forall jd | jd in b.queues
      ensures exists e :: Owns(b, e, jd)
    {
      var e :| Owns(a, e, jd);
      assert e != d && Owns(b, e, jd);
    }
    forall e | 0 <= e < |b.drains| && Alive(b.drains[e].phase)
      ensures Owns(b, e, b.drains[e].conversation)
    {
      assert Owns(a, e, a.drains[e].conversation) && a.drains[e].conversation != id;
    }
  }

  // ---------------------------------------------------------------------
  // Counting
  // ---------------------------------------------------------------------

  lemma {:induction false} ActiveAfterMove(drains: seq<Drain>, d: nat, e: Drain)
    requires d < |drains|
    ensures Active(drains[d := e]) ==
      Active(drains) - (if drains[d].phase == Gone then 0 else 1) + (if e.phase == Gone then 0 else 1)
    decreases |drains|
  {
    var last := |drains| - 1;
    if d == last {
      assert drains[d := e][..last] == drains[..last];
    } else {
      ActiveAfterMove(drains[..last], d, e);
      assert drains[d := e][..last] == drains[..last][d := e];
    }
  }

  lemma {:induction false} SomeActive(drains: seq<Drain>, d: nat)
    requires d < |drains| && drains[d].phase != Gone
    ensures Active(drains) >= 1
    decreases |drains|
  {
    if d < |drains| - 1 {
      SomeActive(drains[..|drains| - 1], d);
    }
  }

  // ---------------------------------------------------------------------
  // Every step
  // ---------------------------------------------------------------------

  lemma FrameKeepsInv(a: Dispatcher, id: string, n: int, isTurn: bool)
    requires Inv(a)
    ensures Inv(ApplyFrame(a, id, n, isTurn))
  {
    if n > MarkOf(a, id) {
      var b := a.(marks := a.marks[id := n]);
      MarkingKeepsInv(a, id, n);
      if isTurn && !a.stopped {
        if id in b.queues {
          OldIsOwned(b, id, n);
        } else {
          NewIsOwned(b, id, n);
          NewIsAlone(b, id, n);
        }
        EnqueuedIsCounted(b, id, n);
        forall jd
          ensures InOrder(Enqueued(b, id, n), jd)
        {
          EnqueuedIsInOrder(a, id, n, jd);
        }
      }
    }
  }

  lemma MarkingKeepsInv(a: Dispatcher, id: string, n: int)
    requires Inv(a) && n > MarkOf(a, id)
    ensures Inv(a.(marks := a.marks[id := n]))
  {
    var b := a.(marks := a.marks[id := n]);
    assert Owned(b) by {
      forall jd | jd in b.queues
        ensures exists d :: Owns(b, d, jd)
      {
        var d :| Owns(a, d, jd);
        assert Owns(b, d, jd);
      }
      forall d | 0 <= d < |b.drains| && Alive(b.drains[d].phase)
        ensures Owns(b, d, b.drains[d].conversation)
      {
        assert Owns(a, d, a.drains[d].conversation);
      }
    }
    forall jd
      ensures InOrder(b, jd)
    {
      assert InOrder(a, jd);
    }
  }

  /** The order of one conversation, apart from the rest of the state. */
  ghost predicate Ordered(accepted: seq<int>, started: seq<int>, waiting: seq<int>, mark: int) {
    && Increasing(accepted) && (forall i :: 0 <= i < |accepted| ==> accepted[i] <= mark)
    && accepted == started + waiting
  }

  lemma OrderGrows(accepted: seq<int>, started: seq<int>, waiting: seq<int>, mark: int, n: int)
    requires Ordered(accepted, started, waiting, mark) && mark < n
    ensures Ordered(accepted + [n], started, waiting + [n], n)
  {
    assert accepted + [n] == started + (waiting + [n]);
  }

  lemma EnqueuedIsInOrder(a: Dispatcher, id: string, n: int, jd: string)
    requires Inv(a) && n > MarkOf(a, id) && !a.stopped
    ensures InOrder(Enqueued(a.(marks := a.marks[id := n]), id, n), jd)
  {
    hide Waiting, Owned, Alone, Counted, Enqueued, Increasing, Ordered;
    var b := a.(marks := a.marks[id := n]);
    MarkingKeepsInv(a, id, n);
    EnqueuedWaits(b, id, n, jd);
    EnqueuedLedger(b, id, n);
    assert InOrder(a, jd) && InOrder(b, jd);
    if jd == id {
      EnqueuedIsInOwnOrder(a, id, n);
    }
  }

  lemma EnqueuedIsInOwnOrder(a: Dispatcher, id: string, n: int)
    requires Owned(a) && InOrder(a, id) && n > MarkOf(a, id) && !a.stopped
    requires Owned(a.(marks := a.marks[id := n]))
    ensures InOrder(Enqueued(a.(marks := a.marks[id := n]), id, n), id)
  {
    hide Owned, Enqueued, Increasing;
    var b := a.(marks := a.marks[id := n]);
    EnqueuedWaits(b, id, n, id);
    EnqueuedLedger(b, id, n);
    OrderGrows(Of(a.ledger.accepted, id), Of(a.ledger.started, id), Waiting(a, id), MarkOf(a, id), n);
    assert Waiting(b, id) == Waiting(a, id);
    hide Waiting;
  }

  lemma EnqueuedLedger(a: Dispatcher, id: string, n: int)
    requires Owned(a) && !a.stopped
    ensures var c := Enqueued(a, id, n);
      && c.ledger == a.ledger.(accepted := Noted(a.ledger.accepted, id, n))
      && c.marks == a.marks && !c.stopped
  {
  }

  lemma EnqueuedIsCounted(a: Dispatcher, id: string, n: int)
    requires Owned(a) && Counted(a) && !a.stopped
    ensures Counted(Enqueued(a, id, n))
  {
    var c := Enqueued(a, id, n);
    if id !in a.queues {
      assert c.drains[..|a.drains|] == a.drains;
    }
  }

  lemma LockKeepsInv(a: Dispatcher, d: nat)
    requires Inv(a) && At(a, d, AtLock)
    ensures Inv(Locked(a, d))
  {
    var b, id := Locked(a, d), a.drains[d].conversation;
    assert Owns(a, d, id);
    ActiveAfterMove(a.drains, d, b.drains[d]);
    if a.objects[a.drains[d].queue].turns == [] || a.stopped {
      GivenUpIsOwned(a, d);
    } else {
      MovedIsOwned(a, b, d, b.drains[d].phase);
    }
    forall jd
      ensures InOrder(b, jd)
    {
      LockKeepsOrder(a, d, jd);
    }
  }

  lemma LockKeepsOrder(a: Dispatcher, d: nat, id: string)
    requires Owned(a) && At(a, d, AtLock) && InOrder(a, id)
    ensures InOrder(Locked(a, d), id)
  {
    var b, jd := Locked(a, d), a.drains[d].conversation;
    assert Owns(a, d, jd);
    if id != jd {
      LockKeepsOtherOrder(a, d, id);
    } else if !a.stopped {
      LockKeepsOwnOrder(a, d);
    }
  }

  lemma LockKeepsOtherOrder(a: Dispatcher, d: nat, id: string)
    requires Owned(a) && At(a, d, AtLock) && InOrder(a, id) && id != a.drains[d].conversation
    ensures InOrder(Locked(a, d), id)
  {
    hide InOrder;
    assert Owns(a, d, a.drains[d].conversation);
    assert id in a.queues ==> a.queues[id] != a.drains[d].queue;
    hide Owned;
    SameOrderOf(a, Locked(a, d), id);
  }

  /** The order of a conversation is about its own turns only. */
  lemma SameOrderOf(a: Dispatcher, b: Dispatcher, id: string)
    requires InOrder(a, id) && b.marks == a.marks && b.stopped == a.stopped && Waiting(b, id) == Waiting(a, id)
    requires b.ledger.accepted == a.ledger.accepted && Of(b.ledger.started, id) == Of(a.ledger.started, id)
    ensures InOrder(b, id)
  {
  }

  lemma LockKeepsOwnOrder(a: Dispatcher, d: nat)
    requires Owned(a) && At(a, d, AtLock) && InOrder(a, a.drains[d].conversation) && !a.stopped
    ensures InOrder(Locked(a, d), a.drains[d].conversation)
  {
    var b, id := Locked(a, d), a.drains[d].conversation;
    assert Owns(a, d, id);
    var t := Waiting(a, id);
    assert t == a.objects[a.drains[d].queue].turns;
    if t != [] {
      assert Of(b.ledger.started, id) == Of(a.ledger.started, id) + [t[0]] && Waiting(b, id) == t[1..];
      assert t == [t[0]] + t[1..];
    } else {
      assert Waiting(b, id) == [];
    }
  }

  lemma StepKeepsInv(a: Dispatcher, s: Step)
    requires Inv(a)
    ensures Inv(Next(a, s))
  {
    match s
    case Frame(id, n, isTurn) => FrameKeepsInv(a, id, n, isTurn);
    case Lock(d) =>
      if At(a, d, AtLock) {
        LockKeepsInv(a, d);
      }
    case Return(d) =>
      if d < |a.drains| && a.drains[d].phase.Running? {
        ActiveAfterMove(a.drains, d, a.drains[d].(phase := AtLock));
        MovedIsOwned(a, Next(a, s), d, AtLock);
        SameOrder(a, Next(a, s));
      }
    case Exit(d) =>
      if d < |a.drains| && a.drains[d].phase == Exiting {
        ExitKeepsInv(a, d);
      }
    case Stop => StopKeepsInv(a);
  }

  lemma SameOrder(a: Dispatcher, b: Dispatcher)
    requires Inv(a) && b.marks == a.marks && b.queues == a.queues && b.objects == a.objects && b.ledger == a.ledger
    requires a.stopped ==> b.stopped
    ensures forall id :: InOrder(b, id)
  {
    forall id
      ensures InOrder(b, id)
    {
      assert InOrder(a, id);
    }
  }

  lemma SameOwners(a: Dispatcher, b: Dispatcher)
    requires Owned(a) && Alone(a) && b.queues == a.queues && b.objects == a.objects && |b.drains| == |a.drains|
    requires forall d :: 0 <= d < |a.drains| ==> b.drains[d] == a.drains[d] || (!Alive(a.drains[d].phase) && !Alive(b.drains[d].phase))
    ensures Owned(b) && Alone(b)
  {
    forall id | id in b.queues
      ensures exists d :: Owns(b, d, id)
    {
      var d :| Owns(a, d, id);
      assert Owns(b, d, id);
    }
    forall d | 0 <= d < |b.drains| && Alive(b.drains[d].phase)
      ensures Owns(b, d, b.drains[d].conversation)
    {
      assert Owns(a, d, a.drains[d].conversation);
    }
  }

  lemma ExitKeepsInv(a: Dispatcher, d: nat)
    requires Inv(a) && d < |a.drains| && a.drains[d].phase == Exiting
    ensures Inv(Exited(a, d))
  {
    SomeActive(a.drains, d);
    ActiveAfterMove(a.drains, d, a.drains[d].(phase := Gone));
    SameOwners(a, Exited(a, d));
    SameOrder(a, Exited(a, d));
  }

  lemma StopKeepsInv(a: Dispatcher)
    requires Inv(a)
    ensures Inv(Stopped(a))
  {
    SameOwners(a, Stopped(a));
    SameOrder(a, Stopped(a));
  }

  // ---------------------------------------------------------------------
  // Whole runs
  // ---------------------------------------------------------------------

  function Created(marks: map<string, int>): Dispatcher {
    Dispatcher(marks, map[], [], [], 0, false, false, Ledger(map[], map[]))
  }

  function Run(a: Dispatcher, steps: seq<Step>): Dispatcher
    decreases |steps|
  {
    if steps == [] then a else Run(Next(a, steps[0]), steps[1..])
  }

  lemma {:induction false} RunKeepsInv(a: Dispatcher, steps: seq<Step>)
    requires Inv(a)
    ensures Inv(Run(a, steps))
    decreases |steps|
  {
    hide Inv, Next;
    if steps != [] {
      StepKeepsInv(a, steps[0]);
      RunKeepsInv(Next(a, steps[0]), steps[1..]);
    }
  }

  // ---------------------------------------------------------------------
  // Which turns run, told from the steps alone
  // ---------------------------------------------------------------------

  predicate IsFrameOf(s: Step, id: string) {
    s.Frame? && s.conversation == id
  }

  /** Step `i` brings a turn of the conversation whose seq is above the mark at the start and above every earlier one, before the stop. */
  ghost predicate BringsTurn(marks: map<string, int>, steps: seq<Step>, i: int, id: string) {
    && 0 <= i < |steps| && IsFrameOf(steps[i], id) && steps[i].isTurn
    && (if id in marks then marks[id] else 0) < steps[i].seqNo
    && (forall j :: 0 <= j < i && IsFrameOf(steps[j], id) ==> steps[j].seqNo < steps[i].seqNo)
    && (forall j :: 0 <= j < i ==> !steps[j].Stop?)
  }

  /** The turns that the first `k` steps bring. */
  ghost function Brought(marks: map<string, int>, steps: seq<Step>, k: nat, id: string): seq<int>
    requires k <= |steps|
  {
    if k == 0 then []
    else Brought(marks, steps, k - 1, id) + if BringsTurn(marks, steps, k - 1, id) then [steps[k - 1].seqNo] else []
  }

  /** The turn that a drain of the conversation begins to handle at a step. */
  function Begun(a: Dispatcher, s: Step, id: string): seq<int> {
    var b := Next(a, s);
    if s.Lock? && s.drain < |a.drains| && s.drain < |b.drains| && a.drains[s.drain].conversation == id
       && !a.drains[s.drain].phase.Running? && b.drains[s.drain].phase.Running?
    then [b.drains[s.drain].phase.turn] else []
  }

  /** The turns that handlers have begun to handle, in order. */
  function Handled(a: Dispatcher, steps: seq<Step>, id: string): seq<int> {
    if steps == [] then []
    else
      var front := steps[..|steps| - 1];
      Handled(a, front, id) + Begun(Run(a, front), steps[|steps| - 1], id)
  }

  lemma {:induction false} RunOn(a: Dispatcher, steps: seq<Step>, s: Step)
    ensures Run(a, steps + [s]) == Next(Run(a, steps), s)
    decreases |steps|
  {
    hide Next;
    if steps == [] {
      assert steps + [s] == [s] && [s][1..] == [];
    } else {
      assert (steps + [s])[1..] == steps[1..] + [s];
      RunOn(Next(a, steps[0]), steps[1..], s);
    }
  }

  lemma RunOfPrefix(a: Dispatcher, steps: seq<Step>, k: nat)
    requires 0 < k <= |steps|
    ensures Run(a, steps[..k]) == Next(Run(a, steps[..k - 1]), steps[k - 1])
  {
    assert steps[..k] == steps[..k - 1] + [steps[k - 1]];
    RunOn(a, steps[..k - 1], steps[k - 1]);
  }

  /** The mark is the largest seq of the conversation so far. */
  ghost predicate IsMark(marks: map<string, int>, steps: seq<Step>, k: nat, id: string, m: int)
    requires k <= |steps|
  {
    && (if id in marks then marks[id] else 0) <= m
    && (forall j :: 0 <= j < k && IsFrameOf(steps[j], id) ==> steps[j].seqNo <= m)
    && (m == (if id in marks then marks[id] else 0) || exists j :: 0 <= j < k && IsFrameOf(steps[j], id) && steps[j].seqNo == m)
  }

  lemma StepMarks(a: Dispatcher, s: Step, id: string)
    ensures MarkOf(Next(a, s), id) == if IsFrameOf(s, id) && s.seqNo > MarkOf(a, id) then s.seqNo else MarkOf(a, id)
    ensures Next(a, s).stopped == (a.stopped || s.Stop?)
  {
  }

  lemma {:induction false} MarksFollow(marks: map<string, int>, steps: seq<Step>, k: nat, id: string)
    requires k <= |steps|
    ensures IsMark(marks, steps, k, id, MarkOf(Run(Created(marks), steps[..k]), id))
    ensures Run(Created(marks), steps[..k]).stopped <==> exists j :: 0 <= j < k && steps[j].Stop?
  {
    hide Next;
    if k > 0 {
      MarksFollow(marks, steps, k - 1, id);
      RunOfPrefix(Created(marks), steps, k);
      StepMarks(Run(Created(marks), steps[..k - 1]), steps[k - 1], id);
    }
  }

  /** What a step adds to the accepted turns. */
  lemma StepAccepts(a: Dispatcher, s: Step, id: string)
    requires Inv(a)
    ensures Of(Next(a, s).ledger.accepted, id) == Of(a.ledger.accepted, id) +
      if IsFrameOf(s, id) && s.isTurn && s.seqNo > MarkOf(a, id) && !a.stopped then [s.seqNo] else []
  {
    hide Enqueued, Alone, Counted;
    if s.Frame? && !a.stopped {
      var b := a.(marks := a.marks[s.conversation := s.seqNo]);
      if s.conversation in a.queues {
        assert Owned(b) by {
          SameOwnersMarked(a, b);
        }
        EnqueuedToOld(b, s.conversation, s.seqNo);
      } else {
        EnqueuedToNew(b, s.conversation, s.seqNo);
      }
    } else if s.Frame? {
      StoppedTakesNothing(a.(marks := a.marks[s.conversation := s.seqNo]), s.conversation, s.seqNo);
    }
  }

  lemma StoppedTakesNothing(a: Dispatcher, id: string, n: int)
    requires a.stopped
    ensures Enqueued(a, id, n) == a
  {
  }

  /** What a step adds to the started ones: the turn that a drain begins to handle. */
  lemma StepStarts(a: Dispatcher, s: Step, id: string)
    ensures Of(Next(a, s).ledger.started, id) == Of(a.ledger.started, id) + Begun(a, s, id)
  {
    if s.Frame? {
      EnqueuedStartsNothing(a.(marks := a.marks[s.conversation := s.seqNo]), s.conversation, s.seqNo);
      hide Enqueued;
    }
  }

  lemma EnqueuedStartsNothing(a: Dispatcher, id: string, n: int)
    ensures Enqueued(a, id, n).ledger.started == a.ledger.started
    ensures a.drains <= Enqueued(a, id, n).drains
    ensures forall d :: |a.drains| <= d < |Enqueued(a, id, n).drains| ==> Enqueued(a, id, n).drains[d].phase == AtLock
  {
  }

  /** A handler that runs handles the turn that was begun last. */
  ghost predicate Current(a: Dispatcher) {
    forall d :: 0 <= d < |a.drains| && a.drains[d].phase.Running? ==>
      var started := Of(a.ledger.started, a.drains[d].conversation);
      started != [] && started[|started| - 1] == a.drains[d].phase.turn
  }

  lemma StepKeepsCurrent(a: Dispatcher, s: Step)
    requires Inv(a) && Current(a)
    ensures Current(Next(a, s))
  {
    hide Owned, Counted, InOrder;
    if s.Frame? {
      EnqueuedStartsNothing(a.(marks := a.marks[s.conversation := s.seqNo]), s.conversation, s.seqNo);
      hide Enqueued;
    }
  }

  lemma {:induction false} RunKeepsCurrent(a: Dispatcher, steps: seq<Step>)
    requires Inv(a) && Current(a)
    ensures Current(Run(a, steps))
    decreases |steps|
  {
    hide Inv, Next, Current;
    if steps != [] {
      StepKeepsInv(a, steps[0]);
      StepKeepsCurrent(a, steps[0]);
      RunKeepsCurrent(Next(a, steps[0]), steps[1..]);
    }
  }

  lemma SameOwnersMarked(a: Dispatcher, b: Dispatcher)
    requires Owned(a) && b == a.(marks := b.marks)
    ensures Owned(b)
  {
    forall id | id in b.queues
      ensures exists d :: Owns(b, d, id)
    {
      var d :| Owns(a, d, id);
      assert Owns(b, d, id);
    }
    forall d | 0 <= d < |b.drains| && Alive(b.drains[d].phase)
      ensures Owns(b, d, b.drains[d].conversation)
    {
      assert Owns(a, d, a.drains[d].conversation);
    }
  }

  lemma {:induction false} AcceptedIsBrought(marks: map<string, int>, steps: seq<Step>, k: nat, id: string)
    requires k <= |steps|
    ensures var a := Run(Created(marks), steps[..k]);
      && Of(a.ledger.accepted, id) == Brought(marks, steps, k, id)
      && Of(a.ledger.started, id) == Handled(Created(marks), steps[..k], id)
  {
    hide Next, Inv, Begun;
    if k > 0 {
      var a := Run(Created(marks), steps[..k - 1]);
      AcceptedIsBrought(marks, steps, k - 1, id);
      RunOfPrefix(Created(marks), steps, k);
      MarksFollow(marks, steps, k - 1, id);
      CreatedIsFine(marks);
      RunKeepsInv(Created(marks), steps[..k - 1]);
      StepAccepts(a, steps[k - 1], id);
      StepStarts(a, steps[k - 1], id);
      BringsIff(marks, steps, k - 1, id, MarkOf(a, id), a.stopped);
      assert steps[..k][..k - 1] == steps[..k - 1];
    }
  }

  lemma CreatedIsFine(marks: map<string, int>)
    ensures Inv(Created(marks))
  {
  }

  lemma BringsIff(marks: map<string, int>, steps: seq<Step>, k: nat, id: string, m: int, stopped: bool)
    requires k < |steps| && IsMark(marks, steps, k, id, m) && (stopped <==> exists j :: 0 <= j < k && steps[j].Stop?)
    ensures BringsTurn(marks, steps, k, id) <==> IsFrameOf(steps[k], id) && steps[k].isTurn && steps[k].seqNo > m && !stopped
  {
  }

  /**
   * In every interleaving, for a conversation: two handlers never run at once, a turn that waits has a
   * drain, and as long as the agent is not stopped, the turns that handlers have begun and then those
   * that wait are exactly, in order and once each, the turns that the frames brought whose seqs are
   * above the mark at the start and above every earlier seq. Once it is stopped, handlers have begun
   * the first of those that came before the stop. A handler that runs handles the one begun last.
   */
  lemma TurnsRunOnceInOrder(marks: map<string, int>, steps: seq<Step>, id: string)
    ensures var a, brought, begun := Run(Created(marks), steps), Brought(marks, steps, |steps|, id), Handled(Created(marks), steps, id);
      && (forall d, e :: d != e && Serves(a, d, id) ==> !Serves(a, e, id))
      && (forall d :: Serves(a, d, id) && a.drains[d].phase.Running? ==> begun != [] && begun[|begun| - 1] == a.drains[d].phase.turn)
      && (Waiting(a, id) != [] ==> exists d :: Owns(a, d, id))
      && Increasing(brought)
      && (if a.stopped then begun <= brought else brought == begun + Waiting(a, id))
  {
    var a := Run(Created(marks), steps);
    CreatedIsFine(marks);
    RunKeepsInv(Created(marks), steps);
    RunKeepsCurrent(Created(marks), steps);
    assert steps[..|steps|] == steps;
    AcceptedIsBrought(marks, steps, |steps|, id);
    assert InOrder(a, id);
  }

  // ---------------------------------------------------------------------
  // Progress
  // ---------------------------------------------------------------------

  /** A drain takes the lock and its handler returns, so many times. */
  function Laps(d: nat, k: nat): seq<Step> {
    if k == 0 then [] else [Lock(d), Return(d)] + Laps(d, k - 1)
  }

  lemma HandledLast(a: Dispatcher, front: seq<Step>, s: Step, id: string)
    ensures Handled(a, front + [s], id) == Handled(a, front, id) + Begun(Run(a, front), s, id)
  {
    hide Next, Begun, Run;
    assert (front + [s])[..|front|] == front;
  }

  lemma NothingHandled(a: Dispatcher, id: string)
    ensures Handled(a, [], id) == [] && Run(a, []) == a
  {
  }

  lemma RunFirst(a: Dispatcher, s: Step, rest: seq<Step>)
    ensures Run(a, [s] + rest) == Run(Next(a, s), rest)
  {
    hide Next;
    assert ([s] + rest)[1..] == rest;
  }

  lemma {:induction false} HandledFirst(a: Dispatcher, s: Step, rest: seq<Step>, id: string)
    ensures Handled(a, [s] + rest, id) == Begun(a, s, id) + Handled(Next(a, s), rest, id)
    decreases |rest|
  {
    hide *;
    if rest == [] {
      NothingHandled(a, id);
      NothingHandled(Next(a, s), id);
      HandledLast(a, [], s, id);
      assert [] + [s] == [s] + rest;
    } else {
      var front, last := rest[..|rest| - 1], rest[|rest| - 1];
      assert rest == front + [last] && [s] + rest == ([s] + front) + [last];
      HandledFirst(a, s, front, id);
      HandledLast(a, [s] + front, last, id);
      HandledLast(Next(a, s), front, last, id);
      RunFirst(a, s, front);
    }
  }

  /** The drain that has the lock begins the turn that waits longest. */
  lemma LockBegins(a: Dispatcher, d: nat)
    requires Inv(a) && !a.stopped && At(a, d, AtLock) && Waiting(a, a.drains[d].conversation) != []
    ensures var (id, b) := (a.drains[d].conversation, Next(a, Lock(d)));
      && Begun(a, Lock(d), id) == [Waiting(a, id)[0]]
      && b.drains[d].phase == Running(Waiting(a, id)[0]) && b.drains[d].conversation == id && !b.stopped && |b.drains| == |a.drains|
      && Waiting(b, id) == Waiting(a, id)[1..] && b.drains[d].queue < |b.objects|
  {
    hide InOrder;
    assert Owns(a, d, a.drains[d].conversation);
  }

  lemma ReturnWaits(a: Dispatcher, d: nat, id: string)
    requires d < |a.drains| && a.drains[d].phase.Running? && a.drains[d].queue < |a.objects|
    ensures var b := Next(a, Return(d));
      && At(b, d, AtLock) && b.drains[d].conversation == a.drains[d].conversation && b.stopped == a.stopped
      && Waiting(b, id) == Waiting(a, id) && Begun(a, Return(d), id) == []
  {
  }

  /**
   * As long as the agent is not stopped, a drain that goes on taking the lock handles everything that
   * waits in its conversation, in order, and nothing else: no turn waits for anything but its turn.
   */
  lemma {:induction false} DrainHandlesAll(a: Dispatcher, d: nat)
    requires Inv(a) && !a.stopped && At(a, d, AtLock)
    ensures var id := a.drains[d].conversation;
      var laps := Laps(d, |Waiting(a, id)|);
      && Handled(a, laps, id) == Waiting(a, id)
      && Waiting(Run(a, laps), id) == [] && At(Run(a, laps), d, AtLock)
    decreases |Waiting(a, a.drains[d].conversation)|
  {
    hide Inv, Next, Waiting, Begun;
    var id := a.drains[d].conversation;
    var waiting := Waiting(a, id);
    if waiting != [] {
      LockBegins(a, d);
      var b := Next(a, Lock(d));
      ReturnWaits(b, d, id);
      var c := Next(b, Return(d));
      StepKeepsInv(a, Lock(d));
      StepKeepsInv(b, Return(d));
      DrainHandlesAll(c, d);
      var laps, rest := Laps(d, |waiting|), Laps(d, |waiting| - 1);
      assert laps == [Lock(d)] + ([Return(d)] + rest);
      hide Laps, Run, Handled;
      RunFirst(a, Lock(d), [Return(d)] + rest);
      RunFirst(b, Return(d), rest);
      HandledFirst(a, Lock(d), [Return(d)] + rest, id);
      HandledFirst(b, Return(d), rest, id);
      assert waiting == [waiting[0]] + waiting[1..];
    }
  }

  /** How many steps are left for the drains when no more turns come. */
  function Rank(drains: seq<Drain>): nat {
    if drains == [] then 0 else Rank(drains[..|drains| - 1]) + RankOf(drains[|drains| - 1].phase)
  }

  function RankOf(p: Phase): nat {
    match p
    case Running(_) => 3
    case AtLock => 2
    case Exiting => 1
    case Gone => 0
  }

  lemma {:induction false} RankAfterMove(drains: seq<Drain>, d: nat, e: Drain)
    requires d < |drains|
    ensures Rank(drains[d := e]) == Rank(drains) - RankOf(drains[d].phase) + RankOf(e.phase)
  {
    var last := |drains| - 1;
    if d == last {
      assert drains[d := e][..last] == drains[..last];
    } else {
      assert drains[d := e][..last] == drains[..last][d := e];
      RankAfterMove(drains[..last], d, e);
    }
  }

  lemma {:induction false} SomeRank(drains: seq<Drain>) returns (d: nat)
    requires Active(drains) > 0
    ensures d < |drains| && drains[d].phase != Gone
  {
    var last := |drains| - 1;
    if drains[last].phase != Gone {
      d := last;
    } else {
      d := SomeRank(drains[..last]);
    }
  }

  /** The next step of a drain that is not gone. */
  function NextOf(p: Phase, d: nat): Step {
    match p
    case Running(_) => Return(d)
    case Exiting => Exit(d)
    case _ => Lock(d)
  }

  lemma DrainMoves(a: Dispatcher, d: nat)
    requires Inv(a) && a.stopped && d < |a.drains| && a.drains[d].phase != Gone
    ensures var b := Next(a, NextOf(a.drains[d].phase, d)); b.stopped && Rank(b.drains) < Rank(a.drains)
  {
    hide InOrder, Counted, Rank;
    if Alive(a.drains[d].phase) {
      assert Owns(a, d, a.drains[d].conversation);
    }
    var b := Next(a, NextOf(a.drains[d].phase, d));
    RankAfterMove(a.drains, d, b.drains[d]);
    assert b.drains == a.drains[d := b.drains[d]];
  }

  /** Once the agent is stopped, its drains can always end: some run drains it, and none needs more than their own steps. */
  lemma {:induction false} StoppedCanDrain(a: Dispatcher) returns (steps: seq<Step>)
    requires Inv(a) && a.stopped
    ensures Run(a, steps).drained && |steps| <= Rank(a.drains)
    decreases Rank(a.drains)
  {
    hide Next, Rank, Active;
    if a.drained {
      steps := [];
    } else {
      assert Counted(a);
      var d := SomeRank(a.drains);
      var s := NextOf(a.drains[d].phase, d);
      DrainMoves(a, d);
      StepKeepsInv(a, s);
      var rest := StoppedCanDrain(Next(a, s));
      steps := [s] + rest;
      assert steps[1..] == rest;
    }
  }

  // ---------------------------------------------------------------------
  // Queues and drains
  // ---------------------------------------------------------------------

  predicate DrainedBy(a: Dispatcher, d: int, q: int) {
    0 <= d < |a.drains| && Alive(a.drains[d].phase) && a.drains[d].queue == q
  }

  ghost predicate IsServed(a: Dispatcher, q: int) {
    exists d :: DrainedBy(a, d, q)
  }

  /** A queue is marked as running exactly while a drain serves it. */
  ghost predicate RunningIsServed(a: Dispatcher) {
    forall q :: 0 <= q < |a.objects| ==> (a.objects[q].running <==> IsServed(a, q))
  }

  /** The same drains serve a queue in both. */
  lemma SameDrains(a: Dispatcher, b: Dispatcher, q: int)
    requires forall d :: DrainedBy(a, d, q) <==> DrainedBy(b, d, q)
    ensures IsServed(a, q) <==> IsServed(b, q)
  {
  }

  lemma MovedDrains(a: Dispatcher, b: Dispatcher)
    requires |a.drains| == |b.drains|
    requires forall d :: 0 <= d < |a.drains| ==> a.drains[d].queue == b.drains[d].queue && (Alive(a.drains[d].phase) <==> Alive(b.drains[d].phase))
    ensures forall q :: IsServed(a, q) <==> IsServed(b, q)
  {
    forall q
      ensures IsServed(a, q) <==> IsServed(b, q)
    {
      SameDrains(a, b, q);
    }
  }

  lemma EnqueuedIsServed(a: Dispatcher, id: string, n: int)
    requires Owned(a) && RunningIsServed(a)
    ensures RunningIsServed(Enqueued(a, id, n))
  {
    var b := Enqueued(a, id, n);
    if !a.stopped && id in a.queues {
      EnqueuedToOld(a, id, n);
      MovedDrains(a, b);
    } else if !a.stopped {
      EnqueuedToNew(a, id, n);
      assert DrainedBy(b, |a.drains|, |a.objects|);
      forall q | 0 <= q < |a.objects|
        ensures IsServed(a, q) <==> IsServed(b, q)
      {
        SameDrains(a, b, q);
      }
    }
  }

  lemma LockedIsServed(a: Dispatcher, d: nat)
    requires Owned(a) && Alone(a) && RunningIsServed(a) && At(a, d, AtLock)
    ensures RunningIsServed(Locked(a, d))
  {
    var b, q := Locked(a, d), a.drains[d].queue;
    if a.objects[q].turns == [] || a.stopped {
      GivenUpIsUnserved(a, d);
      forall r | 0 <= r < |a.objects| && r != q
        ensures IsServed(a, r) <==> IsServed(b, r)
      {
        SameDrains(a, b, r);
      }
    } else {
      MovedDrains(a, b);
    }
  }

  /** No other drain serves the queue that is given up. */
  lemma GivenUpIsUnserved(a: Dispatcher, d: nat)
    requires Owned(a) && Alone(a) && At(a, d, AtLock)
    ensures var (b, q) := (Locked(a, d), a.drains[d].queue); a.objects[q].turns == [] || a.stopped ==> !IsServed(b, q)
  {
    var b, q := Locked(a, d), a.drains[d].queue;
    assert Owns(a, d, a.drains[d].conversation);
    forall e | 0 <= e < |a.drains| && e != d && Alive(a.drains[e].phase)
      ensures a.drains[e].queue != q
    {
      assert Owns(a, e, a.drains[e].conversation);
    }
  }

  lemma FrameIsServed(a: Dispatcher, id: string, n: int, isTurn: bool)
    requires Owned(a) && RunningIsServed(a)
    ensures RunningIsServed(ApplyFrame(a, id, n, isTurn))
  {
    hide Owned, Enqueued;
    var b := a.(marks := a.marks[id := n]);
    SameOwnersMarked(a, b);
    MovedDrains(a, b);
    hide IsServed;
    EnqueuedIsServed(b, id, n);
  }

  lemma MovedIsServed(a: Dispatcher, b: Dispatcher)
    requires RunningIsServed(a) && b.objects == a.objects && |a.drains| == |b.drains|
    requires forall d :: 0 <= d < |a.drains| ==> a.drains[d].queue == b.drains[d].queue && (Alive(a.drains[d].phase) <==> Alive(b.drains[d].phase))
    ensures RunningIsServed(b)
  {
    MovedDrains(a, b);
  }

  lemma StepIsServed(a: Dispatcher, s: Step)
    requires Inv(a) && RunningIsServed(a)
    ensures RunningIsServed(Next(a, s))
  {
    hide InOrder, Counted, Owned, Alone, ApplyFrame, Locked, RunningIsServed;
    match s
    case Frame(id, n, isTurn) => FrameIsServed(a, id, n, isTurn);
    case Lock(d) =>
      if At(a, d, AtLock) {
        LockedIsServed(a, d);
      }
    case _ => MovedIsServed(a, Next(a, s));
  }

  /** In every interleaving a queue is marked as running exactly while a drain that has not given it up serves it. */
  lemma {:induction false} QueuesRunWhileServed(a: Dispatcher, steps: seq<Step>)
    requires Inv(a) && RunningIsServed(a)
    ensures RunningIsServed(Run(a, steps))
    decreases |steps|
  {
    hide Inv, RunningIsServed, Next;
    if steps != [] {
      StepIsServed(a, steps[0]);
      StepKeepsInv(a, steps[0]);
      QueuesRunWhileServed(Next(a, steps[0]), steps[1..]);
    }
  }

  /**
   * In every interleaving the agent has drained exactly when it was stopped and no drain is
   * left; and once it is stopped no handler starts any more.
   */
  lemma DrainedIffStoppedAndIdle(marks: map<string, int>, before: seq<Step>, after: seq<Step>)
    ensures var a := Run(Created(marks), before);
      && (a.drained <==> a.stopped && forall d :: 0 <= d < |a.drains| ==> a.drains[d].phase == Gone)
      && (a.stopped ==> Run(a, after).stopped && Run(a, after).ledger == a.ledger)
  {
    var a := Run(Created(marks), before);
    CreatedIsFine(marks);
    RunKeepsInv(Created(marks), before);
    if a.stopped {
      NothingStartsAfterStop(a, after);
    }
    if d :| 0 <= d < |a.drains| && a.drains[d].phase != Gone {
      SomeActive(a.drains, d);
    } else {
      NoneActive(a.drains);
    }
  }

  lemma {:induction false} NoneActive(drains: seq<Drain>)
    requires forall d :: 0 <= d < |drains| ==> drains[d].phase == Gone
    ensures Active(drains) == 0
    decreases |drains|
  {
    if drains != [] {
      NoneActive(drains[..|drains| - 1]);
    }
  }

  lemma {:induction false} NothingStartsAfterStop(a: Dispatcher, steps: seq<Step>)
    requires a.stopped
    ensures Run(a, steps).stopped && Run(a, steps).ledger == a.ledger
    decreases |steps|
  {
    if steps != [] {
      NothingStartsAfterStop(Next(a, steps[0]), steps[1..]);
    }
  }

  // ---------------------------------------------------------------------
  // The object
  // ---------------------------------------------------------------------

  /** The fields of the agent, and one method for each region under its mutex. */
  class Agent {
    var marks: map<string, int>
    var queues: map<string, nat>
    var objects: seq<Queue>
    var drains: seq<Drain>
    var activeDrains: int
    var stopped: bool
    var drained: bool
    ghost var ledger: Ledger

    ghost function Value(): Dispatcher
      reads this
    {
      Dispatcher(marks, queues, objects, drains, activeDrains, stopped, drained, ledger)
    }

    constructor (watermarks: map<string, int>)
      ensures Value() == Created(watermarks)
    {
      marks, queues, objects, drains := watermarks, map[], [], [];
      activeDrains, stopped, drained := 0, false, false;
      ledger := Ledger(map[], map[]);
    }

    method EnqueueLocked(id: string, n: int)
      requires Owned(Value())
      modifies this
      ensures Value() == Enqueued(old(Value()), id, n)
    {
      if stopped {
        return;
      }
      if id !in queues {
        queues := queues[id := |objects|];
        objects := objects + [Queue([], false)];
      }
      var q := queues[id];
      var wasRunning := objects[q].running;
      objects := objects[q := Queue(objects[q].turns + [n], true)];
      ledger := ledger.(accepted := Noted(ledger.accepted, id, n));
      if !wasRunning {
        activeDrains := activeDrains + 1;
        drains := drains + [Drain(id, q, AtLock)];
      }
    }

    method Dispatch(id: string, n: int, isTurn: bool)
      requires Inv(Value())
      modifies this
      ensures Value() == ApplyFrame(old(Value()), id, n, isTurn) && Inv(Value())
    {
      hide Enqueued, Inv;
      FrameKeepsInv(Value(), id, n, isTurn);
      if n <= (if id in marks then marks[id] else 0) {
        return;
      }
      assert Owned(Value().(marks := marks[id := n])) by {
        MarkingKeepsInv(Value(), id, n);
        InvIsOwned(Value().(marks := marks[id := n]));
      }
      marks := marks[id := n];
      if isTurn {
        EnqueueLocked(id, n);
      }
    }

    /** One turn of the drain loop: the next turn to run, or none when the drain ends. */
    method DrainStep(d: nat) returns (next: Option<int>)
      requires Inv(Value()) && At(Value(), d, AtLock)
      modifies this
      ensures Value() == Locked(old(Value()), d) && Inv(Value())
      ensures next == if drains[d].phase.Running? then Some(drains[d].phase.turn) else None
    {
      hide Inv;
      LockKeepsInv(Value(), d);
      var id, q := drains[d].conversation, drains[d].queue;
      if objects[q].turns == [] || stopped {
        objects := objects[q := objects[q].(running := false)];
        queues := queues - {id};
        drains := drains[d := drains[d].(phase := Exiting)];
        return None;
      }
      var turn := objects[q].turns[0];
      objects := objects[q := objects[q].(turns := objects[q].turns[1..])];
      ledger := ledger.(started := Noted(ledger.started, id, turn));
      drains := drains[d := drains[d].(phase := Running(turn))];
      return Some(turn);
    }

    method DrainExit(d: nat)
      requires Inv(Value()) && d < |drains| && drains[d].phase == Exiting
      modifies this
      ensures Value() == Exited(old(Value()), d) && Inv(Value())
    {
      hide Inv;
      ExitKeepsInv(Value(), d);
      drains := drains[d := drains[d].(phase := Gone)];
      activeDrains := activeDrains - 1;
      if activeDrains == 0 && stopped {
        drained := true;
      }
    }

    method Stop()
      requires Inv(Value())
      modifies this
      ensures Value() == Stopped(old(Value())) && Inv(Value())
    {
      hide Inv;
      StopKeepsInv(Value());
      if stopped {
        return;
      }
      stopped := true;
      if activeDrains == 0 {
        drained := true;
      }
    }
  }

  lemma InvIsOwned(a: Dispatcher)
    requires Inv(a)
    ensures Owned(a)
  {
  }
}
