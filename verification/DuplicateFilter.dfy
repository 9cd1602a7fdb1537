/**
 * The duplicate filter of the TypeScript agent: for each of a bounded number of
 * conversations, a bounded window of the seqs seen.
 */
module DuplicateFilter {
  import opened Prefix
  import opened Recency

  const WINDOW := 512

  datatype Position = Position(high: int, floor: int, seen: set<int>)

  /** The smallest member, found by removing others. */
  function Least(s: set<int>): (m: int)
    requires s != {}
    ensures m in s && forall x :: x in s ==> m <= x
  {
    LeastExists(s);
    var m :| m in s && forall x :: x in s ==> m <= x;
    m
  }

  lemma SomeMember<T>(s: set<T>) returns (y: T)
    requires s != {}
    ensures y in s
  {
    y :| y in s;
  }

  lemma {:induction false} LeastExists(s: set<int>)
    requires s != {}
    ensures exists m :: m in s && forall x :: x in s ==> m <= x
    decreases s
  {
    var y := SomeMember(s);
    var rest := s - {y};
    if rest == {} {
      assert s == {y};
    } else {
      LeastExists(rest);
      var m :| m in rest && forall x :: x in rest ==> m <= x;
      var k := if m <= y then m else y;
      forall x | x in s
        ensures k <= x
      {
        assert x == y || x in rest;
      }
    }
  }

  /** The smallest seqs are forgotten until the window holds; what is below them counts as seen. */
  function Trimmed(p: Position): Position
    decreases p.seen
  {
    if |p.seen| <= WINDOW then p
    else
      var m := Least(p.seen);
      Trimmed(p.(seen := p.seen - {m}, floor := Max(p.floor, m)))
  }

  predicate IsSeen(p: Position, n: int) {
    n <= p.floor || n in p.seen
  }

  function Recorded(p: Position, n: int): Position {
    if IsSeen(p, n) then p
    else Trimmed(p.(seen := p.seen + {n}, high := Max(p.high, n)))
  }

  // ---------------------------------------------------------------------
  // The window refines a set of any size
  // ---------------------------------------------------------------------

  function Larger(all: set<int>, m: int): set<int> {
    set x | x in all && m < x
  }

  /**
   * What a conversation remembers when it started from `start` and the seqs `all` were reported
   * fresh since: the largest ones, and the largest one it forgot.
   */
  ghost predicate Remembers(p: Position, start: int, all: set<int>) {
    && p.seen <= all && |p.seen| <= WINDOW
    && (forall x :: x in all ==> start < x <= p.high && (x in p.seen <==> p.floor < x))
    && start <= p.floor <= p.high && (p.high == start || p.high in all)
    && (p.floor == start || (p.floor in all && |p.seen| == WINDOW))
  }

  /** A seq is a duplicate for the filter when it was seen, or lies below one that the window forgot. */
  ghost predicate Duplicate(start: int, all: set<int>, n: int) {
    n <= start || n in all || exists m :: m in all && n <= m && |Larger(all, m)| >= 512
  }

  lemma SeenIffDuplicate(p: Position, start: int, all: set<int>, n: int)
    requires Remembers(p, start, all)
    ensures IsSeen(p, n) <==> Duplicate(start, all, n)
  {
    if IsSeen(p, n) && n > start && n !in all {
      SmallerSet(p.seen, Larger(all, p.floor));
      assert p.floor in all && n <= p.floor;
    }
    if m :| m in all && n <= m && |Larger(all, m)| >= WINDOW {
      if m in p.seen {
        var above := Larger(all, m);
        assert above <= p.seen - {m};
        SmallerSet(above, p.seen - {m});
        assert false;
      }
    }
  }

  lemma RecordedRemembers(p: Position, start: int, all: set<int>, n: int)
    requires Remembers(p, start, all)
    ensures Remembers(Recorded(p, n), start, if IsSeen(p, n) then all else all + {n})
  {
    if !IsSeen(p, n) {
      var q := p.(seen := p.seen + {n}, high := Max(p.high, n));
      if |q.seen| > WINDOW {
        var m := Least(q.seen);
        var r := q.(seen := q.seen - {m}, floor := Max(q.floor, m));
        assert |q.seen| == WINDOW + 1 && |r.seen| == WINDOW;
        assert Trimmed(q) == r;
      }
    }
  }

  // ---------------------------------------------------------------------
  // The tracked conversations
  // ---------------------------------------------------------------------

  datatype Slot = Slot(id: string, position: Position)

  /** A map in order of insertion: the least recently touched conversation comes first. */
  datatype Tracker = Tracker(capacity: int, slots: seq<Slot>)

  function IndexOf(slots: seq<Slot>, id: string): (i: nat)
    ensures i <= |slots| && (i < |slots| ==> slots[i].id == id)
    ensures forall j :: 0 <= j < i ==> slots[j].id != id
  {
    if slots == [] || slots[0].id == id then 0 else IndexOf(slots[1..], id) + 1
  }

  function Removed(slots: seq<Slot>, id: string): seq<Slot> {
    if slots == [] then [] else if slots[0].id == id then slots[1..] else [slots[0]] + Removed(slots[1..], id)
  }

  function Touched(t: Tracker, id: string, p: Position): Tracker {
    t.(slots := Last(Removed(t.slots, id) + [Slot(id, p)], t.capacity))
  }

  function PositionOf(t: Tracker, id: string): Position {
    var i := IndexOf(t.slots, id);
    if i < |t.slots| then t.slots[i].position else Position(0, 0, {})
  }

  predicate Tracked(t: Tracker, id: string) {
    IndexOf(t.slots, id) < |t.slots|
  }

  function Created(capacity: int): Tracker {
    Tracker(Max(1, capacity), [])
  }

  datatype Event = Start(id: string, seqNo: int) | Record(id: string, seqNo: int) | Touch(id: string)

  /** One call: an initial watermark, a recorded seq, or mere activity. */
  function Apply(t: Tracker, e: Event): Tracker {
    match e
    case Start(id, n) => if n >= 0 then Touched(t, id, Position(n, n, {})) else t
    case Record(id, n) => if n < 1 then t else Touched(t, id, Recorded(PositionOf(t, id), n))
    case Touch(id) => if Tracked(t, id) then Touched(t, id, PositionOf(t, id)) else t
  }

  /** What record answers. */
  predicate Fresh(t: Tracker, id: string, n: int) {
    n < 1 || !IsSeen(PositionOf(t, id), n)
  }

  // ---------------------------------------------------------------------
  // Histories
  // ---------------------------------------------------------------------

  /** What was reported fresh for a conversation since it was last taken up, and from where it started. */
  datatype Past = Past(start: int, all: set<int>)

  datatype History = History(pasts: map<string, Past>, touches: seq<string>)

  function PastOf(t: Tracker, h: History, id: string): Past {
    if Tracked(t, id) && id in h.pasts then h.pasts[id] else Past(0, {})
  }

  function Noted(t: Tracker, h: History, e: Event): History {
    match e
    case Start(id, n) => if n >= 0 then History(h.pasts[id := Past(n, {})], h.touches + [id]) else h
    case Record(id, n) =>
      if n < 1 then h
      else
        var past := PastOf(t, h, id);
        History(h.pasts[id := if Fresh(t, id, n) then past.(all := past.all + {n}) else past], h.touches + [id])
    case Touch(id) => if Tracked(t, id) then h.(touches := h.touches + [id]) else h
  }

  function Ids(slots: seq<Slot>): seq<string> {
    seq(|slots|, i requires 0 <= i < |slots| => slots[i].id)
  }

  ghost predicate AllRemembered(t: Tracker, h: History) {
    forall i :: 0 <= i < |t.slots| ==>
      && t.slots[i].id in h.pasts
      && Remembers(t.slots[i].position, h.pasts[t.slots[i].id].start, h.pasts[t.slots[i].id].all)
  }

  // ---------------------------------------------------------------------
  // Every call
  // ---------------------------------------------------------------------

  ghost predicate Inv(t: Tracker, h: History) {
    && t.capacity >= 1
    && Ids(t.slots) == Last(ByRecency(h.touches), t.capacity)
    && AllRemembered(t, h)
  }

  lemma TrackedIsListed(t: Tracker, id: string)
    ensures Tracked(t, id) <==> id in Ids(t.slots)
  {
    var i := IndexOf(t.slots, id);
    assert forall j :: 0 <= j < |t.slots| ==> Ids(t.slots)[j] == t.slots[j].id;
    assert i < |t.slots| ==> Ids(t.slots)[i] == id;
  }

  lemma {:induction false} RemovedIds(slots: seq<Slot>, id: string)
    ensures Ids(Removed(slots, id)) == Omitting(Ids(slots), id)
  {
    if slots != [] {
      assert Ids(slots)[1..] == Ids(slots[1..]);
      if slots[0].id != id {
        RemovedIds(slots[1..], id);
        assert Ids([slots[0]] + Removed(slots[1..], id)) == [slots[0].id] + Ids(Removed(slots[1..], id));
      }
    }
  }

  lemma TouchedIds(t: Tracker, id: string, p: Position)
    requires t.capacity >= 1
    ensures Ids(Touched(t, id, p).slots) == Last(ToEnd(Ids(t.slots), id), t.capacity)
  {
    RemovedIds(t.slots, id);
    var all := Removed(t.slots, id) + [Slot(id, p)];
    assert Ids(all) == ToEnd(Ids(t.slots), id);
  }

  lemma TouchedKeepsInv(t: Tracker, h: History, id: string, p: Position, past: Past)
    requires Inv(t, h) && Remembers(p, past.start, past.all)
    ensures Inv(Touched(t, id, p), History(h.pasts[id := past], h.touches + [id]))
  {
    hide Remembers;
    var u, touches := Touched(t, id, p), h.touches + [id];
    assert touches[..|h.touches|] == h.touches;
    ByRecencyHolds(h.touches);
    TouchedIds(t, id, p);
    LastOfToEnd(ByRecency(h.touches), id, t.capacity);
    TouchedRemembers(t, h, id, p, past);
  }

  lemma TouchedRemembers(t: Tracker, h: History, id: string, p: Position, past: Past)
    requires NoRepeats(Ids(t.slots)) && AllRemembered(t, h) && Remembers(p, past.start, past.all) && t.capacity >= 1
    ensures AllRemembered(Touched(t, id, p), h.(pasts := h.pasts[id := past], touches := h.touches + [id]))
  {
    hide Remembers;
    var u, pasts := Touched(t, id, p), h.pasts[id := past];
    forall i | 0 <= i < |u.slots|
      ensures u.slots[i].id in pasts && Remembers(u.slots[i].position, pasts[u.slots[i].id].start, pasts[u.slots[i].id].all)
    {
      var s := u.slots[i];
      assert s in Removed(t.slots, id) + [Slot(id, p)];
      if s != Slot(id, p) {
        RemovedIsOther(t.slots, id, s);
      }
    }
  }

  lemma {:induction false} RemovedIsOther(slots: seq<Slot>, id: string, s: Slot)
    requires NoRepeats(Ids(slots)) && s in Removed(slots, id)
    ensures s.id != id && s in slots
  {
    var rest := slots[1..];
    assert Ids(slots)[1..] == Ids(rest);
    if slots[0].id == id {
      var j :| 0 <= j < |rest| && rest[j] == s;
      assert Ids(slots)[j + 1] == s.id && Ids(slots)[0] == id;
    } else if s != slots[0] {
      RemovedIsOther(rest, id, s);
    }
  }

  lemma EventKeepsInv(t: Tracker, h: History, e: Event)
    requires Inv(t, h)
    ensures Inv(Apply(t, e), Noted(t, h, e))
  {
    hide Inv, Touched, Recorded;
    match e
    case Start(id, n) => StartRemembers(n); TouchedKeepsInv(t, h, id, Position(n, n, {}), Past(n, {}));
    case Record(id, n) =>
      PositionRemembers(t, h, id);
      var past := PastOf(t, h, id);
      RecordedRemembers(PositionOf(t, id), past.start, past.all, n);
      if n >= 1 {
        TouchedKeepsInv(t, h, id, Recorded(PositionOf(t, id), n), if Fresh(t, id, n) then past.(all := past.all + {n}) else past);
      }
    case Touch(id) =>
      if Tracked(t, id) {
        PositionRemembers(t, h, id);
        TouchedKeepsInv(t, h, id, PositionOf(t, id), PastOf(t, h, id));
        assert h.pasts[id := PastOf(t, h, id)] == h.pasts;
      }
  }

  lemma StartRemembers(n: int)
    ensures Remembers(Position(n, n, {}), n, {})
  {
  }

  lemma PositionRemembers(t: Tracker, h: History, id: string)
    requires Inv(t, h)
    ensures Remembers(PositionOf(t, id), PastOf(t, h, id).start, PastOf(t, h, id).all)
    ensures Tracked(t, id) ==> id in h.pasts && PastOf(t, h, id) == h.pasts[id]
  {
    hide Last, ByRecency;
  }

  function Run(t: Tracker, h: History, es: seq<Event>): (Tracker, History)
    decreases |es|
  {
    if es == [] then (t, h) else Run(Apply(t, es[0]), Noted(t, h, es[0]), es[1..])
  }

  lemma {:induction false} RunKeepsInv(t: Tracker, h: History, es: seq<Event>)
    requires Inv(t, h)
    ensures var (u, k) := Run(t, h, es); Inv(u, k) && u.capacity == t.capacity
    decreases |es|
  {
    hide Inv, Noted;
    if es != [] {
      EventKeepsInv(t, h, es[0]);
      RunKeepsInv(Apply(t, es[0]), Noted(t, h, es[0]), es[1..]);
    }
  }

  /**
   * In every run record answers fresh exactly when the seq is not a duplicate of those reported
   * fresh since the conversation was taken up: none is fresh twice, and an unseen one above the
   * start is refused only below a seq that 512 larger ones have pushed out of the window.
   */
  lemma FilterRefinesSet(capacity: int, es: seq<Event>, id: string, n: int)
    requires n >= 1
    ensures var (t, h) := Run(Created(capacity), History(map[], []), es);
      var past := PastOf(t, h, id);
      Fresh(t, id, n) <==> !Duplicate(past.start, past.all, n)
  {
    hide Duplicate, IsSeen, Run;
    var (t, h) := Run(Created(capacity), History(map[], []), es);
    RunKeepsInv(Created(capacity), History(map[], []), es);
    PositionRemembers(t, h, id);
    SeenIffDuplicate(PositionOf(t, id), PastOf(t, h, id).start, PastOf(t, h, id).all, n);
  }

  /** In every run the tracked conversations are those with fewer than `capacity` others touched since. */
  lemma TrackedAreMostRecent(capacity: int, es: seq<Event>, id: string)
    ensures var (t, h) := Run(Created(capacity), History(map[], []), es);
      Tracked(t, id) <==> id in h.touches && |After(h.touches, id)| < Max(1, capacity)
  {
    hide Run;
    var (t, h) := Run(Created(capacity), History(map[], []), es);
    RunKeepsInv(Created(capacity), History(map[], []), es);
    TrackedIsListed(t, id);
    LastHoldsRecent(h.touches, id, t.capacity);
  }

  // ---------------------------------------------------------------------
  // The object
  // ---------------------------------------------------------------------

  /** The positions that the tracker is given at first. */
  function Began(t: Tracker, initial: seq<(string, int)>): Tracker
    decreases |initial|
  {
    if initial == [] then t else Began(Apply(t, Start(initial[0].0, initial[0].1)), initial[1..])
  }

  class WatermarkTracker {
    const capacity: int
    var slots: seq<Slot>

    ghost function Value(): Tracker
      reads this
    {
      Tracker(capacity, slots)
    }

    constructor (capacity: int, initial: seq<(string, int)>)
      ensures Value() == Began(Created(capacity), initial)
    {
      this.capacity := Max(1, capacity);
      slots := [];
      new;
      hide Touched;
      assert initial[0..] == initial;
      for i := 0 to |initial|
        invariant Began(Value(), initial[i..]) == Began(Created(capacity), initial)
      {
        assert initial[i..][1..] == initial[i + 1..];
        var (id, n) := initial[i];
        if n >= 0 {
          MoveToEnd(id, Position(n, n, {}));
        }
      }
    }

    method Find(id: string) returns (i: nat)
      ensures i == IndexOf(slots, id)
    {
      i := 0;
      while i < |slots| && slots[i].id != id
        invariant i <= |slots| && IndexOf(slots, id) == i + IndexOf(slots[i..], id)
      {
        assert slots[i..][1..] == slots[i + 1..];
        i := i + 1;
      }
    }

    /** Moves or adds the conversation to the end, then evicts from the front. */
    method MoveToEnd(id: string, p: Position)
      requires capacity >= 1
      modifies this
      ensures Value() == Touched(old(Value()), id, p)
    {
      slots := Removed(slots, id) + [Slot(id, p)];
      ghost var all := slots;
      while |slots| > capacity
        invariant |slots| >= capacity || slots == all
        invariant Last(slots, capacity) == Last(all, capacity)
      {
        slots := slots[1..];
      }
    }

    method Trim(p: Position) returns (q: Position)
      ensures q == Trimmed(p)
    {
      q := p;
      while |q.seen| > WINDOW
        invariant Trimmed(q) == Trimmed(p)
        decreases q.seen
      {
        var old' := Least(q.seen);
        q := q.(seen := q.seen - {old'}, floor := Max(q.floor, old'));
      }
    }

    method Record(id: string, n: int) returns (isFresh: bool)
      requires capacity >= 1
      modifies this
      ensures isFresh == old(Fresh(Value(), id, n))
      ensures Value() == Apply(old(Value()), Event.Record(id, n))
    {
      hide Trimmed, Touched;
      if n < 1 {
        return true;
      }
      var i := Find(id);
      var p := if i < |slots| then slots[i].position else Position(0, 0, {});
      isFresh := !(n <= p.floor || n in p.seen);
      if isFresh {
        p := p.(seen := p.seen + {n}, high := Max(p.high, n));
        p := Trim(p);
      }
      MoveToEnd(id, p);
    }

    method Touch(id: string)
      requires capacity >= 1
      modifies this
      ensures Value() == Apply(old(Value()), Event.Touch(id))
    {
      var i := Find(id);
      if i < |slots| {
        MoveToEnd(id, slots[i].position);
      }
    }
  }
}
