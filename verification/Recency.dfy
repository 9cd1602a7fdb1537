/** Lists kept in the order of last use. */
module Recency {
  function Last<T>(s: seq<T>, n: int): seq<T> {
    if n <= 0 then [] else if |s| <= n then s else s[|s| - n..]
  }

  ghost predicate NoRepeats<T(!new)>(s: seq<T>) {
    forall i, j :: 0 <= i < j < |s| ==> s[i] != s[j]
  }

  function Elements<T>(s: seq<T>): set<T> {
    set x | x in s
  }

  function Omitting<T(==)>(s: seq<T>, x: T): seq<T> {
    if s == [] then [] else if s[0] == x then s[1..] else [s[0]] + Omitting(s[1..], x)
  }

  function ToEnd<T(==)>(s: seq<T>, x: T): seq<T> {
    Omitting(s, x) + [x]
  }

  /** What was used, by last use, with no bound on the number. */
  function ByRecency<T(==)>(uses: seq<T>): seq<T> {
    if uses == [] then [] else ToEnd(ByRecency(uses[..|uses| - 1]), uses[|uses| - 1])
  }

  /** What was used after the last use of `x`. */
  function After<T(==)>(uses: seq<T>, x: T): set<T> {
    if uses == [] || uses[|uses| - 1] == x then {}
    else After(uses[..|uses| - 1], x) + {uses[|uses| - 1]}
  }

  function Tail<T(==)>(s: seq<T>, x: T): seq<T> {
    if s == [] then [] else if s[0] == x then s[1..] else Tail(s[1..], x)
  }

  lemma {:induction false} OmittingHolds<T(!new)>(s: seq<T>, x: T)
    requires NoRepeats(s)
    ensures NoRepeats(Omitting(s, x)) && Elements(Omitting(s, x)) == Elements(s) - {x}
    ensures x !in s ==> Omitting(s, x) == s
  {
    if s != [] {
      var rest := s[1..];
      assert s == [s[0]] + rest && s[0] !in rest;
      OmittingHolds(rest, x);
      if s[0] != x {
        var r := Omitting(rest, x);
        assert s[0] !in Elements(r);
        assert forall y :: y in r <==> y in Elements(r);
      }
    }
  }

  lemma ToEndHolds<T(!new)>(s: seq<T>, x: T)
    requires NoRepeats(s)
    ensures NoRepeats(ToEnd(s, x)) && Elements(ToEnd(s, x)) == Elements(s) + {x}
  {
    var r := Omitting(s, x);
    OmittingHolds(s, x);
    assert x !in Elements(r) && Elements(s) == Elements(r) + (Elements(s) * {x});
    assert forall y :: y in r + [x] <==> y in r || y == x;
  }

  /** Forgetting the least recent ones first or last makes no difference to the most recent ones. */
  lemma {:induction false} LastOfToEnd<T(!new)>(s: seq<T>, x: T, n: int)
    requires NoRepeats(s) && n >= 1
    ensures Last(ToEnd(Last(s, n), x), n) == Last(ToEnd(s, x), n)
    decreases |s|
  {
    if |s| > n {
      var rest := s[1..];
      LastOfToEnd(rest, x, n);
      assert s == [s[0]] + rest;
      LastOfLonger(s[0], rest, n);
      OmittingIsShort(rest, x);
      LastOfLonger(s[0], ToEnd(rest, x), n);
      hide Last;
      if s[0] == x {
        OmittingHolds(rest, x);
      } else {
        assert ToEnd(s, x) == [s[0]] + ToEnd(rest, x);
      }
    }
  }

  lemma LastOfLonger<T>(x: T, s: seq<T>, n: int)
    requires 1 <= n <= |s|
    ensures Last([x] + s, n) == Last(s, n)
  {
  }

  lemma {:induction false} OmittingIsShort<T>(s: seq<T>, x: T)
    ensures |s| - 1 <= |Omitting(s, x)| <= |s|
  {
    if s != [] && s[0] != x {
      OmittingIsShort(s[1..], x);
    }
  }

  lemma {:induction false} ByRecencyHolds<T(!new)>(uses: seq<T>)
    ensures NoRepeats(ByRecency(uses)) && Elements(ByRecency(uses)) == Elements(uses)
  {
    if uses != [] {
      var front, x := uses[..|uses| - 1], uses[|uses| - 1];
      ByRecencyHolds(front);
      ToEndHolds(ByRecency(front), x);
      assert uses == front + [x];
    }
  }

  lemma {:induction false} TailOfAppend<T>(s: seq<T>, x: T, last: T)
    requires x in s
    ensures Tail(s + [last], x) == Tail(s, x) + [last]
  {
    assert (s + [last])[1..] == s[1..] + [last];
    if s[0] != x {
      TailOfAppend(s[1..], x, last);
    }
  }

  lemma {:induction false} TailAfterMove<T(!new)>(s: seq<T>, last: T, x: T)
    requires NoRepeats(s) && x in s && x != last
    ensures Elements(Tail(ToEnd(s, last), x)) == Elements(Tail(s, x)) + {last}
  {
    var rest := s[1..];
    if s[0] == last {
      TailOfAppend(rest, x, last);
    } else {
      assert ToEnd(s, last) == [s[0]] + ToEnd(rest, last);
      if s[0] == x {
        ToEndHolds(rest, last);
      } else {
        TailAfterMove(rest, last, x);
      }
    }
  }

  /** What comes after `x` in the order of recency was used after it. */
  lemma {:induction false} TailIsAfter<T(!new)>(uses: seq<T>, x: T)
    requires x in uses
    ensures Elements(Tail(ByRecency(uses), x)) == After(uses, x)
    decreases |uses|
  {
    var front, last := uses[..|uses| - 1], uses[|uses| - 1];
    var before := ByRecency(front);
    ByRecencyHolds(front);
    assert x in before <==> x in Elements(before);
    if last == x {
      OmittingHolds(before, x);
      TailOfLast(Omitting(before, x), x);
    } else {
      assert x in front && x in Elements(front);
      TailIsAfter(front, x);
      TailAfterMove(before, last, x);
    }
  }

  lemma {:induction false} TailOfLast<T>(s: seq<T>, x: T)
    requires x !in Elements(s)
    ensures Tail(s + [x], x) == []
  {
    if s != [] {
      assert (s + [x])[1..] == s[1..] + [x];
      TailOfLast(s[1..], x);
    }
  }

  lemma {:induction false} TailHolds<T(!new)>(s: seq<T>, x: T)
    requires NoRepeats(s)
    ensures NoRepeats(Tail(s, x)) && (s != [] ==> |Tail(s, x)| < |s|)
  {
    if s != [] && s[0] != x {
      TailHolds(s[1..], x);
    }
  }

  lemma {:induction false} SizeOfElements<T(!new)>(s: seq<T>)
    requires NoRepeats(s)
    ensures |Elements(s)| == |s|
  {
    if s != [] {
      SizeOfElements(s[1..]);
      assert Elements(s) == {s[0]} + Elements(s[1..]);
      assert s[0] !in s[1..];
    }
  }

  lemma {:induction false} InLastIffShortTail<T(!new)>(s: seq<T>, x: T, n: int)
    requires NoRepeats(s) && n >= 1 && x in s
    ensures x in Last(s, n) <==> |Tail(s, x)| < n
    decreases |s|
  {
    TailHolds(s, x);
    if |s| > n {
      assert Last(s, n) == Last(s[1..], n);
      if s[0] != x {
        InLastIffShortTail(s[1..], x, n);
      } else {
        assert x !in s[1..];
      }
    }
  }

  /** The last `n` by recency are those after whose last use fewer than `n` others were used. */
  lemma LastHoldsRecent<T(!new)>(uses: seq<T>, x: T, n: int)
    requires n >= 1
    ensures x in Last(ByRecency(uses), n) <==> x in uses && |After(uses, x)| < n
  {
    var order := ByRecency(uses);
    ByRecencyHolds(uses);
    assert (x in uses <==> x in Elements(uses)) && (x in order <==> x in Elements(order));
    if x in uses {
      TailIsAfter(uses, x);
      TailHolds(order, x);
      SizeOfElements(Tail(order, x));
      InLastIffShortTail(order, x, n);
    }
  }
}
