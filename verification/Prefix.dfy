/** Options and sequences, and the contiguous prefix that both clients advance their watermark over. */
module Prefix {
  datatype Option<+T> = None | Some(value: T)

  /** The seqs above `lo`, up to and including `hi`. */
  function Span(lo: int, hi: int): set<int> {
    set k | lo < k <= hi && Between(lo, k, hi)
  }

  predicate Between(lo: int, k: int, hi: int) {
    lo < k <= hi
  }

  /** The seqs of `s` above `w`. */
  function Above(s: set<int>, w: int): set<int> {
    set k | k in s && w < k
  }

  /** The end of the unbroken run of members of `s` that starts right after `w`. */
  function Absorb(w: int, s: set<int>): (r: int)
    ensures w <= r && r + 1 !in s
    ensures Span(w, r) <= s
    decreases s
  {
    if w + 1 in s then
      var r := Absorb(w + 1, s - {w + 1});
      assert Span(w, r) == {w + 1} + Span(w + 1, r);
      r
    else w
  }

  /** The run has only one end. */
  lemma AbsorbIsUnique(w: int, s: set<int>, r: int)
    requires w <= r && r + 1 !in s && Span(w, r) <= s
    ensures Absorb(w, s) == r
  {
    var a := Absorb(w, s);
    assert a < r ==> a + 1 in Span(w, r);
    assert r < a ==> r + 1 in Span(w, a);
  }

  /** Moving the watermark over the run leaves the accounted seqs as they were. */
  lemma AbsorbKeepsAccounted(w: int, s: set<int>, lo: int)
    requires lo <= w
    ensures Span(lo, w) + Above(s, w) == Span(lo, Absorb(w, s)) + Above(s, Absorb(w, s))
    ensures forall k :: k in Above(s, Absorb(w, s)) ==> Absorb(w, s) + 1 < k
  {
    var r := Absorb(w, s);
    forall k | w < k <= r
      ensures k in s
    {
      assert k in Span(w, r);
    }
  }

  function Max(a: int, b: int): int {
    if a >= b then a else b
  }

  function Without<T>(s: seq<T>, i: nat): seq<T>
    requires i < |s|
  {
    s[..i] + s[i + 1..]
  }

  lemma AppendOne<T>(a: seq<T>, x: T, b: seq<T>)
    ensures a + ([x] + b) == a + [x] + b
  {
  }

  lemma SmallerSet<T>(a: set<T>, b: set<T>)
    requires a <= b
    ensures |a| <= |b|
  {
    assert b == a + (b - a);
  }

  // ---------------------------------------------------------------------
  // Accounts of the log
  // ---------------------------------------------------------------------

  /** One seq accounted for: handed to the application, or known to be an own send. */
  datatype Account = Delivered(seqNo: int) | Own(seqNo: int)

  function Seqs(accounts: seq<Account>): set<int> {
    set i | 0 <= i < |accounts| :: accounts[i].seqNo
  }

  ghost predicate EachOnce(accounts: seq<Account>) {
    forall i, j :: 0 <= i < j < |accounts| ==> accounts[i].seqNo != accounts[j].seqNo
  }

  /**
   * The accounts are those of a client that started at `start`, reached `watermark`
   * without a gap and knows the seqs `beyond` it: every seq once, and no other seq.
   */
  ghost predicate Tally(accounts: seq<Account>, start: int, watermark: int, beyond: set<int>) {
    && start <= watermark
    && (forall k :: k in beyond ==> watermark + 1 < k)
    && Seqs(accounts) == Span(start, watermark) + beyond
    && EachOnce(accounts)
  }

  lemma SeqsOfAppend(accounts: seq<Account>, a: Account)
    ensures Seqs(accounts + [a]) == Seqs(accounts) + {a.seqNo}
  {
    var all := accounts + [a];
    assert all[|accounts|] == a;
    forall n | n in Seqs(accounts) + {a.seqNo}
      ensures n in Seqs(all)
    {
      if n != a.seqNo {
        var i :| 0 <= i < |accounts| && accounts[i].seqNo == n;
        assert all[i].seqNo == n;
      }
    }
  }

  /** Accounting for one more seq keeps the tally, when the position accounts for it too. */
  lemma TallyGrows(accounts: seq<Account>, start: int, w: int, beyond: set<int>, a: Account, w': int, beyond': set<int>)
    requires Tally(accounts, start, w, beyond) && w < a.seqNo && a.seqNo !in beyond
    requires w <= w' && forall k :: k in beyond' ==> w' + 1 < k
    requires Span(start, w') + beyond' == Span(start, w) + beyond + {a.seqNo}
    ensures Tally(accounts + [a], start, w', beyond')
  {
    SeqsOfAppend(accounts, a);
    forall i | 0 <= i < |accounts|
      ensures accounts[i].seqNo != a.seqNo
    {
      assert accounts[i].seqNo in Seqs(accounts);
    }
  }

  lemma EmptyTally(start: int)
    ensures Tally([], start, start, {})
  {
    assert Seqs([]) == {};
  }
}
