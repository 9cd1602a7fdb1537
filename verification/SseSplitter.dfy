/**
 * The buffer loop of the Server-Sent Events transport: text arrives in pieces
 * of any size and is cut at blank lines, written with LF, CRLF or a mix.
 */
module SseSplitter {
  import opened Prefix

  /** The length of the line end at `i`, 0 when there is none. */
  function LineEnd(s: string, i: nat): (n: nat)
    ensures i <= |s| ==> i + n <= |s|
  {
    if i < |s| && s[i] == '\n' then 1
    else if i + 1 < |s| && s[i] == '\r' && s[i + 1] == '\n' then 2
    else 0
  }

  /** The length of the two line ends at `i`, 0 when there are not two. */
  function Break(s: string, i: nat): (n: nat)
    ensures i <= |s| ==> i + n <= |s|
  {
    var a := LineEnd(s, i);
    var b := LineEnd(s, i + a);
    if a == 0 || b == 0 then 0 else a + b
  }

  /** The leftmost break at or after `i`, or the length of the text. */
  function Search(s: string, i: nat): (k: nat)
    requires i <= |s|
    ensures i <= k <= |s| && (k < |s| ==> Break(s, k) > 0)
    ensures forall j :: i <= j < k ==> Break(s, j) == 0
    decreases |s| - i
  {
    if i == |s| || Break(s, i) > 0 then i else Search(s, i + 1)
  }

  datatype Parts = Parts(blocks: seq<string>, rest: string)

  /** What follows the leftmost break. */
  function Tail(s: string): (t: string)
    ensures Search(s, 0) < |s| ==> |t| < |s|
  {
    var k := Search(s, 0);
    s[k + Break(s, k)..]
  }

  /** The whole text cut at its breaks. */
  function Split(s: string): Parts
    decreases |s|
  {
    if Search(s, 0) == |s| then Parts([], s)
    else
      var tail := Split(Tail(s));
      Parts([s[..Search(s, 0)]] + tail.blocks, tail.rest)
  }

  // ---------------------------------------------------------------------
  // What splitting means
  // ---------------------------------------------------------------------

  const BREAKS: set<string> := {"\n\n", "\r\n\n", "\n\r\n", "\r\n\r\n"}

  function FirstCut(s: string): string {
    var k := Search(s, 0);
    s[k..k + Break(s, k)]
  }

  /** The breaks at which the text is cut. */
  function Cuts(s: string): seq<string>
    decreases |s|
  {
    if Search(s, 0) == |s| then [] else [FirstCut(s)] + Cuts(Tail(s))
  }

  function Joined(blocks: seq<string>, cuts: seq<string>, rest: string): string
    requires |blocks| == |cuts|
  {
    if blocks == [] then rest else blocks[0] + cuts[0] + Joined(blocks[1..], cuts[1..], rest)
  }

  ghost predicate Unbroken(s: string) {
    forall i :: 0 <= i < |s| ==> Break(s, i) == 0
  }

  lemma BreakIsOneOfFour(s: string, k: nat)
    requires k < |s| && Break(s, k) > 0
    ensures s[k..k + Break(s, k)] in BREAKS
  {
    var n := Break(s, k);
    var b := s[k..k + n];
    if LineEnd(s, k) == 1 {
      assert b == if n == 2 then "\n\n" else "\n\r\n";
    } else {
      assert b == if n == 3 then "\r\n\n" else "\r\n\r\n";
    }
  }

  /** What lies before the leftmost break has none of its own. */
  lemma BeforeBreakIsUnbroken(s: string, k: nat)
    requires k <= |s| && forall j :: 0 <= j < k ==> Break(s, j) == 0
    ensures Unbroken(s[..k])
  {
    forall j | 0 <= j < k
      ensures Break(s[..k], j) == 0
    {
      if Break(s[..k], j) > 0 {
        BreakOfPrefix(s, k, j);
      }
    }
  }

  lemma BreakOfPrefix(s: string, k: nat, j: nat)
    requires j <= k <= |s|
    ensures Break(s[..k], j) > 0 ==> Break(s, j) == Break(s[..k], j)
    ensures Break(s, j) > 0 && j + Break(s, j) <= k ==> Break(s[..k], j) == Break(s, j)
  {
  }

  lemma SplitUnfolds(s: string)
    requires Search(s, 0) < |s|
    ensures Split(s) == Parts([s[..Search(s, 0)]] + Split(Tail(s)).blocks, Split(Tail(s)).rest)
    ensures Cuts(s) == [FirstCut(s)] + Cuts(Tail(s))
  {
    hide Search, Tail, FirstCut;
  }

  lemma SplitStep(s: string)
    requires Search(s, 0) < |s|
    ensures var k := Search(s, 0);
      var tail := Split(s[k + Break(s, k)..]);
      Split(s) == Parts([s[..k]] + tail.blocks, tail.rest)
  {
    hide Break, Search, Split;
    SplitUnfolds(s);
  }

  lemma {:induction false} SplitRebuilds(s: string)
    ensures |Split(s).blocks| == |Cuts(s)| && Joined(Split(s).blocks, Cuts(s), Split(s).rest) == s
    decreases |s|
  {
    hide Break, Search, Split, Cuts;
    var k := Search(s, 0);
    if k < |s| {
      SplitUnfolds(s);
      SplitRebuilds(Tail(s));
      assert s == s[..k] + FirstCut(s) + Tail(s);
      assert Split(s).blocks[1..] == Split(Tail(s)).blocks && Cuts(s)[1..] == Cuts(Tail(s));
    } else {
      NothingToSplit(s);
    }
  }

  lemma {:induction false} PiecesAreUnbroken(s: string)
    ensures forall i :: 0 <= i < |Cuts(s)| ==> Cuts(s)[i] in BREAKS
    ensures forall i :: 0 <= i < |Split(s).blocks| ==> Unbroken(Split(s).blocks[i])
    ensures Unbroken(Split(s).rest)
    decreases |s|
  {
    hide Break, Search, Unbroken, Split, Cuts;
    var k := Search(s, 0);
    BeforeBreakIsUnbroken(s, k);
    if k < |s| {
      SplitUnfolds(s);
      PiecesAreUnbroken(Tail(s));
      BreakIsOneOfFour(s, k);
    } else {
      NothingToSplit(s);
      assert s[..k] == s;
    }
  }

  lemma NothingToSplit(s: string)
    requires Search(s, 0) == |s|
    ensures Split(s) == Parts([], s) && Cuts(s) == []
  {
  }

  /**
   * The blocks, the breaks between them and the leftover make up the text again; every cut is a
   * blank line, and no block and no leftover holds one.
   */
  lemma SplitIsExact(s: string)
    ensures |Split(s).blocks| == |Cuts(s)| && Joined(Split(s).blocks, Cuts(s), Split(s).rest) == s
    ensures forall i :: 0 <= i < |Cuts(s)| ==> Cuts(s)[i] in BREAKS && Unbroken(Split(s).blocks[i])
    ensures Unbroken(Split(s).rest)
  {
    hide Split, Cuts, Joined, Unbroken;
    SplitRebuilds(s);
    PiecesAreUnbroken(s);
  }

  // ---------------------------------------------------------------------
  // Chunks
  // ---------------------------------------------------------------------

  /** Of two breaks the one that starts first does not end last. */
  lemma BreaksEndInOrder(s: string, j: nat, k: nat)
    requires j < k && Break(s, j) > 0 && Break(s, k) > 0
    ensures j + Break(s, j) <= k + Break(s, k)
  {
  }

  /** More text does not move the leftmost break. */
  lemma SearchOfPrefix(s: string, t: string)
    requires Search(s, 0) < |s|
    ensures Search(s + t, 0) == Search(s, 0) && Break(s + t, Search(s, 0)) == Break(s, Search(s, 0))
  {
    hide Break;
    var all, k, m := s + t, Search(s, 0), Search(s + t, 0);
    assert all[..|s|] == s;
    BreakOfPrefix(all, |s|, k);
    if m < k {
      BreaksEndInOrder(all, m, k);
      BreakOfPrefix(all, |s|, m);
    }
  }

  /** The same cut comes first with or without more text. */
  lemma SplitOfLonger(s: string, t: string)
    requires Search(s, 0) < |s|
    ensures var k := Search(s, 0);
      var tail := Split(s[k + Break(s, k)..] + t);
      Split(s + t) == Parts([s[..k]] + tail.blocks, tail.rest)
  {
    hide Break, Search, Split;
    var k := Search(s, 0);
    var n := Break(s, k);
    SearchOfPrefix(s, t);
    SplitStep(s + t);
    assert (s + t)[k + n..] == s[k + n..] + t && (s + t)[..k] == s[..k];
  }

  lemma {:induction false} SplitOfAppend(s: string, t: string)
    ensures var first := Split(s);
      var second := Split(first.rest + t);
      Split(s + t) == Parts(first.blocks + second.blocks, second.rest)
    decreases |s|
  {
    hide Break, Search, Split;
    var k := Search(s, 0);
    if k < |s| {
      var tail := s[k + Break(s, k)..];
      SplitStep(s);
      SplitOfLonger(s, t);
      SplitOfAppend(tail, t);
      var a, b := Split(tail).blocks, Split(Split(tail).rest + t).blocks;
      assert [s[..k]] + (a + b) == [s[..k]] + a + b;
    } else {
      NothingToSplit(s);
      assert [] + Split(s + t).blocks == Split(s + t).blocks;
    }
  }

  function Text(pieces: seq<string>): string {
    if pieces == [] then "" else pieces[0] + Text(pieces[1..])
  }

  /** The loop: each piece is appended to the buffer, whose blocks are then handed on. */
  function Fed(buffer: string, pieces: seq<string>): Parts
    decreases |pieces|
  {
    if pieces == [] then Parts([], buffer)
    else
      var now := Split(buffer + pieces[0]);
      var later := Fed(now.rest, pieces[1..]);
      Parts(now.blocks + later.blocks, later.rest)
  }

  lemma UnbrokenIsRest(s: string)
    requires Unbroken(s)
    ensures Split(s) == Parts([], s)
  {
    hide Break, Split;
    assert Search(s, 0) == |s|;
    NothingToSplit(s);
  }

  lemma {:induction false} FedIsSplit(buffer: string, pieces: seq<string>)
    requires Unbroken(buffer)
    ensures Fed(buffer, pieces) == Split(buffer + Text(pieces))
    decreases |pieces|
  {
    hide Split, Search, Break;
    if pieces == [] {
      assert buffer + "" == buffer;
      UnbrokenIsRest(buffer);
    } else {
      var now := Split(buffer + pieces[0]);
      SplitIsExact(buffer + pieces[0]);
      FedIsSplit(now.rest, pieces[1..]);
      SplitOfAppend(buffer + pieces[0], Text(pieces[1..]));
      assert buffer + Text(pieces) == buffer + pieces[0] + Text(pieces[1..]);
    }
  }

  /** However a text is divided into pieces, the loop yields the blocks and the leftover of the whole. */
  lemma ChunkingDoesNotMatter(pieces: seq<string>)
    ensures Fed("", pieces) == Split(Text(pieces))
  {
    FedIsSplit("", pieces);
    assert "" + Text(pieces) == Text(pieces);
  }

  // ---------------------------------------------------------------------
  // The object
  // ---------------------------------------------------------------------

  class Reader {
    var buffer: string

    constructor ()
      ensures buffer == ""
    {
      buffer := "";
    }

    method FindBreak(s: string) returns (k: nat)
      ensures k == Search(s, 0)
    {
      k := 0;
      while k < |s| && Break(s, k) == 0
        invariant k <= |s| && Search(s, 0) == Search(s, k)
      {
        k := k + 1;
      }
    }

    /** One piece of the stream; returns the complete event blocks, in order. */
    method Feed(piece: string) returns (blocks: seq<string>)
      modifies this
      ensures Parts(blocks, buffer) == Split(old(buffer) + piece)
    {
      hide Break, Search, Split;
      buffer := buffer + piece;
      ghost var all := Split(buffer);
      assert [] + all.blocks == all.blocks;
      blocks := [];
      var k := FindBreak(buffer);
      while k < |buffer|
        invariant k == Search(buffer, 0)
        invariant blocks + Split(buffer).blocks == all.blocks && Split(buffer).rest == all.rest
        decreases |buffer|
      {
        SplitStep(buffer);
        AppendOne(blocks, buffer[..k], Split(buffer[k + Break(buffer, k)..]).blocks);
        blocks := blocks + [buffer[..k]];
        buffer := buffer[k + Break(buffer, k)..];
        k := FindBreak(buffer);
      }
      NothingToSplit(buffer);
      assert blocks + [] == blocks;
    }
  }
}
