/** Lists of leaf positions as proofs are asked for: sorting, splitting, and the leaf indices behind them. */
module LeafLists {
  import opened Powers
  import opened Positions
  import opened Proofs

  predicate IsLeafPosition(p: nat, n: nat) {
    p < MmrSize(n) && PosHeight(p) == 0
  }

  predicate AllLeaves(ps: seq<nat>, n: nat) {
    ps == [] || (IsLeafPosition(ps[0], n) && AllLeaves(ps[1..], n))
  }

  predicate AllLeafHeight(ps: seq<nat>) {
    ps == [] || (PosHeight(ps[0]) == 0 && AllLeafHeight(ps[1..]))
  }

  predicate AllBelow(ps: seq<nat>, bound: nat) {
    ps == [] || (ps[0] < bound && AllBelow(ps[1..], bound))
  }

  lemma {:induction false} LeavesAreBoth(ps: seq<nat>, n: nat)
    ensures AllLeaves(ps, n) <==> AllLeafHeight(ps) && AllBelow(ps, MmrSize(n))
  {
    hide MmrSize, PosHeight;
    if ps != [] {
      LeavesAreBoth(ps[1..], n);
    }
  }

  // ----- sorting -----

  function Insert(x: nat, s: seq<nat>): seq<nat> {
    if s == [] || x < s[0] then [x] + s
    else if x == s[0] then s
    else [s[0]] + Insert(x, s[1..])
  }

  /** Sorting and dropping duplicates. */
  function SortedUnique(s: seq<nat>): seq<nat> {
    if s == [] then [] else Insert(s[0], SortedUnique(s[1..]))
  }

  lemma {:induction false} InsertSorted(x: nat, s: seq<nat>)
    requires Sorted(s)
    ensures Sorted(Insert(x, s)) && Insert(x, s) != []
    ensures Insert(x, s)[0] == x || (s != [] && Insert(x, s)[0] == s[0] < x)
  {
    if s == [] || x < s[0] {
      assert ([x] + s)[1..] == s;
    } else if x > s[0] {
      InsertSorted(x, s[1..]);
      var t := Insert(x, s[1..]);
      assert ([s[0]] + t)[1..] == t;
    }
  }

  lemma {:induction false} SortedUniqueSorted(s: seq<nat>)
    ensures Sorted(SortedUnique(s))
    ensures s != [] ==> SortedUnique(s) != []
  {
    if s != [] {
      SortedUniqueSorted(s[1..]);
      InsertSorted(s[0], SortedUnique(s[1..]));
    }
  }

  lemma {:induction false} InsertMembers(x: nat, s: seq<nat>, y: nat)
    ensures y in Insert(x, s) <==> y == x || y in s
  {
    if s != [] && x > s[0] {
      InsertMembers(x, s[1..], y);
      assert s == [s[0]] + s[1..];
    }
  }

  lemma {:induction false} SortedUniqueMembers(s: seq<nat>, y: nat)
    ensures y in SortedUnique(s) <==> y in s
  {
    if s != [] {
      SortedUniqueMembers(s[1..], y);
      InsertMembers(s[0], SortedUnique(s[1..]), y);
      assert s == [s[0]] + s[1..];
    }
  }

  ghost predicate SameMembers(s: seq<nat>, t: seq<nat>) {
    forall y :: y in s <==> y in t
  }

  lemma {:induction false} SortedUniqueSame(s: seq<nat>)
    ensures SameMembers(SortedUnique(s), s)
  {
    hide SortedUnique;
    forall y
      ensures y in SortedUnique(s) <==> y in s
    {
      SortedUniqueMembers(s, y);
    }
  }

  lemma {:induction false} InsertLeaves(x: nat, s: seq<nat>, n: nat)
    ensures AllLeaves(Insert(x, s), n) <==> IsLeafPosition(x, n) && AllLeaves(s, n)
    ensures AllLeafHeight(Insert(x, s)) <==> PosHeight(x) == 0 && AllLeafHeight(s)
  {
    hide IsLeafPosition, PosHeight;
    if s == [] || x < s[0] {
      assert ([x] + s)[1..] == s;
    } else if x > s[0] {
      InsertLeaves(x, s[1..], n);
      var t := Insert(x, s[1..]);
      assert ([s[0]] + t)[1..] == t;
    }
  }

  lemma {:induction false} SortedUniqueLeaves(s: seq<nat>, n: nat)
    ensures AllLeaves(SortedUnique(s), n) <==> AllLeaves(s, n)
    ensures AllLeafHeight(SortedUnique(s)) <==> AllLeafHeight(s)
  {
    hide IsLeafPosition, PosHeight;
    if s != [] {
      SortedUniqueLeaves(s[1..], n);
      InsertLeaves(s[0], SortedUnique(s[1..]), n);
    }
  }

  // ----- splitting -----

  /** Splits off the leading positions up to `peakPos`. */
  method TakeWhile(v: seq<nat>, peakPos: nat) returns (taken: seq<nat>, rest: seq<nat>)
    ensures taken == TakeBelow(v, peakPos + 1) && rest == DropBelow(v, peakPos + 1)
  {
    var b := peakPos + 1;
    assert v[..0] + TakeBelow(v[0..], b) == TakeBelow(v, b) by { assert v[0..] == v; }
    for i := 0 to |v|
      invariant TakeBelow(v, b) == v[..i] + TakeBelow(v[i..], b)
      invariant DropBelow(v, b) == DropBelow(v[i..], b)
    {
      if v[i] > peakPos {
        assert v[..i] + [] == v[..i];
        return v[..i], v[i..];
      }
      assert v[i..][1..] == v[i + 1..];
      assert v[..i] + [v[i]] == v[..i + 1];
      assert v[..i] + ([v[i]] + TakeBelow(v[i + 1..], b)) == v[..i + 1] + TakeBelow(v[i + 1..], b);
    }
    assert v[..|v|] == v && v[|v|..] == [];
    assert v + [] == v;
    return v, [];
  }

  // ----- leaf indices -----

  /** The positions of the leaves `js`. */
  function LeafPositionsOf(js: seq<nat>): (r: seq<nat>)
    ensures |r| == |js|
  {
    if js == [] then [] else [Pos(0, js[0])] + LeafPositionsOf(js[1..])
  }

  /** The leaf indices of leaf positions: the peak map of a leaf's position is its index. */
  function LeafIndicesOf(ps: seq<nat>): (r: seq<nat>)
    ensures |r| == |ps|
  {
    if ps == [] then [] else [PeakMap(ps[0])] + LeafIndicesOf(ps[1..])
  }

  lemma {:induction false} LeafIndexOf(p: nat)
    requires PosHeight(p) == 0
    ensures Pos(0, PeakMap(p)) == p
  {
    SizeMonotone(0, p + 1);
    LeafPositions(p + 1, p);
    var l: nat :| l < p + 1 && MmrSize(l) == p;
    PeakMapIsLeafCount(l);
  }

  lemma {:induction false} LeafOrder(i: nat, j: nat)
    ensures i < j <==> Pos(0, i) < Pos(0, j)
  {
    hide Pos;
    if i < j {
      PosIncreasing(0, i, j);
    } else if j < i {
      PosIncreasing(0, j, i);
    }
  }

  lemma {:induction false} LeafIndicesRoundTrip(ps: seq<nat>)
    requires AllLeafHeight(ps)
    ensures LeafPositionsOf(LeafIndicesOf(ps)) == ps
    ensures Sorted(ps) ==> Sorted(LeafIndicesOf(ps))
  {
    hide Pos, PeakMap, PosHeight;
    if ps != [] {
      LeafIndexOf(ps[0]);
      LeafIndicesRoundTrip(ps[1..]);
      var t := LeafIndicesOf(ps[1..]);
      assert ([PeakMap(ps[0])] + t)[1..] == t;
      if |ps| > 1 {
        LeafIndexOf(ps[1]);
        assert t[0] == PeakMap(ps[1]);
        LeafOrder(PeakMap(ps[0]), PeakMap(ps[1]));
      }
    }
  }

  lemma {:induction false} LeafIndicesWithin(ps: seq<nat>, n: nat)
    requires AllLeafHeight(ps)
    ensures AllBelow(ps, MmrSize(n)) <==> Within(LeafIndicesOf(ps), 0, n)
  {
    hide Pos, PeakMap, PosHeight, MmrSize;
    if ps != [] {
      LeafIndexOf(ps[0]);
      LeafBelowSize(PeakMap(ps[0]), n);
      LeafIndicesWithin(ps[1..], n);
      var t := LeafIndicesOf(ps[1..]);
      assert ([PeakMap(ps[0])] + t)[1..] == t;
    }
  }

  lemma {:induction false} LeafBelowSize(j: nat, n: nat)
    ensures j < n <==> Pos(0, j) < MmrSize(n)
  {
    PosBelowSize(0, j, n);
  }

  /** A leaf lies in or before a mountain exactly when its position is at most the peak's. */
  lemma {:induction false} LeafWithinPeak(j: nat, nd: Node)
    ensures j < End(nd) <==> Pos(0, j) < PosOf(nd) + 1
  {
    TrailingZerosOfShl(nd.index + 1, nd.height);
    var e := End(nd);
    SizeStep(e - 1);
    assert PosOf(nd) == MmrSize(e - 1) + nd.height;
    assert Pos(0, j) == MmrSize(j);
    hide Pos, MmrSize, Shl, TrailingZeros;
    if j < e {
      SizeMonotone(j, e - 1);
    } else {
      SizeMonotone(e, j);
    }
  }

  /** Splitting positions at a peak is splitting indices at the end of its mountain. */
  lemma {:induction false} SplitAtPeak(js: seq<nat>, nd: Node)
    ensures TakeBelow(LeafPositionsOf(js), PosOf(nd) + 1) == LeafPositionsOf(TakeBelow(js, End(nd)))
    ensures DropBelow(LeafPositionsOf(js), PosOf(nd) + 1) == LeafPositionsOf(DropBelow(js, End(nd)))
  {
    hide Pos, PosOf, End;
    if js != [] {
      LeafWithinPeak(js[0], nd);
      SplitAtPeak(js[1..], nd);
      var ps, t := LeafPositionsOf(js), TakeBelow(js[1..], End(nd));
      assert ps[0] == Pos(0, js[0]) && ps[1..] == LeafPositionsOf(js[1..]);
      assert ([js[0]] + t)[1..] == t;
    }
  }

  lemma {:induction false} SplitWithTail(js: seq<nat>, tail: seq<nat>, bound: nat)
    requires StartsFrom(tail, bound)
    ensures TakeBelow(js + tail, bound) == TakeBelow(js, bound)
    ensures DropBelow(js + tail, bound) == DropBelow(js, bound) + tail
  {
    if js == [] {
      assert js + tail == tail;
    } else {
      assert (js + tail)[1..] == js[1..] + tail;
      SplitWithTail(js[1..], tail, bound);
    }
  }

  /** The positions at and behind a peak, when some lie beyond the range. */
  lemma {:induction false} SplitPositions(todo: seq<nat>, beyond: seq<nat>, nd: Node, n: nat)
    requires Complete(nd.height, nd.index, n) && StartsFrom(beyond, n)
    ensures var ps := LeafPositionsOf(todo + beyond);
      && TakeBelow(ps, PosOf(nd) + 1) == LeafPositionsOf(TakeBelow(todo, End(nd)))
      && DropBelow(ps, PosOf(nd) + 1) == LeafPositionsOf(DropBelow(todo, End(nd)) + beyond)
  {
    SplitAtPeak(todo + beyond, nd);
    SplitWithTail(todo, beyond, End(nd));
  }

  /** Ascending leaf positions are those of leaves in the range, then those of leaves beyond it. */
  lemma {:induction false} SplitRange(ps: seq<nat>, n: nat) returns (todo: seq<nat>, beyond: seq<nat>)
    requires Sorted(ps) && AllLeafHeight(ps)
    ensures ps == LeafPositionsOf(todo + beyond)
    ensures Sorted(todo) && Within(todo, 0, n) && StartsFrom(beyond, n)
    ensures AllBelow(ps, MmrSize(n)) ==> beyond == [] && todo == LeafIndicesOf(ps)
    ensures beyond == [] ==> AllBelow(ps, MmrSize(n))
  {
    var js := LeafIndicesOf(ps);
    LeafIndicesRoundTrip(ps);
    LeafIndicesWithin(ps, n);
    var hi := WithinSome(js);
    TakeDrop(js, n, 0, hi);
    todo, beyond := TakeBelow(js, n), DropBelow(js, n);
    if Within(js, 0, n) {
      NothingDropped(js, n);
      assert todo + [] == todo;
    }
    assert beyond == [] ==> todo + beyond == todo;
  }

  lemma {:induction false} NothingDropped(js: seq<nat>, n: nat)
    requires Within(js, 0, n)
    ensures DropBelow(js, n) == []
  {
    if js != [] {
      NothingDropped(js[1..], n);
    }
  }

  lemma {:induction false} WithinSome(js: seq<nat>) returns (hi: nat)
    ensures Within(js, 0, hi)
  {
    hi := 0;
    if js != [] {
      var h := WithinSome(js[1..]);
      hi := if js[0] < h then h else js[0] + 1;
      Widen(js[1..], h, hi);
    }
  }

  lemma {:induction false} Widen(js: seq<nat>, h: nat, hi: nat)
    requires Within(js, 0, h) && h <= hi
    ensures Within(js, 0, hi)
  {
    if js != [] {
      Widen(js[1..], h, hi);
    }
  }
}
