/**
 * Where a Merkle mountain range keeps its nodes. The node of height `k` and index `j` covers the
 * leaves `j * 2^k .. (j + 1) * 2^k` and is written, with the leaf that completes it, at `Pos(k, j)`.
 * The helper functions of the mountain range library (peak map, peaks, height of a position) work
 * on positions alone; the lemmas tie each of them to these coordinates.
 */
module Positions {
  import opened Powers

  /** The number of nodes above and including `n` leaves. */
  function MmrSize(n: nat): nat {
    if n == 0 then 0 else n + MmrSize(n / 2)
  }

  /** The node of height `k` and index `j` is complete once `n` leaves are in. */
  predicate Complete(k: nat, j: nat, n: nat) {
    Shl(j + 1, k) <= n
  }

  /** The `n`-th leaf is the one that completes the node. */
  predicate CompletedAt(k: nat, j: nat, n: nat) {
    Shl(j + 1, k) == n
  }

  function Pos(k: nat, j: nat): nat {
    TrailingZerosOfShl(j + 1, k);
    MmrSize(Shl(j + 1, k) - 1) + k
  }

  // ----- the library's helpers -----

  function PeakMapFrom(pos: nat, h: nat): nat {
    if h == 0 then 0
    else if pos >= Pow2(h) - 1 then Pow2(h - 1) + PeakMapFrom(pos - (Pow2(h) - 1), h - 1)
    else PeakMapFrom(pos, h - 1)
  }

  /** `get_peak_map`: the heights of the peaks as a bit map. */
  function PeakMap(size: nat): nat {
    PeakMapFrom(size, BitLength(size))
  }

  function HeightFrom(pos: nat, h: nat): nat {
    if h == 0 then pos
    else if pos >= Pow2(h) - 1 then HeightFrom(pos - (Pow2(h) - 1), h - 1)
    else HeightFrom(pos, h - 1)
  }

  /** `pos_height_in_tree`. */
  function PosHeight(pos: nat): nat {
    HeightFrom(pos, BitLength(pos))
  }

  function PeaksFrom(pos: nat, sum: nat, h: nat): seq<nat> {
    if h == 0 then []
    else if pos >= Pow2(h) - 1 then
      [sum + Pow2(h) - 2] + PeaksFrom(pos - (Pow2(h) - 1), sum + Pow2(h) - 1, h - 1)
    else PeaksFrom(pos, sum, h - 1)
  }

  /** `get_peaks`: the positions of the peaks, left to right. */
  function Peaks(size: nat): seq<nat> {
    PeaksFrom(size, 0, BitLength(size))
  }

  function SiblingOffset(height: nat): nat {
    Pow2(height + 1) - 1
  }

  function ParentOffset(height: nat): nat {
    Pow2(height + 1)
  }

  // ----- sizes -----

  lemma {:induction false} SizeIsTwiceLeavesLessPeaks(n: nat)
    ensures MmrSize(n) == 2 * n - Popcount(n)
  {
    if n > 0 {
      SizeIsTwiceLeavesLessPeaks(n / 2);
    }
  }

  /** A leaf brings itself and one parent for every mountain it merges. */
  lemma {:induction false} SizeStep(n: nat)
    ensures MmrSize(n + 1) == MmrSize(n) + 1 + TrailingZeros(n + 1)
  {
    if n % 2 == 1 {
      SizeStep(n / 2);
      assert (n + 1) / 2 == n / 2 + 1;
    } else {
      assert (n + 1) / 2 == n / 2;
    }
  }

  lemma {:induction false} SizeMonotone(m: nat, n: nat)
    requires m <= n
    ensures MmrSize(m) + (n - m) <= MmrSize(n)
    decreases n
  {
    if m < n {
      SizeMonotone(m, n - 1);
      SizeStep(n - 1);
    }
  }

  lemma {:induction false} HalfSize(m: nat)
    ensures MmrSize(2 * m) == 2 * m + MmrSize(m)
  {
  }

  /** A mountain of `2^h` leaves has `2^(h+1) - 1` nodes, wherever it stands. */
  lemma {:induction false} SizeOfMountain(q: nat, h: nat)
    ensures MmrSize(Shl(q + 1, h)) == MmrSize(Shl(q, h)) + 2 * Pow2(h) - 1 + TrailingZeros(q + 1)
  {
    if h == 0 {
      SizeStep(q);
    } else {
      SizeOfMountain(q, h - 1);
      ShlNext(q, h - 1);
      HalfSize(Shl(q, h - 1));
      HalfSize(Shl(q + 1, h - 1));
    }
  }

  lemma {:induction false} MountainSize(h: nat)
    ensures MmrSize(Pow2(h)) == Pow2(h + 1) - 1
  {
    SizeOfMountain(0, h);
    ShlNext(0, h);
    ShlZero(h);
  }

  /** Leaves behind a mountain add the nodes of their own range. */
  lemma {:induction false} SizeSplit(h: nat, m: nat)
    requires m < Pow2(h)
    ensures MmrSize(Pow2(h) + m) == MmrSize(Pow2(h)) + MmrSize(m)
  {
    if h > 0 {
      SizeSplit(h - 1, m / 2);
      HalfSize(Pow2(h - 1));
      assert (Pow2(h) + m) / 2 == Pow2(h - 1) + m / 2;
    }
  }

  // ----- positions -----

  lemma {:induction false} ParentPos(k: nat, j: nat)
    ensures Pos(k + 1, j) == Pos(k, 2 * j + 1) + 1
  {
    ShlDouble(j + 1, k);
  }

  /** A node is the last of its own mountain. */
  lemma {:induction false} PosSpan(k: nat, j: nat)
    ensures Pos(k, j) == MmrSize(Shl(j, k)) + 2 * Pow2(k) - 2
  {
    TrailingZerosOfShl(j + 1, k);
    SizeStep(Shl(j + 1, k) - 1);
    SizeOfMountain(j, k);
  }

  lemma {:induction false} SiblingPos(k: nat, i: nat)
    ensures Pos(k, 2 * i + 1) == Pos(k, 2 * i) + SiblingOffset(k)
    ensures Pos(k + 1, i) == Pos(k, 2 * i) + ParentOffset(k)
  {
    OddBlock(k, i);
    PosSpan(k, 2 * i);
    PosSpan(k, 2 * i + 1);
    ParentPos(k, i);
  }

  lemma {:induction false} OddBlock(k: nat, i: nat)
    ensures MmrSize(Shl(2 * i + 1, k)) == MmrSize(Shl(2 * i, k)) + 2 * Pow2(k) - 1
  {
    assert TrailingZeros(2 * i + 1) == 0;
    SizeOfMountain(2 * i, k);
  }

  /** With the top bit of the leaf count set, a descent step takes one mountain off. */
  lemma {:induction false} SizeWithTopBit(i: nat, h: nat)
    requires h > 0 && Pow2(h - 1) <= i < Pow2(h)
    ensures MmrSize(i) == MmrSize(i - Pow2(h - 1)) + Pow2(h) - 1
    ensures i + 1 < Pow2(h) ==> TrailingZeros(i - Pow2(h - 1) + 1) == TrailingZeros(i + 1)
  {
    hide MmrSize, TrailingZeros, Popcount;
    MountainSize(h - 1);
    SizeSplit(h - 1, i - Pow2(h - 1));
    if i + 1 < Pow2(h) {
      TrailingZerosAbove(i - Pow2(h - 1) + 1, h - 1);
    }
  }

  /** With it clear, even the nodes the next leaf adds stay below the mountain's size. */
  lemma {:induction false} SizeWithoutTopBit(i: nat, h: nat)
    requires h > 0 && i < Pow2(h - 1)
    ensures MmrSize(i) + TrailingZeros(i + 1) < Pow2(h) - 1
  {
    MountainSize(h - 1);
    SizeStep(i);
    SizeMonotone(i + 1, Pow2(h - 1));
  }

  /** The greedy descent over mountain sizes reads off the leaf count and the height. */
  lemma {:induction false} GreedyDescent(i: nat, k: nat, h: nat)
    requires i < Pow2(h)
    requires k <= TrailingZeros(i + 1) || i + 1 == Pow2(h)
    ensures PeakMapFrom(MmrSize(i) + k, h) == i
    ensures HeightFrom(MmrSize(i) + k, h) == k
    decreases h
  {
    assert MmrSize(0) == 0;
    hide MmrSize, TrailingZeros;
    if h > 0 {
      if i >= Pow2(h - 1) {
        SizeWithTopBit(i, h);
        GreedyDescent(i - Pow2(h - 1), k, h - 1);
      } else {
        SizeWithoutTopBit(i, h);
        GreedyDescent(i, k, h - 1);
      }
    }
  }

  lemma {:induction false} LeafCountFitsDescent(n: nat, pos: nat)
    requires MmrSize(n) <= pos
    ensures n < Pow2(BitLength(pos))
  {
    SizeMonotone(0, n);
    BelowBitLength(pos);
  }

  /** The `k`-th node written with leaf `i` has height `k`. */
  lemma {:induction false} HeightOfAdded(i: nat, k: nat)
    requires k <= TrailingZeros(i + 1)
    ensures PosHeight(MmrSize(i) + k) == k
    ensures PeakMap(MmrSize(i) + k) == i
  {
    LeafCountFitsDescent(i, MmrSize(i) + k);
    GreedyDescent(i, k, BitLength(MmrSize(i) + k));
  }

  /** The peak map of a range of `n` leaves is `n` itself. */
  lemma {:induction false} PeakMapIsLeafCount(n: nat)
    ensures PeakMap(MmrSize(n)) == n
  {
    HeightOfAdded(n, 0);
  }

  lemma {:induction false} HeightOfPos(k: nat, j: nat)
    ensures PosHeight(Pos(k, j)) == k
  {
    TrailingZerosOfShl(j + 1, k);
    HeightOfAdded(Shl(j + 1, k) - 1, k);
  }

  /** The test for a right sibling: the next position is higher up exactly when `j` is odd. */
  lemma {:induction false} HeightAfterPos(k: nat, j: nat)
    ensures PosHeight(Pos(k, j) + 1) > k <==> j % 2 == 1
  {
    hide MmrSize, Shl, HeightFrom, PosHeight, BitLength, Pow2;
    TrailingZerosOfShl(j + 1, k);
    var i: nat := Shl(j + 1, k) - 1;
    if j % 2 == 1 {
      assert Pos(k, j) + 1 == MmrSize(i) + (k + 1);
      HeightOfAdded(i, k + 1);
    } else {
      SizeStep(i);
      assert Pos(k, j) + 1 == MmrSize(i + 1) + 0;
      HeightOfAdded(i + 1, 0);
    }
  }

  lemma {:induction false} PosInjective(k: nat, j: nat, k': nat, j': nat)
    requires Pos(k, j) == Pos(k', j')
    ensures k == k' && j == j'
  {
    HeightOfPos(k, j);
    HeightOfPos(k', j');
    if j < j' {
      PosIncreasing(k, j, j');
    } else if j' < j {
      PosIncreasing(k, j', j);
    }
  }

  lemma {:induction false} PosIncreasing(k: nat, j: nat, j': nat)
    requires j < j'
    ensures Pos(k, j) < Pos(k, j')
  {
    TrailingZerosOfShl(j + 1, k);
    ShlMonotone(j + 1, j' + 1, k);
    SizeMonotone(Shl(j + 1, k) - 1, Shl(j' + 1, k) - 1);
  }

  /** A complete node lies below the size, an incomplete one at or above it. */
  lemma {:induction false} PosBelowSize(k: nat, j: nat, n: nat)
    ensures Complete(k, j, n) <==> Pos(k, j) < MmrSize(n)
  {
    hide MmrSize, Shl, TrailingZeros;
    TrailingZerosOfShl(j + 1, k);
    var i := Shl(j + 1, k) - 1;
    SizeStep(i);
    if i < n {
      SizeMonotone(i + 1, n);
    } else {
      SizeMonotone(n, i);
    }
  }

  /** Every position below the size holds some complete node. */
  lemma {:induction false} PosSurjective(n: nat, p: nat) returns (k: nat, j: nat)
    requires p < MmrSize(n)
    ensures Complete(k, j, n) && Pos(k, j) == p
  {
    assert MmrSize(0) == 0;
    hide MmrSize, Shl, TrailingZeros, Pow2;
    SizeStep(n - 1);
    if p < MmrSize(n - 1) {
      k, j := PosSurjective(n - 1, p);
    } else {
      k := p - MmrSize(n - 1);
      var c := Unshift(n, k);
      j := c - 1;
    }
  }

  /** Leaf positions are exactly the positions of height 0. */
  lemma {:induction false} LeafPositions(n: nat, p: nat)
    ensures p < MmrSize(n) && PosHeight(p) == 0 <==> exists i: nat :: i < n && MmrSize(i) == p
  {
    hide MmrSize, HeightFrom, BitLength, Pow2, PosHeight;
    if p < MmrSize(n) && PosHeight(p) == 0 {
      var k, j := PosSurjective(n, p);
      HeightOfPos(k, j);
      assert j < n && MmrSize(j) == p;
    }
    forall i: nat | i < n && MmrSize(i) == p
      ensures p < MmrSize(n) && PosHeight(p) == 0
    {
      HeightOfAdded(i, 0);
      SizeMonotone(i, n);
    }
  }

  // ----- peaks -----

  datatype Node = Node(height: nat, index: nat)

  /** The mountains over `m` leaves that start at block `q` of `2^h` leaves, left to right. */
  function PeakNodesFrom(q: nat, m: nat, h: nat): seq<Node>
    requires m < Pow2(h)
    decreases h
  {
    if h == 0 then []
    else if m >= Pow2(h - 1) then
      [Node(h - 1, 2 * q)] + PeakNodesFrom(2 * q + 1, m - Pow2(h - 1), h - 1)
    else PeakNodesFrom(2 * q, m, h - 1)
  }

  function PeakNodes(n: nat): seq<Node> {
    BelowBitLength(n);
    PeakNodesFrom(0, n, BitLength(n))
  }

  function PosOf(nd: Node): nat {
    Pos(nd.height, nd.index)
  }

  predicate AllComplete(nodes: seq<Node>, n: nat) {
    nodes == [] || (Complete(nodes[0].height, nodes[0].index, n) && AllComplete(nodes[1..], n))
  }

  function Positions(nodes: seq<Node>): (r: seq<nat>)
    ensures |r| == |nodes|
  {
    if nodes == [] then [] else [PosOf(nodes[0])] + Positions(nodes[1..])
  }

  lemma {:induction false} PeaksFromAreNodes(q: nat, m: nat, h: nat)
    requires m < Pow2(h)
    ensures PeaksFrom(MmrSize(m), MmrSize(Shl(q, h)), h) == Positions(PeakNodesFrom(q, m, h))
    decreases h
  {
    hide MmrSize, Shl;
    if h > 0 {
      assert Shl(2 * q, h - 1) == Shl(q, h) by { ShlDouble(q, h - 1); }
      if m >= Pow2(h - 1) {
        var m' := m - Pow2(h - 1);
        PeaksFromAreNodes(2 * q + 1, m', h - 1);
        LeftBlock(q, m, h);
        LeftmostPeak(MmrSize(m), MmrSize(Shl(q, h)), h, 2 * q, PeakNodesFrom(2 * q + 1, m', h - 1));
      } else {
        assert MmrSize(m) < Pow2(h) - 1 by { SizeWithoutTopBit(m, h); }
        PeaksFromAreNodes(2 * q, m, h - 1);
      }
    }
  }

  lemma {:induction false} LeftBlock(q: nat, m: nat, h: nat)
    requires h > 0 && Pow2(h - 1) <= m < Pow2(h)
    ensures MmrSize(m) == MmrSize(m - Pow2(h - 1)) + Pow2(h) - 1
    ensures MmrSize(Shl(2 * q + 1, h - 1)) == MmrSize(Shl(q, h)) + Pow2(h) - 1
    ensures Pos(h - 1, 2 * q) == MmrSize(Shl(q, h)) + Pow2(h) - 2
  {
    ShlDouble(q, h - 1);
    SizeWithTopBit(m, h);
    OddBlock(h - 1, q);
    PosSpan(h - 1, 2 * q);
  }

  lemma {:induction false} LeftmostPeak(size: nat, start: nat, h: nat, q: nat, rest: seq<Node>)
    requires h > 0 && size >= Pow2(h) - 1
    requires Pos(h - 1, q) == start + Pow2(h) - 2
    requires PeaksFrom(size - (Pow2(h) - 1), start + Pow2(h) - 1, h - 1) == Positions(rest)
    ensures PeaksFrom(size, start, h) == Positions([Node(h - 1, q)] + rest)
  {
  }

  /** Starting the descent higher than needed changes nothing. */
  lemma {:induction false} PeakNodesHeadroom(n: nat, h: nat, h': nat)
    requires n < Pow2(h) && h <= h'
    ensures n < Pow2(h')
    ensures PeakNodesFrom(0, n, h') == PeakNodesFrom(0, n, h)
    decreases h'
  {
    Pow2Monotone(h, h');
    if h < h' {
      Pow2Monotone(h, h' - 1);
      PeakNodesHeadroom(n, h, h' - 1);
    }
  }

  /** `get_peaks` lists the positions of the mountains. */
  lemma {:induction false} PeaksAreNodes(n: nat)
    ensures Peaks(MmrSize(n)) == Positions(PeakNodes(n))
  {
    var h := BitLength(MmrSize(n));
    LeafCountFitsDescent(n, MmrSize(n));
    SizeMonotone(0, n);
    BelowBitLength(n);
    BitLengthMonotone(n, MmrSize(n));
    PeakNodesHeadroom(n, BitLength(n), h);
    ShlZero(h);
    PeaksFromAreNodes(0, n, h);
  }

  /** The mountains stand side by side, from leaf `from` up to leaf `to`. */
  ghost predicate Contiguous(from: nat, nodes: seq<Node>, to: nat)
    decreases |nodes|
  {
    if nodes == [] then from == to
    else
      && Shl(nodes[0].index, nodes[0].height) == from
      && Contiguous(Shl(nodes[0].index + 1, nodes[0].height), nodes[1..], to)
  }

  lemma {:induction false} PeakNodesContiguous(q: nat, m: nat, h: nat)
    requires m < Pow2(h)
    ensures Contiguous(Shl(q, h), PeakNodesFrom(q, m, h), Shl(q, h) + m)
    decreases h
  {
    if h > 0 {
      ShlDouble(q, h - 1);
      if m >= Pow2(h - 1) {
        ShlNext(2 * q, h - 1);
        PeakNodesContiguous(2 * q + 1, m - Pow2(h - 1), h - 1);
      } else {
        PeakNodesContiguous(2 * q, m, h - 1);
      }
    }
  }

  lemma {:induction false} ContiguousEnds(from: nat, nodes: seq<Node>, to: nat)
    requires Contiguous(from, nodes, to)
    ensures from <= to
    ensures AllComplete(nodes, to)
    decreases |nodes|
  {
    if nodes != [] {
      ShlNext(nodes[0].index, nodes[0].height);
      ContiguousEnds(Shl(nodes[0].index + 1, nodes[0].height), nodes[1..], to);
    }
  }

  lemma {:induction false} PeaksComplete(n: nat)
    ensures Contiguous(0, PeakNodes(n), n)
    ensures AllComplete(PeakNodes(n), n)
    ensures n > 0 ==> PeakNodes(n) != []
  {
    hide MmrSize, Shl, Pow2;
    BelowBitLength(n);
    ShlZero(BitLength(n));
    PeakNodesContiguous(0, n, BitLength(n));
    ContiguousEnds(0, PeakNodes(n), n);
  }
}
