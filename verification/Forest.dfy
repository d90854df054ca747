/**
 * The meaning of a Merkle mountain range: the hashes its nodes must carry, its root, and what it
 * is for a position-indexed store to represent a sequence of leaves.
 */
module Forest {
  import opened Powers
  import opened Positions

  type Store<T> = map<int, T>

  lemma {:induction false} ChildrenComplete(k: nat, j: nat, n: nat)
    requires k > 0 && Complete(k, j, n)
    ensures Complete(k - 1, 2 * j, n) && Complete(k - 1, 2 * j + 1, n)
  {
    ShlDouble(j + 1, k - 1);
    ShlMonotone(2 * j + 1, 2 * j + 2, k - 1);
  }

  /** The hash of the node of height `k` and index `j`. */
  function Hash<T>(merge: (T, T) -> T, leaves: seq<T>, k: nat, j: nat): T
    requires Complete(k, j, |leaves|)
  {
    if k == 0 then leaves[j]
    else
      ChildrenComplete(k, j, |leaves|);
      merge(Hash(merge, leaves, k - 1, 2 * j), Hash(merge, leaves, k - 1, 2 * j + 1))
  }

  function NodeHash<T>(merge: (T, T) -> T, leaves: seq<T>, nd: Node): T
    requires Complete(nd.height, nd.index, |leaves|)
  {
    Hash(merge, leaves, nd.height, nd.index)
  }

  function NodeHashes<T>(merge: (T, T) -> T, leaves: seq<T>, nodes: seq<Node>): (r: seq<T>)
    requires AllComplete(nodes, |leaves|)
    ensures |r| == |nodes|
  {
    if nodes == [] then [] else [NodeHash(merge, leaves, nodes[0])] + NodeHashes(merge, leaves, nodes[1..])
  }

  /** The right-to-left bagging of peaks; the bag of the right ones is the first argument. */
  function Bag<T>(merge: (T, T) -> T, peaks: seq<T>): T
    requires peaks != []
  {
    if |peaks| == 1 then peaks[0] else merge(Bag(merge, peaks[1..]), peaks[0])
  }

  function Root<T>(merge: (T, T) -> T, leaves: seq<T>): T
    requires leaves != []
  {
    PeaksComplete(|leaves|);
    Bag(merge, NodeHashes(merge, leaves, PeakNodes(|leaves|)))
  }

  /** The store holds the nodes of the range over `leaves`, each at its position, and nothing else. */
  ghost predicate Represents<T>(merge: (T, T) -> T, leaves: seq<T>, store: Store<T>) {
    && (forall p :: p in store <==> 0 <= p < MmrSize(|leaves|))
    && (forall k: nat, j: nat :: Complete(k, j, |leaves|) ==>
          Pos(k, j) in store && store[Pos(k, j)] == Hash(merge, leaves, k, j))
  }

  // ----- independent reference: perfect trees and the split at the largest power of two -----

  function PerfectHash<T>(merge: (T, T) -> T, block: seq<T>, k: nat): T
    requires |block| == Pow2(k)
  {
    if k == 0 then block[0]
    else merge(PerfectHash(merge, block[..Pow2(k - 1)], k - 1), PerfectHash(merge, block[Pow2(k - 1)..], k - 1))
  }

  lemma {:induction false} BitLengthBounds(n: nat, h: nat)
    requires h > 0 && Pow2(h - 1) <= n < Pow2(h)
    ensures BitLength(n) == h
  {
    if h > 1 {
      BitLengthBounds(n / 2, h - 1);
    }
  }

  lemma {:induction false} TopBit(n: nat)
    requires n > 0
    ensures Pow2(BitLength(n) - 1) <= n < Pow2(BitLength(n))
  {
    if n > 1 {
      TopBit(n / 2);
    }
  }

  /** The root by definition: the largest perfect tree on the left, the rest in front of it. */
  function RangeRoot<T>(merge: (T, T) -> T, leaves: seq<T>): T
    requires leaves != []
  {
    TopBit(|leaves|);
    var h := BitLength(|leaves|) - 1;
    var left := PerfectHash(merge, leaves[..Pow2(h)], h);
    if |leaves| == Pow2(h) then left else merge(RangeRoot(merge, leaves[Pow2(h)..]), left)
  }

  function Slice<T>(leaves: seq<T>, k: nat, j: nat): (r: seq<T>)
    requires Complete(k, j, |leaves|)
    ensures |r| == Pow2(k)
  {
    ShlNext(j, k);
    leaves[Shl(j, k)..Shl(j + 1, k)]
  }

  lemma {:induction false} HalfBounds(k: nat, j: nat)
    requires k > 0
    ensures Shl(2 * j, k - 1) == Shl(j, k)
    ensures Shl(2 * j + 1, k - 1) == Shl(j, k) + Pow2(k - 1)
    ensures Shl(2 * j + 2, k - 1) == Shl(j + 1, k) == Shl(j, k) + Pow2(k)
  {
    ShlDouble(j, k - 1);
    ShlDouble(j + 1, k - 1);
    ShlNext(2 * j, k - 1);
    ShlNext(2 * j + 1, k - 1);
  }

  lemma {:induction false} SliceHalves<T>(leaves: seq<T>, k: nat, j: nat)
    requires k > 0 && Complete(k, j, |leaves|)
    ensures Complete(k - 1, 2 * j, |leaves|) && Complete(k - 1, 2 * j + 1, |leaves|)
    ensures Slice(leaves, k, j)[..Pow2(k - 1)] == Slice(leaves, k - 1, 2 * j)
    ensures Slice(leaves, k, j)[Pow2(k - 1)..] == Slice(leaves, k - 1, 2 * j + 1)
  {
    HalfBounds(k, j);
    assert Pow2(k) == 2 * Pow2(k - 1);
    hide Shl, Pow2;
  }

  /** A node's hash is the perfect-tree hash of its power-of-two block of leaves. */
  lemma {:induction false} HashIsPerfect<T>(merge: (T, T) -> T, leaves: seq<T>, k: nat, j: nat)
    requires Complete(k, j, |leaves|)
    ensures Hash(merge, leaves, k, j) == PerfectHash(merge, Slice(leaves, k, j), k)
  {
    if k > 0 {
      SliceHalves(leaves, k, j);
      HashIsPerfect(merge, leaves, k - 1, 2 * j);
      HashIsPerfect(merge, leaves, k - 1, 2 * j + 1);
    }
  }

  lemma {:induction false} BagIsRangeRoot<T>(merge: (T, T) -> T, leaves: seq<T>, q: nat, m: nat, h: nat)
    requires 0 < m < Pow2(h) && |leaves| == Shl(q, h) + m
    requires AllComplete(PeakNodesFrom(q, m, h), |leaves|)
    ensures PeakNodesFrom(q, m, h) != []
    ensures Bag(merge, NodeHashes(merge, leaves, PeakNodesFrom(q, m, h)))
         == RangeRoot(merge, leaves[Shl(q, h)..])
    decreases h
  {
    hide MmrSize, RangeRoot, PerfectHash, Hash, Complete;
    assert Shl(2 * q, h - 1) == Shl(q, h) by { ShlDouble(q, h - 1); }
    if m >= Pow2(h - 1) {
      var m' := m - Pow2(h - 1);
      var nodes, rest := PeakNodesFrom(q, m, h), PeakNodesFrom(2 * q + 1, m', h - 1);
      assert nodes[0] == Node(h - 1, 2 * q) && nodes[1..] == rest;
      assert Shl(2 * q + 1, h - 1) == Shl(q, h) + Pow2(h - 1) by { ShlNext(2 * q, h - 1); }
      RangeRootStep(merge, leaves, q, m, h);
      if m' > 0 {
        assert AllComplete(rest, |leaves|);
        BagIsRangeRoot(merge, leaves, 2 * q + 1, m', h - 1);
      } else {
        NoPeaks(2 * q + 1, h - 1);
      }
    } else {
      BagIsRangeRoot(merge, leaves, 2 * q, m, h - 1);
    }
  }

  lemma {:induction false} RangeRootStep<T>(merge: (T, T) -> T, leaves: seq<T>, q: nat, m: nat, h: nat)
    requires h > 0 && Pow2(h - 1) <= m < Pow2(h) && |leaves| == Shl(q, h) + m
    ensures Complete(h - 1, 2 * q, |leaves|)
    ensures var left := Hash(merge, leaves, h - 1, 2 * q);
      RangeRoot(merge, leaves[Shl(q, h)..])
        == if m == Pow2(h - 1) then left
           else merge(RangeRoot(merge, leaves[Shl(q, h) + Pow2(h - 1)..]), left)
  {
    HalfBounds(h, q);
    hide Hash, Shl, Pow2;
    var part := leaves[Shl(q, h)..];
    HashIsPerfect(merge, leaves, h - 1, 2 * q);
    BitLengthBounds(m, h);
    assert Slice(leaves, h - 1, 2 * q) == part[..Pow2(h - 1)];
    assert part[Pow2(h - 1)..] == leaves[Shl(q, h) + Pow2(h - 1)..];
  }

  lemma {:induction false} NoPeaks(q: nat, h: nat)
    ensures PeakNodesFrom(q, 0, h) == []
    decreases h
  {
    if h > 0 {
      NoPeaks(2 * q, h - 1);
    }
  }

  /** Bagging the peaks computes the root. */
  lemma {:induction false} RootIsRangeRoot<T>(merge: (T, T) -> T, leaves: seq<T>)
    requires leaves != []
    ensures Root(merge, leaves) == RangeRoot(merge, leaves)
  {
    var n := |leaves|;
    PeaksComplete(n);
    BelowBitLength(n);
    ShlZero(BitLength(n));
    BagIsRangeRoot(merge, leaves, 0, n, BitLength(n));
    assert leaves[0..] == leaves;
  }

  // ----- growth -----

  lemma {:induction false} HashStable<T>(merge: (T, T) -> T, leaves: seq<T>, more: seq<T>, k: nat, j: nat)
    requires Complete(k, j, |leaves|)
    ensures Complete(k, j, |leaves + more|)
    ensures Hash(merge, leaves + more, k, j) == Hash(merge, leaves, k, j)
  {
    if k > 0 {
      ChildrenComplete(k, j, |leaves|);
      HashStable(merge, leaves, more, k - 1, 2 * j);
      HashStable(merge, leaves, more, k - 1, 2 * j + 1);
    } else {
      assert (leaves + more)[j] == leaves[j];
    }
  }

  /** The nodes the last of `leaves` completes: one per height, at consecutive positions. */
  ghost predicate Completed<T>(merge: (T, T) -> T, leaves: seq<T>, elems: seq<T>)
    requires leaves != []
  {
    && |elems| == TrailingZeros(|leaves|) + 1
    && (forall k: nat, j: nat :: CompletedAt(k, j, |leaves|) ==>
          k < |elems| && elems[k] == Hash(merge, leaves, k, j))
  }

  /** Inserting `elems` at `pos` and the positions after it. */
  function Written<T>(store: Store<T>, pos: nat, elems: seq<T>): (r: Store<T>)
    ensures forall p :: p in r <==> p in store || pos <= p < pos + |elems|
    ensures forall p :: p in r ==> r[p] == if pos <= p < pos + |elems| then elems[p - pos] else store[p]
    decreases |elems|
  {
    if elems == [] then store else Written(store, pos, elems[..|elems| - 1])[pos + |elems| - 1 := elems[|elems| - 1]]
  }

  /** Writing the completed nodes behind the old ones gives the store of the longer range. */
  lemma {:induction false} StoreGrows<T>(merge: (T, T) -> T, leaves: seq<T>, leaf: T, store: Store<T>,
                                         elems: seq<T>)
    requires Represents(merge, leaves, store)
    requires Completed(merge, leaves + [leaf], elems)
    ensures Represents(merge, leaves + [leaf], Written(store, MmrSize(|leaves|), elems))
  {
    hide MmrSize, Shl, Hash;
    var n := |leaves|;
    var leaves' := leaves + [leaf];
    var store' := Written(store, MmrSize(n), elems);
    SizeStep(n);
    forall k: nat, j: nat | Complete(k, j, n + 1)
      ensures Pos(k, j) in store' && store'[Pos(k, j)] == Hash(merge, leaves', k, j)
    {
      PosBelowSize(k, j, n);
      PosBelowSize(k, j, n + 1);
      if Complete(k, j, n) {
        HashStable(merge, leaves, [leaf], k, j);
      } else {
        assert CompletedAt(k, j, n + 1);
        assert Pos(k, j) == MmrSize(n) + k;
      }
    }
  }

  /** The store of a range is determined by its leaves. */
  lemma {:induction false} StoreUnique<T>(merge: (T, T) -> T, leaves: seq<T>, s1: Store<T>, s2: Store<T>)
    requires Represents(merge, leaves, s1) && Represents(merge, leaves, s2)
    ensures s1 == s2
  {
    assert forall p :: p in s1 ==> p in s2;
    assert forall p :: p in s2 ==> p in s1;
    assert s1.Keys <= s2.Keys;
    assert s2.Keys <= s1.Keys;
    forall p | p in s1
      ensures s1[p] == s2[p]
    {
      var k, j := PosSurjective(|leaves|, p);
      assert s1[Pos(k, j)] == Hash(merge, leaves, k, j) == s2[Pos(k, j)];
    }
  }

  /** And determines them. */
  lemma {:induction false} LeavesUnique<T>(merge: (T, T) -> T, l1: seq<T>, l2: seq<T>, store: Store<T>)
    requires Represents(merge, l1, store) && Represents(merge, l2, store)
    ensures l1 == l2
  {
    SameSize(|l1|, |l2|, store);
    forall i | 0 <= i < |l1|
      ensures l1[i] == l2[i]
    {
      assert Complete(0, i, |l1|);
      assert store[Pos(0, i)] == Hash(merge, l1, 0, i) == Hash(merge, l2, 0, i);
    }
  }

  lemma {:induction false} SameSize<T>(m: nat, n: nat, store: Store<T>)
    requires forall p :: p in store <==> 0 <= p < MmrSize(m)
    requires forall p :: p in store <==> 0 <= p < MmrSize(n)
    ensures m == n
  {
    assert MmrSize(m) > 0 ==> MmrSize(m) - 1 in store;
    assert MmrSize(n) > 0 ==> MmrSize(n) - 1 in store;
    if m <= n {
      SizeMonotone(m, n);
    } else {
      SizeMonotone(n, m);
    }
  }
}
