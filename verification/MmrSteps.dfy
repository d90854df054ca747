/** What one step of pushing, of visiting a peak and of finishing a proof does to the range. */
module MmrSteps {
  import opened Wrappers
  import opened Powers
  import opened Positions
  import opened Forest
  import opened Proofs
  import opened LeafLists
  import opened MmrQueue
  import opened MmrAssembly

  // ----- bagging -----

  lemma {:induction false} BagLastTwo<T>(merge: (T, T) -> T, s: seq<T>)
    requires |s| > 1
    ensures Bag(merge, s) == Bag(merge, s[..|s| - 2] + [merge(s[|s| - 1], s[|s| - 2])])
  {
    var t := s[..|s| - 2] + [merge(s[|s| - 1], s[|s| - 2])];
    if |s| == 2 {
      assert Bag(merge, s[1..]) == s[1];
    } else {
      BagLastTwo(merge, s[1..]);
      assert t[1..] == s[1..][..|s| - 3] + [merge(s[|s| - 1], s[|s| - 2])];
    }
  }

  // ----- pushing -----

  /** The state of a push after `height` merges: `c` blocks of `2^height` leaves. */
  ghost predicate Pushing<T>(merge: (T, T) -> T, leaves: seq<T>, elems: seq<T>, height: nat, c: nat) {
    && c > 0 && Shl(c, height) == |leaves| && |elems| == height + 1
    && (forall k: nat, j: nat :: k <= height && CompletedAt(k, j, |leaves|) ==>
          elems[k] == Hash(merge, leaves, k, j))
  }

  lemma {:induction false} PushStart<T>(merge: (T, T) -> T, leaves: seq<T>, leaf: T)
    ensures Pushing(merge, leaves + [leaf], [leaf], 0, |leaves| + 1)
  {
  }

  /** The left child's position, below the node of height `height` just completed. */
  lemma {:induction false} LeftSibling(n: nat, height: nat, c: nat)
    requires c > 0 && Shl(c, height) == n + 1 && BitSet(n, height)
    ensures c % 2 == 0
    ensures Shl(c / 2, height + 1) == n + 1
    ensures var i := c / 2 - 1;
      && Complete(height, 2 * i, n)
      && Pos(height, 2 * i) == MmrSize(n) + height + 1 - Pow2(height + 1)
      && 0 <= Pos(height, 2 * i) < MmrSize(n)
      && CompletedAt(height, 2 * i + 1, n + 1)
  {
    BitBelowShl(c, height);
    var i := c / 2 - 1;
    assert c == 2 * i + 2;
    ShlDouble(i + 1, height);
    SiblingPos(height, i);
    assert Pos(height, 2 * i + 1) == MmrSize(n) + height;
    ShlMonotone(2 * i + 1, c, height);
    hide Pos;
    PosBelowSize(height, 2 * i, n);
  }

  /** The node one higher is completed by merging. */
  lemma {:induction false} PushHigher<T>(
    merge: (T, T) -> T, leaves: seq<T>, elems: seq<T>, parent: T, height: nat, i: nat)
    requires leaves != [] && Pushing(merge, leaves, elems, height, 2 * i + 2)
    requires Shl(i + 1, height + 1) == |leaves|
    requires CompletedAt(height + 1, i, |leaves|) && parent == Hash(merge, leaves, height + 1, i)
    ensures Pushing(merge, leaves, elems + [parent], height + 1, i + 1)
  {
    hide Hash, Shl;
    forall k: nat, j: nat | k <= height + 1 && CompletedAt(k, j, |leaves|)
      ensures (elems + [parent])[k] == Hash(merge, leaves, k, j)
    {
      if k == height + 1 {
        ShlInjective(j + 1, i + 1, k);
      }
    }
  }

  lemma {:induction false} PushStep<T>(
    merge: (T, T) -> T, leaves: seq<T>, leaf: T, store: Store<T>, elems: seq<T>, height: nat, c: nat)
    requires Represents(merge, leaves, store)
    requires Pushing(merge, leaves + [leaf], elems, height, c)
    requires BitSet(|leaves|, height)
    ensures var left := MmrSize(|leaves|) + height + 1 - Pow2(height + 1);
      && left in store && left < MmrSize(|leaves|)
      && Pushing(merge, leaves + [leaf], elems + [merge(store[left], elems[height])], height + 1, c / 2)
  {
    LeftSibling(|leaves|, height, c);
    var i := c / 2 - 1;
    assert c == 2 * i + 2;
    LeftStored(merge, leaves, leaf, store, height, i);
    hide Pos, MmrSize, Pow2, BitSet, Shl, Represents, Complete;
    var parent := merge(store[Pos(height, 2 * i)], elems[height]);
    assert CompletedAt(height + 1, i, |leaves + [leaf]|);
    assert parent == Hash(merge, leaves + [leaf], height + 1, i);
    hide Hash;
    PushHigher(merge, leaves + [leaf], elems, parent, height, i);
  }

  lemma {:induction false} LeftStored<T>(
    merge: (T, T) -> T, leaves: seq<T>, leaf: T, store: Store<T>, height: nat, i: nat)
    requires Represents(merge, leaves, store) && Complete(height, 2 * i, |leaves|)
    ensures Complete(height, 2 * i, |leaves + [leaf]|)
    ensures Pos(height, 2 * i) in store && store[Pos(height, 2 * i)] == Hash(merge, leaves + [leaf], height, 2 * i)
  {
    HashStable(merge, leaves, [leaf], height, 2 * i);
    hide Pos, Hash, Complete, MmrSize;
  }

  lemma {:induction false} PushDone<T>(
    merge: (T, T) -> T, leaves: seq<T>, leaf: T, elems: seq<T>, height: nat, c: nat)
    requires Pushing(merge, leaves + [leaf], elems, height, c)
    requires !BitSet(|leaves|, height)
    ensures Completed(merge, leaves + [leaf], elems)
    ensures MmrSize(|leaves|) + height + 1 == MmrSize(|leaves| + 1)
  {
    BitBelowShl(c, height);
    TrailingZerosOfShl(c, height);
    SizeStep(|leaves|);
    hide MmrSize, Hash, Shl, TrailingZeros, BitSet;
    forall k: nat, j: nat | CompletedAt(k, j, |leaves + [leaf]|)
      ensures k < |elems| && elems[k] == Hash(merge, leaves + [leaf], k, j)
    {
      TrailingZerosOfShl(j + 1, k);
    }
  }

  lemma {:induction false} ShlInjective(a: nat, b: nat, k: nat)
    requires Shl(a, k) == Shl(b, k)
    ensures a == b
  {
    if k > 0 {
      ShlInjective(a, b, k - 1);
    }
  }

  lemma {:induction false} BitSetBelowLength(n: nat, k: nat)
    requires BitSet(n, k)
    ensures k < BitLength(n)
  {
    if k > 0 {
      BitSetBelowLength(n / 2, k - 1);
    }
  }

  // ----- the root -----

  function Lookups<T>(store: Store<T>, ps: seq<nat>): Option<seq<T>> {
    if ps == [] then Some([])
    else if ps[0] !in store then None
    else
      match Lookups(store, ps[1..])
      case None => None
      case Some(rest) => Some([store[ps[0]]] + rest)
  }

  lemma {:induction false} LookupsAreHashes<T>(merge: (T, T) -> T, leaves: seq<T>, store: Store<T>, nodes: seq<Node>)
    requires Represents(merge, leaves, store) && AllComplete(nodes, |leaves|)
    ensures Lookups(store, Positions.Positions(nodes)) == Some(NodeHashes(merge, leaves, nodes))
  {
    hide Complete, Hash, Pos, MmrSize;
    if nodes != [] {
      LookupsAreHashes(merge, leaves, store, nodes[1..]);
      assert Complete(nodes[0].height, nodes[0].index, |leaves|);
      var rest := Positions.Positions(nodes[1..]);
      assert ([PosOf(nodes[0])] + rest)[1..] == rest;
    }
  }

  lemma {:induction false} SingleLeafRoot<T>(merge: (T, T) -> T, leaves: seq<T>, store: Store<T>)
    requires Represents(merge, leaves, store) && MmrSize(|leaves|) == 1
    ensures leaves != [] && 0 in store && Root(merge, leaves) == store[0]
  {
  }

  // ----- one peak -----

  /** Ascending leaves of the mountain `nd` of a range of `n`. */
  predicate AtPeak(nd: Node, js: seq<nat>, n: nat) {
    Complete(nd.height, nd.index, n) && Under(js, 0, nd) && Sorted(js)
  }

  /** Queue entries for leaf positions. */
  function QueueOf(ps: seq<nat>): seq<Entry> {
    if ps == [] then [] else [(ps[0], 0)] + QueueOf(ps[1..])
  }

  lemma {:induction false} QueueOfLeaves(js: seq<nat>)
    ensures QueueOf(LeafPositionsOf(js)) == Entries(0, js)
  {
    hide Pos;
    if js != [] {
      QueueOfLeaves(js[1..]);
      assert LeafPositionsOf(js)[1..] == LeafPositionsOf(js[1..]);
    }
  }

  /** Under a mountain of height 0 there is only its peak. */
  lemma {:induction false} LonelyLeaf(nd: Node, js: seq<nat>)
    requires js != [] && Under(js, 0, nd) && Sorted(js)
    ensures nd.height == 0 ==> LeafPositionsOf(js) == [PosOf(nd)]
  {
    if nd.height == 0 {
      SortedLength(js, nd.index, nd.index + 1);
      hide Pos;
      assert js[0] == nd.index;
      assert js[1..] == [];
    }
  }

  /** A single position that is the peak's belongs to a mountain of height 0. */
  lemma {:induction false} OnlyPeak(nd: Node, js: seq<nat>)
    requires Under(js, 0, nd) && LeafPositionsOf(js) == [PosOf(nd)]
    ensures nd.height == 0
  {
    hide Pos;
    assert LeafPositionsOf(js)[0] == Pos(0, js[0]);
    UnderBelowPeak(js[0], 0, nd);
  }

  /** Which of the three cases of a peak applies, and what it yields. */
  lemma {:induction false} WalkCases<T>(
    merge: (T, T) -> T, leaves: seq<T>, store: Store<T>, nd: Node, js: seq<nat>, proof: seq<T>)
    requires Represents(merge, leaves, store) && AtPeak(nd, js, |leaves|)
    ensures Complete(nd.height, nd.index, |leaves|)
    ensures PosOf(nd) in store
    ensures var target := proof + PeakPart(merge, leaves, js, nd);
      && (LeafPositionsOf(js) == [PosOf(nd)] ==> target == proof)
      && (LeafPositionsOf(js) == [] ==> target == proof + [store[PosOf(nd)]])
      && (LeafPositionsOf(js) != [] && LeafPositionsOf(js) != [PosOf(nd)] ==>
            WalkState(merge, leaves, nd, 0, js, [], QueueOf(LeafPositionsOf(js)), proof, target))
  {
    hide MmrSize, Hash, Complete, Pos;
    if LeafPositionsOf(js) == [PosOf(nd)] {
      OnlyPeak(nd, js);
      assert proof + [] == proof;
    } else if js != [] {
      StartWalk(merge, leaves, nd, js);
    }
  }

  lemma {:induction false} StartWalk<T>(merge: (T, T) -> T, leaves: seq<T>, nd: Node, js: seq<nat>)
    requires js != [] && AtPeak(nd, js, |leaves|) && LeafPositionsOf(js) != [PosOf(nd)]
    ensures Walking(0, js, [], nd) && QueueOf(LeafPositionsOf(js)) == QueueAt(0, js, [], nd)
    ensures QueueOf(LeafPositionsOf(js)) != []
    ensures Remaining(merge, leaves, 0, js, [], nd) == SubtreeProof(merge, leaves, 0, js, nd)
  {
    LonelyLeaf(nd, js);
    StartLevel(js, nd);
    QueueOfLeaves(js);
    assert [] + LevelParents(js) == LevelParents(js);
  }

  lemma {:induction false} DroppedShape(queue: seq<Entry>)
    requires queue != []
    ensures Dropped(queue) <==> queue[1..] != [] && queue[1..][0].0 == Family(queue[0].0, queue[0].1).0
  {
  }

  // ----- all peaks -----

  /** Where the assembly stands: see `Assembling`; `beyond` are the leaves that no mountain has. */
  datatype Plan<T> = Plan(from: nat, passed: seq<Node>, mid: nat, ahead: seq<Node>, todo: seq<nat>, beyond: seq<nat>,
                          done: seq<T>, full: seq<T>)

  /** The assembly in the terms of the loop. */
  ghost predicate AssemblyState<T>(
    merge: (T, T) -> T, leaves: seq<T>, p: Plan<T>, proof: seq<T>, positions: seq<nat>, track: nat)
  {
    && track == |p.passed|
    && positions == LeafPositionsOf(p.todo + p.beyond) && StartsFrom(p.beyond, |leaves|)
    && Assembling(merge, leaves, p.from, p.passed, p.mid, p.ahead, p.todo, p.done, proof, p.full)
  }

  /** A proof whose last `track` hashes are still to be bagged. */
  function Bagged<T>(merge: (T, T) -> T, proof: seq<T>, track: nat): seq<T>
    requires track <= |proof|
  {
    if track > 1 then proof[..|proof| - track] + [Bag(merge, proof[|proof| - track..])] else proof
  }

  lemma {:induction false} ProofCovered(posList: seq<nat>, n: nat)
    requires Sorted(posList) && AllLeafHeight(posList) && AllBelow(posList, MmrSize(n))
    ensures Covered(0, PeakNodes(n), n, LeafIndicesOf(posList))
  {
    PeaksComplete(n);
    LeafIndicesRoundTrip(posList);
    LeafIndicesWithin(posList, n);
  }

  /** The proof that `leaves` owes for ascending leaf positions. */
  ghost function ProofOfSorted<T>(merge: (T, T) -> T, leaves: seq<T>, posList: seq<nat>): seq<T>
    requires Sorted(posList) && AllLeafHeight(posList) && AllBelow(posList, MmrSize(|leaves|))
  {
    ProofCovered(posList, |leaves|);
    FullProof(merge, leaves, 0, PeakNodes(|leaves|), LeafIndicesOf(posList))
  }

  lemma {:induction false} FirstPosition(nodes: seq<Node>, peaks: seq<nat>, i: nat)
    requires i < |peaks| && Positions.Positions(nodes) == peaks[i..]
    ensures nodes != [] && peaks[i] == PosOf(nodes[0]) && Positions.Positions(nodes[1..]) == peaks[i + 1..]
  {
  }

  lemma {:induction false} NoPositions(nodes: seq<Node>, peaks: seq<nat>)
    requires Positions.Positions(nodes) == peaks[|peaks|..]
    ensures nodes == []
  {
  }

  /** One peak of the loop. */
  lemma {:induction false} MountainStep<T>(
    merge: (T, T) -> T, leaves: seq<T>, p: Plan<T>, proof: seq<T>, positions: seq<nat>, track: nat)
    returns (nd: Node, mine: seq<nat>, p': Plan<T>)
    requires p.ahead != [] && AssemblyState(merge, leaves, p, proof, positions, track)
    ensures nd == p.ahead[0] && p'.ahead == p.ahead[1..] && p'.beyond == p.beyond && p'.full == p.full
    ensures AtPeak(nd, mine, |leaves|)
    ensures TakeBelow(positions, PosOf(nd) + 1) == LeafPositionsOf(mine)
    ensures AssemblyState(merge, leaves, p', proof + PeakPart(merge, leaves, mine, nd),
                          DropBelow(positions, PosOf(nd) + 1),
                          if TakeBelow(positions, PosOf(nd) + 1) == [] then track + 1 else 0)
  {
    hide Complete, Hash, Pos, Sorted, Within, LeafPositionsOf, TakeBelow, DropBelow, Assembling, SubtreeProof, Shl;
    nd := p.ahead[0];
    mine := TakeBelow(p.todo, End(nd));
    ToMountain(merge, leaves, p, proof, positions, track);
    if mine == [] {
      AssembleEmpty(merge, leaves, p.from, p.passed, p.mid, p.ahead, p.todo, p.done, proof, p.full);
      p' := p.(passed := p.passed + [nd], mid := End(nd), ahead := p.ahead[1..]);
    } else {
      AssembleLeaves(merge, leaves, p.from, p.passed, p.mid, p.ahead, p.todo, p.done, proof, p.full);
      var out := proof + SubtreeProof(merge, leaves, 0, mine, nd);
      p' := Plan(End(nd), [], End(nd), p.ahead[1..], DropBelow(p.todo, End(nd)), p.beyond, out, p.full);
    }
  }

  /** The positions that belong to the mountain ahead. */
  lemma {:induction false} ToMountain<T>(
    merge: (T, T) -> T, leaves: seq<T>, p: Plan<T>, proof: seq<T>, positions: seq<nat>, track: nat)
    requires p.ahead != [] && AssemblyState(merge, leaves, p, proof, positions, track)
    ensures var nd := p.ahead[0];
      && AtPeak(nd, TakeBelow(p.todo, End(nd)), |leaves|)
      && TakeBelow(positions, PosOf(nd) + 1) == LeafPositionsOf(TakeBelow(p.todo, End(nd)))
      && DropBelow(positions, PosOf(nd) + 1) == LeafPositionsOf(DropBelow(p.todo, End(nd)) + p.beyond)
      && |LeafPositionsOf(TakeBelow(p.todo, End(nd)))| == |TakeBelow(p.todo, End(nd))|
  {
    hide Hash, Pos, NodeHash, NodeHashes, FullProof, SubtreeProof;
    FirstMountain(p.mid, p.ahead, |leaves|, p.todo);
    hide Complete, Hash, Pos, Sorted, Within, LeafPositionsOf, TakeBelow, DropBelow;
    SplitPositions(p.todo, p.beyond, p.ahead[0], |leaves|);
  }

  lemma {:induction false} FinishAssembly<T>(
    merge: (T, T) -> T, leaves: seq<T>, p: Plan<T>, proof: seq<T>, positions: seq<nat>, track: nat)
    requires p.ahead == [] && AssemblyState(merge, leaves, p, proof, positions, track)
    ensures positions == [] <==> p.beyond == []
    ensures track <= |proof|
    ensures p.full == Bagged(merge, proof, track)
  {
    AssembleEnd(merge, leaves, p.from, p.passed, p.mid, p.todo, p.done, proof, p.full);
    assert p.todo + p.beyond == p.beyond;
    assert |LeafPositionsOf(p.beyond)| == |p.beyond|;
    hide Assembling, Bag, LeafPositionsOf;
    assert |p.passed| == 0 ==> proof == p.done by {
      assert proof[..|p.done|] == proof || |p.passed| > 0;
    }
  }

  lemma {:induction false} FreshPlan<T>(merge: (T, T) -> T, leaves: seq<T>, nodes: seq<Node>, todo: seq<nat>)
    requires Covered(0, nodes, |leaves|, todo)
    ensures Assembling(merge, leaves, 0, [], 0, nodes, todo, [], [], FullProof(merge, leaves, 0, nodes, todo))
  {
    hide Covered, FullProof;
    assert [] + nodes == nodes;
    assert [] + FullProof(merge, leaves, 0, nodes, todo) == FullProof(merge, leaves, 0, nodes, todo);
  }

  lemma {:induction false} StartAssembly<T>(merge: (T, T) -> T, leaves: seq<T>, posList: seq<nat>) returns (p: Plan<T>)
    requires Sorted(posList) && AllLeafHeight(posList)
    ensures p.ahead == PeakNodes(|leaves|)
    ensures p.beyond == [] <==> AllBelow(posList, MmrSize(|leaves|))
    ensures AssemblyState(merge, leaves, p, [], posList, 0)
    ensures p.beyond == [] ==> p.full == ProofOfSorted(merge, leaves, posList)
  {
    hide MmrSize, AllLeafHeight, FullProof, PeakNodes, AllBelow, Sorted, Within, Contiguous, AllComplete, Assembling,
         LeafPositionsOf, LeafIndicesOf, StartsFrom;
    PeaksComplete(|leaves|);
    var todo, beyond := SplitRange(posList, |leaves|);
    var full := FullProof(merge, leaves, 0, PeakNodes(|leaves|), todo);
    p := Plan(0, [], 0, PeakNodes(|leaves|), todo, beyond, [], full);
    FreshPlan(merge, leaves, p.ahead, todo);
  }

  lemma {:induction false} SingleLeafProof<T>(merge: (T, T) -> T, leaves: seq<T>)
    requires MmrSize(|leaves|) == 1
    ensures Sorted([0]) && SortedUnique([0]) == [0] && AllLeafHeight([0]) && AllBelow([0], MmrSize(|leaves|))
    ensures ProofOfSorted(merge, leaves, [0]) == []
  {
  }

}
