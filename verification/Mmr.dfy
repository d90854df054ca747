/**
 * The Merkle mountain range over a position-indexed store: pushing leaves, bagging peaks and
 * generating proofs. Every operation works on any store and any size and reports what it misses;
 * the ghost parameter `leaves` names the range the store may represent, and the contracts say what
 * the operation then does.
 */
module Mmr {
  import opened Wrappers
  import opened Powers
  import opened Positions
  import opened Forest
  import opened Proofs
  import opened LeafLists
  import opened MmrQueue
  import opened MmrSteps

  datatype MmrError = GetRootOnEmpty | InconsistentStore | GenProofForInvalidLeaves | NodeProofsNotSupported

  datatype MerkleProof<T> = MerkleProof(mmrSize: nat, proof: seq<T>)

  method BagRhsPeaks<T>(merge: (T, T) -> T, peaks: seq<T>) returns (r: Option<T>)
    ensures r == if peaks == [] then None else Some(Bag(merge, peaks))
  {
    var rhs := peaks;
    while |rhs| > 1
      invariant rhs == [] <==> peaks == []
      invariant peaks != [] ==> Bag(merge, rhs) == Bag(merge, peaks)
    {
      BagLastTwo(merge, rhs);
      var right, left := rhs[|rhs| - 1], rhs[|rhs| - 2];
      rhs := rhs[..|rhs| - 2] + [merge(right, left)];
    }
    if rhs == [] {
      r := None;
    } else {
      r := Some(rhs[0]);
    }
  }

  /** An element of a batch not yet stored, or of the store. */
  function FindElem<T>(mmrSize: nat, pos: int, store: Store<T>, hashes: seq<T>): Result<T, MmrError> {
    if 0 <= pos - mmrSize < |hashes| then Ok(hashes[pos - mmrSize])
    else if pos in store then Ok(store[pos])
    else Err(InconsistentStore)
  }

  /** The proof that `leaves` owes for leaf positions in any order. */
  ghost function ProofOf<T>(merge: (T, T) -> T, leaves: seq<T>, posList: seq<nat>): seq<T>
    requires AllLeaves(posList, |leaves|)
  {
    SortedUniqueSorted(posList);
    SortedUniqueLeaves(posList, |leaves|);
    LeavesAreBoth(SortedUnique(posList), |leaves|);
    ProofOfSorted(merge, leaves, SortedUnique(posList))
  }

  class Range<T> {
    const merge: (T, T) -> T
    var mmrSize: nat
    var batch: seq<(nat, seq<T>)>

    /** The store represents `leaves` and the size is theirs. */
    ghost predicate Over(leaves: seq<T>, store: Store<T>)
      reads this
    {
      Represents(merge, leaves, store) && mmrSize == MmrSize(|leaves|)
    }

    constructor (merge: (T, T) -> T, mmrSize: nat)
      ensures this.merge == merge && this.mmrSize == mmrSize && batch == []
    {
      this.merge, this.mmrSize, batch := merge, mmrSize, [];
    }

    /** Appends a leaf and returns the nodes to be stored, by the position of the first. */
    method Push(store: Store<T>, elem: T, ghost leaves: seq<T>) returns (r: Result<seq<(nat, seq<T>)>, MmrError>)
      modifies this
      ensures r.Err? ==> r.error == InconsistentStore && mmrSize == old(mmrSize) && batch == old(batch)
      ensures r.Ok? ==> r.value == batch && |batch| == |old(batch)| + 1 && batch[..|old(batch)|] == old(batch)
      ensures old(Over(leaves, store)) ==>
        && r.Ok? && mmrSize == MmrSize(|leaves| + 1)
        && batch[|old(batch)|].0 == old(mmrSize)
        && Completed(merge, leaves + [elem], batch[|old(batch)|].1)
    {
      hide Represents, Completed, Pushing, MmrSize, PeakMap, Pow2, BitSet, BitLength;
      ghost var good := Over(leaves, store);
      ghost var c: nat := |leaves| + 1;
      var size, before := mmrSize, batch;
      var elems := [elem];
      var peakMap := PeakMap(size);
      var pos, height := size, 0;
      if good {
        PeakMapIsLeafCount(|leaves|);
        PushStart(merge, leaves, elem);
      }
      while BitSet(peakMap, height)
        invariant pos == size + height && |elems| == height + 1
        invariant good ==> Pushing(merge, leaves + [elem], elems, height, c)
        decreases BitLength(peakMap) - height
        modifies {}
      {
        BitSetBelowLength(peakMap, height);
        if good {
          PushStep(merge, leaves, elem, store, elems, height, c);
        }
        height, pos := height + 1, pos + 1;
        var leftPos := pos - Pow2(height);
        var left := FindElem(size, leftPos, store, elems);
        if left.Err? {
          return Err(left.error);
        }
        elems := elems + [merge(left.value, elems[|elems| - 1])];
        c := c / 2;
      }
      if good {
        PushDone(merge, leaves, elem, elems, height, c);
      }
      batch := before + [(size, elems)];
      mmrSize := pos + 1;
      return Ok(batch);
    }

    method GetRoot(store: Store<T>, ghost leaves: seq<T>) returns (r: Result<T, MmrError>)
      ensures Over(leaves, store) ==>
        r == if leaves == [] then Err(GetRootOnEmpty) else Ok(Root(merge, leaves))
    {
      ghost var good := Over(leaves, store);
      if good {
        SizeMonotone(0, |leaves|);
        PeaksAreNodes(|leaves|);
        PeaksComplete(|leaves|);
        LookupsAreHashes(merge, leaves, store, PeakNodes(|leaves|));
      }
      hide Represents, MmrSize, Peaks, PeakNodes, Hash, Bag, NodeHashes, Lookups;
      if mmrSize == 0 {
        return Err(GetRootOnEmpty);
      } else if mmrSize == 1 {
        if 0 !in store {
          if good {
            SingleLeafRoot(merge, leaves, store);
          }
          return Err(InconsistentStore);
        }
        if good {
          SingleLeafRoot(merge, leaves, store);
        }
        return Ok(store[0]);
      }
      var peaks := Lookups(store, Peaks(mmrSize));
      if peaks.None? {
        return Err(InconsistentStore);
      }
      var bag := BagRhsPeaks(merge, peaks.value);
      if bag.None? {
        return Err(InconsistentStore);
      }
      return Ok(bag.value);
    }

    /** Appends to `proof` what mountain `nd` contributes for the leaves `js` under it. */
    method GenProofForPeak(proof: seq<T>, posList: seq<nat>, peakPos: nat, store: Store<T>,
                           ghost leaves: seq<T>, ghost nd: Node, ghost js: seq<nat>)
      returns (r: Result<seq<T>, MmrError>)
      ensures r.Ok? ==> |r.value| >= |proof| + if posList == [] then 1 else 0
      ensures
        && Over(leaves, store) && AtPeak(nd, js, |leaves|)
        && peakPos == PosOf(nd) && posList == LeafPositionsOf(js)
        ==> r == Ok(proof + PeakPart(merge, leaves, js, nd))
    {
      ghost var good :=
        && Over(leaves, store) && AtPeak(nd, js, |leaves|)
        && peakPos == PosOf(nd) && posList == LeafPositionsOf(js);
      ghost var target := proof;
      if good {
        target := proof + PeakPart(merge, leaves, js, nd);
        WalkCases(merge, leaves, store, nd, js, proof);
      }
      hide AtPeak, Represents, PeakPart, LeafPositionsOf, MmrSize, PosOf, WalkState, QueueOf;
      if posList == [peakPos] {
        return Ok(proof);
      }
      if posList == [] {
        if peakPos !in store {
          return Err(InconsistentStore);
        }
        return Ok(proof + [store[peakPos]]);
      }
      r := Walk(proof, QueueOf(posList), peakPos, store, leaves, nd, js, target);
    }

    /** The walk over the queue. */
    method Walk(proof: seq<T>, entries: seq<Entry>, peakPos: nat, store: Store<T>, ghost leaves: seq<T>,
                ghost nd: Node, ghost js: seq<nat>, ghost target: seq<T>)
      returns (r: Result<seq<T>, MmrError>)
      ensures r.Ok? ==> |r.value| >= |proof|
      ensures
        && Over(leaves, store) && Complete(nd.height, nd.index, |leaves|) && peakPos == PosOf(nd)
        && WalkState(merge, leaves, nd, 0, js, [], entries, proof, target)
        ==> r == Ok(target)
    {
      hide Represents, MmrSize, Complete, Family, Walking, QueueAt, Weight, Dropped, Remaining, PosOf;
      ghost var good :=
        && Over(leaves, store) && Complete(nd.height, nd.index, |leaves|) && peakPos == PosOf(nd)
        && WalkState(merge, leaves, nd, 0, js, [], entries, proof, target);
      var queue, out := entries, proof;
      ghost var k, rest, up := 0, js, [];
      while queue != []
        invariant |out| >= |proof|
        invariant good ==> WalkState(merge, leaves, nd, k, rest, up, queue, out, target)
        decreases Weight(queue, peakPos)
      {
        if good {
          k, rest, up := WholeTurn(merge, leaves, store, nd, k, rest, up, queue, out, target);
        }
        if queue[0].0 != peakPos {
          TurnedWeight(queue, peakPos);
          DroppedShape(queue);
        }
        var (pos, height) := queue[0];
        queue := queue[1..];
        if pos == peakPos {
          if queue == [] {
            break;
          } else {
            return Err(NodeProofsNotSupported);
          }
        }

        var (sibPos, parentPos) := Family(pos, height);
        if queue != [] && queue[0].0 == sibPos {
          queue := queue[1..];
        } else {
          if sibPos !in store {
            return Err(InconsistentStore);
          }
          out := out + [store[sibPos]];
        }
        if parentPos < peakPos {
          queue := queue + [(parentPos, height + 1)];
        }
      }
      return Ok(out);
    }

    /** Generates the proof for a list of leaf positions, in any order and with duplicates. */
    method GenProof(posList: seq<nat>, store: Store<T>, ghost leaves: seq<T>)
      returns (r: Result<MerkleProof<T>, MmrError>)
      ensures posList == [] ==> r == Err(GenProofForInvalidLeaves)
      ensures Over(leaves, store) ==> (r.Ok? <==> posList != [] && AllLeaves(posList, |leaves|))
      ensures Over(leaves, store) && r.Ok? ==> r.value == MerkleProof(mmrSize, ProofOf(merge, leaves, posList))
      ensures Over(leaves, store) && r.Err? && posList != [] ==>
        r.error == if AllLeafHeight(posList) then GenProofForInvalidLeaves else NodeProofsNotSupported
    {
      ghost var good := Over(leaves, store);
      if good {
        LeavesAreBoth(posList, |leaves|);
        SortedUniqueLeaves(posList, |leaves|);
        LeavesAreBoth(SortedUnique(posList), |leaves|);
      }
      SortedUniqueSorted(posList);
      SortedUniqueLeaves(posList, 0);
      if posList == [] {
        return Err(GenProofForInvalidLeaves);
      }
      if mmrSize == 1 && posList == [0] {
        if good {
          SingleLeafProof(merge, leaves);
        }
        return Ok(MerkleProof(mmrSize, []));
      }
      hide Represents, MmrSize, AllLeaves, AllLeafHeight, AllBelow, Sorted, SortedUnique, ProofOfSorted;
      if !AllLeafHeight(posList) {
        return Err(NodeProofsNotSupported);
      }
      r := Assemble(SortedUnique(posList), store, leaves);
    }

    /** The part of proof generation that goes through the peaks, for ascending leaf positions. */
    method Assemble(posList: seq<nat>, store: Store<T>, ghost leaves: seq<T>)
      returns (r: Result<MerkleProof<T>, MmrError>)
      requires Sorted(posList) && AllLeafHeight(posList)
      ensures Over(leaves, store) ==>
        r == if AllBelow(posList, mmrSize) then Ok(MerkleProof(mmrSize, ProofOfSorted(merge, leaves, posList)))
             else Err(GenProofForInvalidLeaves)
    {
      hide Represents, MmrSize, AllLeafHeight, AllBelow, Sorted, ProofOfSorted, Bag;
      var parts := VisitPeaks(posList, store, leaves);
      if parts.Err? {
        return Err(parts.error);
      }
      var (proof, positions, baggingTrack) := parts.value;
      if positions != [] {
        return Err(GenProofForInvalidLeaves);
      }
      if baggingTrack > 1 {
        var split := |proof| - baggingTrack;
        var bag := BagRhsPeaks(merge, proof[split..]);
        proof := proof[..split] + [bag.value];
      }
      return Ok(MerkleProof(mmrSize, proof));
    }

    /** Visits the peaks; returns proof so far, positions left over, and peaks since the last leaf. */
    method VisitPeaks(posList: seq<nat>, store: Store<T>, ghost leaves: seq<T>)
      returns (r: Result<(seq<T>, seq<nat>, nat), MmrError>)
      requires Sorted(posList) && AllLeafHeight(posList)
      ensures r.Ok? ==> r.value.2 <= |r.value.0|
      ensures Over(leaves, store) ==>
        && r.Ok? && (r.value.1 == [] <==> AllBelow(posList, mmrSize))
        && (r.value.1 == [] ==> Bagged(merge, r.value.0, r.value.2) == ProofOfSorted(merge, leaves, posList))
    {
      hide Represents, MmrSize, AllLeafHeight, AllBelow, Sorted, ProofOfSorted, Peaks, PeakNodes, AssemblyState,
           Positions.Positions, Bagged;
      ghost var good := Over(leaves, store);
      ghost var plan: Plan<T> := Plan(0, [], 0, [], [], [], [], []);
      if good {
        PeaksAreNodes(|leaves|);
        plan := StartAssembly(merge, leaves, posList);
      }
      ghost var beyond := plan.beyond;
      ghost var full := plan.full;
      var positions := posList;
      var peaks := Peaks(mmrSize);
      var proof: seq<T> := [];
      var baggingTrack: nat := 0;
      assert peaks[0..] == peaks;
      for i := 0 to |peaks|
        invariant baggingTrack <= |proof|
        invariant good ==>
          && AssemblyState(merge, leaves, plan, proof, positions, baggingTrack)
          && Positions.Positions(plan.ahead) == peaks[i..] && plan.beyond == beyond && plan.full == full
      {
        ghost var nd, js := Node(0, 0), [];
        ghost var plan' := plan;
        if good {
          FirstPosition(plan.ahead, peaks, i);
          nd, js, plan' := MountainStep(merge, leaves, plan, proof, positions, baggingTrack);
        }
        var mine, rest := TakeWhile(positions, peaks[i]);
        var track := if mine == [] then baggingTrack + 1 else 0;
        var next := GenProofForPeak(proof, mine, peaks[i], store, leaves, nd, js);
        if next.Err? {
          return Err(next.error);
        }
        proof, positions, baggingTrack, plan := next.value, rest, track, plan';
      }
      if good {
        NoPositions(plan.ahead, peaks);
        FinishAssembly(merge, leaves, plan, proof, positions, baggingTrack);
      }
      return Ok((proof, positions, baggingTrack));
    }
  }
}
