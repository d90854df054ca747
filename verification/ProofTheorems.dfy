/** Completeness and soundness of Merkle proofs over a mountain range. */
module ProofTheorems {
  import opened Wrappers
  import opened Powers
  import opened Positions
  import opened Forest
  import opened Proofs

  /** The true claims about the nodes `js` of height `k`. */
  function ClaimsAt<T>(merge: (T, T) -> T, leaves: seq<T>, k: nat, js: seq<nat>): seq<Claim<T>>
    requires CompleteAt(k, js, |leaves|)
  {
    if js == [] then [] else [(js[0], Hash(merge, leaves, k, js[0]))] + ClaimsAt(merge, leaves, k, js[1..])
  }

  lemma {:induction false} ClaimsShape<T>(merge: (T, T) -> T, leaves: seq<T>, k: nat, js: seq<nat>)
    requires js != [] && CompleteAt(k, js, |leaves|)
    ensures var claims := ClaimsAt(merge, leaves, k, js);
      && claims != [] && claims[0] == (js[0], Hash(merge, leaves, k, js[0]))
      && claims[1..] == ClaimsAt(merge, leaves, k, js[1..])
      && PairedClaims(claims) == Paired(js)
  {
  }

  lemma {:induction false} ClaimsSplit<T>(merge: (T, T) -> T, leaves: seq<T>, js: seq<nat>, bound: nat)
    requires CompleteAt(0, js, |leaves|)
    ensures CompleteAt(0, TakeBelow(js, bound), |leaves|) && CompleteAt(0, DropBelow(js, bound), |leaves|)
    ensures TakeClaims(ClaimsAt(merge, leaves, 0, js), bound) == ClaimsAt(merge, leaves, 0, TakeBelow(js, bound))
    ensures DropClaims(ClaimsAt(merge, leaves, 0, js), bound) == ClaimsAt(merge, leaves, 0, DropBelow(js, bound))
  {
    hide Hash, Complete;
    if js != [] && js[0] < bound {
      ClaimsSplit(merge, leaves, js[1..], bound);
      ClaimsShape(merge, leaves, 0, js);
      var t := TakeBelow(js[1..], bound);
      assert ([js[0]] + t)[1..] == t;
    }
  }

  // ----- completeness: generated proofs recompute the root -----

  lemma {:induction false} ClimbPaired<T>(
    merge: (T, T) -> T, claims: seq<Claim<T>>, proof: seq<T>, up: seq<Claim<T>>, rest: seq<T>)
    requires PairedClaims(claims)
    requires ClimbLevel(merge, claims[1..][1..], proof) == Some((up, rest))
    ensures ClimbLevel(merge, claims, proof)
         == Some(([(claims[0].0 / 2, merge(claims[0].1, claims[1].1))] + up, rest))
  {
  }

  lemma {:induction false} ClimbSingle<T>(
    merge: (T, T) -> T, claims: seq<Claim<T>>, h: T, proof: seq<T>, up: seq<Claim<T>>, rest: seq<T>)
    requires claims != [] && !PairedClaims(claims)
    requires ClimbLevel(merge, claims[1..], proof) == Some((up, rest))
    ensures var (j, v) := claims[0];
      ClimbLevel(merge, claims, [h] + proof)
        == Some(([(j / 2, if j % 2 == 0 then merge(v, h) else merge(h, v))] + up, rest))
  {
  }

  lemma {:induction false} HashOfParent<T>(merge: (T, T) -> T, leaves: seq<T>, k: nat, j: nat)
    requires Complete(k + 1, j / 2, |leaves|)
    ensures Complete(k, j, |leaves|) && Complete(k, Sibling(j), |leaves|)
    ensures var (v, h) := (Hash(merge, leaves, k, j), Hash(merge, leaves, k, Sibling(j)));
      Hash(merge, leaves, k + 1, j / 2) == if j % 2 == 0 then merge(v, h) else merge(h, v)
  {
    ChildrenComplete(k + 1, j / 2, |leaves|);
    assert j % 2 == 0 ==> j == 2 * (j / 2);
    assert j % 2 == 1 ==> j == 2 * (j / 2) + 1;
  }

  lemma {:induction false} HashesCons<T>(
    merge: (T, T) -> T, leaves: seq<T>, k: nat, j: nat, js: seq<nat>, rest: seq<T>)
    requires Complete(k, j, |leaves|) && CompleteAt(k, js, |leaves|)
    ensures CompleteAt(k, [j] + js, |leaves|)
    ensures HashesAt(merge, leaves, k, [j] + js) + rest
         == [Hash(merge, leaves, k, j)] + (HashesAt(merge, leaves, k, js) + rest)
  {
  }

  lemma {:induction false} ClaimsCons<T>(merge: (T, T) -> T, leaves: seq<T>, k: nat, j: nat, js: seq<nat>)
    requires Complete(k, j, |leaves|) && CompleteAt(k, js, |leaves|)
    ensures CompleteAt(k, [j] + js, |leaves|)
    ensures ClaimsAt(merge, leaves, k, [j] + js)
         == [(j, Hash(merge, leaves, k, j))] + ClaimsAt(merge, leaves, k, js)
  {
  }

  lemma {:induction false} CompleteParents(k: nat, js: seq<nat>, n: nat)
    requires CompleteAt(k + 1, LevelParents(js), n)
    ensures CompleteAt(k, js, n) && CompleteAt(k, LevelSiblings(js), n)
    ensures js != [] ==> Complete(k + 1, js[0] / 2, n) && CompleteAt(k + 1, LevelParents(AfterFirst(js)), n)
    decreases |js|
  {
    if js != [] {
      var rest := AfterFirst(js);
      assert LevelParents(js)[1..] == LevelParents(rest);
      CompleteParents(k, rest, n);
      ChildrenComplete(k + 1, js[0] / 2, n);
      hide Complete;
      assert ([Sibling(js[0])] + LevelSiblings(rest))[1..] == LevelSiblings(rest);
    }
  }

  lemma {:induction false} ClimbLevelComplete<T>(
    merge: (T, T) -> T, leaves: seq<T>, k: nat, js: seq<nat>, rest: seq<T>)
    requires CompleteAt(k + 1, LevelParents(js), |leaves|)
    ensures CompleteAt(k, js, |leaves|) && CompleteAt(k, LevelSiblings(js), |leaves|)
    ensures ClimbLevel(merge, ClaimsAt(merge, leaves, k, js), HashesAt(merge, leaves, k, LevelSiblings(js)) + rest)
         == Some((ClaimsAt(merge, leaves, k + 1, LevelParents(js)), rest))
    decreases |js|
  {
    CompleteParents(k, js, |leaves|);
    hide Complete, CompleteAt;
    if js == [] {
      assert HashesAt(merge, leaves, k, LevelSiblings(js)) + rest == rest;
    } else {
      var next := AfterFirst(js);
      CompleteParents(k, next, |leaves|);
      ClimbLevelComplete(merge, leaves, k, next, rest);
      HashOfParent(merge, leaves, k, js[0]);
      ClaimsCons(merge, leaves, k + 1, js[0] / 2, LevelParents(next));
      ClimbFirst(merge, leaves, k, js, rest, ClaimsAt(merge, leaves, k + 1, LevelParents(next)));
    }
  }

  /** The first parent of a level is merged correctly. */
  lemma {:induction false} ClimbFirst<T>(
    merge: (T, T) -> T, leaves: seq<T>, k: nat, js: seq<nat>, rest: seq<T>, up: seq<Claim<T>>)
    requires js != [] && CompleteAt(k, js, |leaves|) && CompleteAt(k, LevelSiblings(js), |leaves|)
    requires Complete(k + 1, js[0] / 2, |leaves|)
    requires CompleteAt(k, AfterFirst(js), |leaves|) && CompleteAt(k, LevelSiblings(AfterFirst(js)), |leaves|)
    requires ClimbLevel(merge, ClaimsAt(merge, leaves, k, AfterFirst(js)),
                        HashesAt(merge, leaves, k, LevelSiblings(AfterFirst(js))) + rest) == Some((up, rest))
    ensures ClimbLevel(merge, ClaimsAt(merge, leaves, k, js), HashesAt(merge, leaves, k, LevelSiblings(js)) + rest)
         == Some(([(js[0] / 2, Hash(merge, leaves, k + 1, js[0] / 2))] + up, rest))
  {
    ClaimsShape(merge, leaves, k, js);
    HashOfParent(merge, leaves, k, js[0]);
    var claims := ClaimsAt(merge, leaves, k, js);
    var proof := HashesAt(merge, leaves, k, LevelSiblings(AfterFirst(js))) + rest;
    if Paired(js) {
      ClaimsShape(merge, leaves, k, js[1..]);
      hide Hash, Complete, ClimbLevel, ClaimsAt;
      ClimbPaired(merge, claims, proof, up, rest);
    } else {
      hide Hash, Complete, ClimbLevel, ClaimsAt;
      ClimbSingle(merge, claims, Hash(merge, leaves, k, Sibling(js[0])), proof, up, rest);
      HashesCons(merge, leaves, k, Sibling(js[0]), LevelSiblings(AfterFirst(js)), rest);
    }
  }

  lemma {:induction false} ClimbComplete<T>(
    merge: (T, T) -> T, leaves: seq<T>, k: nat, js: seq<nat>, nd: Node, rest: seq<T>)
    requires k <= nd.height && Complete(nd.height, nd.index, |leaves|) && Under(js, k, nd)
    requires Sorted(js) && js != []
    ensures CompleteAt(k, js, |leaves|)
    ensures Climb(merge, k, nd.height, ClaimsAt(merge, leaves, k, js), SubtreeProof(merge, leaves, k, js, nd) + rest)
         == Some((NodeHash(merge, leaves, nd), rest))
    decreases nd.height - k
  {
    UnderComplete(k, js, nd, |leaves|);
    if k == nd.height {
      SortedLength(js, nd.index, nd.index + 1);
      assert SubtreeProof(merge, leaves, k, js, nd) + rest == rest;
    } else {
      LevelUnder(js, k, nd);
      UnderComplete(k, LevelSiblings(js), nd, |leaves|);
      UnderComplete(k + 1, LevelParents(js), nd, |leaves|);
      ParentsSorted(js);
      var level := HashesAt(merge, leaves, k, LevelSiblings(js));
      var above := SubtreeProof(merge, leaves, k + 1, LevelParents(js), nd);
      assert level + above + rest == level + (above + rest);
      ClimbLevelComplete(merge, leaves, k, js, above + rest);
      ClimbComplete(merge, leaves, k + 1, LevelParents(js), nd, rest);
    }
  }

  lemma {:induction false} RootFromProofComplete<T>(
    merge: (T, T) -> T, leaves: seq<T>, from: nat, peaks: seq<Node>, js: seq<nat>)
    requires peaks != [] && Covered(from, peaks, |leaves|, js)
    ensures AllComplete(peaks, |leaves|) && CompleteAt(0, js, |leaves|)
    ensures RootFromProof(merge, peaks, ClaimsAt(merge, leaves, 0, js), FullProof(merge, leaves, from, peaks, js))
         == Some(Bag(merge, NodeHashes(merge, leaves, peaks)))
    decreases |peaks|
  {
    ContiguousEnds(from, peaks, |leaves|);
    WithinComplete(js, from, |leaves|, 0, |leaves|);
    if js != [] {
      FirstMountain(from, peaks, |leaves|, js);
      ClaimsSplit(merge, leaves, js, End(peaks[0]));
      var mine, others := TakeBelow(js, End(peaks[0])), DropBelow(js, End(peaks[0]));
      var tail := FullProof(merge, leaves, End(peaks[0]), peaks[1..], others);
      FirstPeakComplete(merge, leaves, mine, peaks[0], tail);
      ClaimsShape(merge, leaves, 0, js);
      if |peaks| > 1 {
        RootFromProofComplete(merge, leaves, End(peaks[0]), peaks[1..], others);
      } else {
        SortedLength(others, |leaves|, |leaves|);
      }
      hide Hash, Complete, Climb, SubtreeProof, Shl, TakeBelow, DropBelow, Within;
    }
  }

  lemma {:induction false} FirstPeakComplete<T>(
    merge: (T, T) -> T, leaves: seq<T>, mine: seq<nat>, nd: Node, rest: seq<T>)
    requires Complete(nd.height, nd.index, |leaves|) && Under(mine, 0, nd) && Sorted(mine)
    ensures CompleteAt(0, mine, |leaves|)
    ensures FirstPeak(merge, nd, ClaimsAt(merge, leaves, 0, mine), PeakPart(merge, leaves, mine, nd) + rest)
         == Some((NodeHash(merge, leaves, nd), rest))
  {
    if mine == [] {
      assert ([NodeHash(merge, leaves, nd)] + rest)[1..] == rest;
    } else {
      ClimbComplete(merge, leaves, 0, mine, nd, rest);
    }
  }

  /**
   * Round trip: for every range and every non-empty ascending list of its leaves, the root
   * recomputed from those leaves and their proof is the root of the range.
   */
  lemma {:induction false} ProofRoundTrip<T>(merge: (T, T) -> T, leaves: seq<T>, js: seq<nat>)
    requires js != [] && Sorted(js) && Within(js, 0, |leaves|)
    ensures Covered(0, PeakNodes(|leaves|), |leaves|, js) && CompleteAt(0, js, |leaves|)
    ensures RootFromProof(merge, PeakNodes(|leaves|), ClaimsAt(merge, leaves, 0, js),
                          FullProof(merge, leaves, 0, PeakNodes(|leaves|), js))
         == Some(Root(merge, leaves))
  {
    PeaksComplete(|leaves|);
    RootFromProofComplete(merge, leaves, 0, PeakNodes(|leaves|), js);
  }

  // ----- soundness: under an injective merge no other leaf can be proven -----

  function Merged<T>(merge: (T, T) -> T, a: T, b: T): T {
    merge(a, b)
  }

  ghost predicate Injective<T(!new)>(merge: (T, T) -> T) {
    forall a, b, c, d :: Merged(merge, a, b) == Merged(merge, c, d) ==> a == c && b == d
  }

  ghost predicate TrueAt<T>(merge: (T, T) -> T, leaves: seq<T>, k: nat, claims: seq<Claim<T>>) {
    claims == [] ||
    (&& Complete(k, claims[0].0, |leaves|) && claims[0].1 == Hash(merge, leaves, k, claims[0].0)
     && TrueAt(merge, leaves, k, claims[1..]))
  }

  lemma {:induction false} ParentTrue<T(!new)>(merge: (T, T) -> T, leaves: seq<T>, k: nat, i: nat, l: T, r: T)
    requires Injective(merge) && Complete(k + 1, i, |leaves|)
    requires merge(l, r) == Hash(merge, leaves, k + 1, i)
    ensures Complete(k, 2 * i, |leaves|) && l == Hash(merge, leaves, k, 2 * i)
    ensures Complete(k, 2 * i + 1, |leaves|) && r == Hash(merge, leaves, k, 2 * i + 1)
  {
    ChildrenComplete(k + 1, i, |leaves|);
    assert Merged(merge, l, r)
        == Merged(merge, Hash(merge, leaves, k, 2 * i), Hash(merge, leaves, k, 2 * i + 1));
  }

  lemma {:induction false} ClimbLevelSound<T(!new)>(
    merge: (T, T) -> T, leaves: seq<T>, k: nat, claims: seq<Claim<T>>, proof: seq<T>)
    requires Injective(merge)
    requires var r := ClimbLevel(merge, claims, proof); r.Some? && TrueAt(merge, leaves, k + 1, r.value.0)
    ensures TrueAt(merge, leaves, k, claims)
    decreases |claims|
  {
    if claims != [] {
      var up := ClimbLevel(merge, claims, proof).value.0;
      var (j, v) := claims[0];
      if PairedClaims(claims) {
        assert ClimbLevel(merge, claims[1..][1..], proof).value.0 == up[1..];
        ClimbLevelSound(merge, leaves, k, claims[1..][1..], proof);
        ParentTrue(merge, leaves, k, j / 2, v, claims[1].1);
      } else {
        assert ClimbLevel(merge, claims[1..], proof[1..]).value.0 == up[1..];
        ClimbLevelSound(merge, leaves, k, claims[1..], proof[1..]);
        if j % 2 == 0 {
          ParentTrue(merge, leaves, k, j / 2, v, proof[0]);
        } else {
          ParentTrue(merge, leaves, k, j / 2, proof[0], v);
        }
      }
    }
  }

  lemma {:induction false} PairedIndices<T>(claims: seq<Claim<T>>)
    ensures Paired(Indices(claims)) == PairedClaims(claims)
    ensures claims != [] ==> Indices(claims) != [] && Indices(claims)[1..] == Indices(claims[1..])
  {
  }

  lemma {:induction false} LevelIndices<T>(merge: (T, T) -> T, claims: seq<Claim<T>>, proof: seq<T>)
    requires ClimbLevel(merge, claims, proof).Some?
    ensures Indices(ClimbLevel(merge, claims, proof).value.0) == LevelParents(Indices(claims))
    decreases |claims|
  {
    if claims != [] {
      var js := Indices(claims);
      PairedIndices(claims);
      var up := ClimbLevel(merge, claims, proof).value.0;
      if Paired(js) {
        PairedIndices(claims[1..]);
        LevelIndices(merge, claims[1..][1..], proof);
        assert up[1..] == ClimbLevel(merge, claims[1..][1..], proof).value.0;
      } else {
        LevelIndices(merge, claims[1..], proof[1..]);
        assert up[1..] == ClimbLevel(merge, claims[1..], proof[1..]).value.0;
      }
    }
  }

  lemma {:induction false} ClimbSound<T(!new)>(
    merge: (T, T) -> T, leaves: seq<T>, k: nat, nd: Node, claims: seq<Claim<T>>, proof: seq<T>)
    requires Injective(merge)
    requires k <= nd.height && Complete(nd.height, nd.index, |leaves|) && Under(Indices(claims), k, nd)
    requires var r := Climb(merge, k, nd.height, claims, proof);
      r.Some? && r.value.0 == NodeHash(merge, leaves, nd)
    ensures TrueAt(merge, leaves, k, claims)
    decreases nd.height - k
  {
    if k < nd.height {
      var (up, rest) := ClimbLevel(merge, claims, proof).value;
      LevelIndices(merge, claims, proof);
      LevelUnder(Indices(claims), k, nd);
      ClimbSound(merge, leaves, k + 1, nd, up, rest);
      ClimbLevelSound(merge, leaves, k, claims, proof);
    }
  }

  lemma {:induction false} ClaimParts<T>(claims: seq<Claim<T>>, bound: nat)
    ensures Indices(TakeClaims(claims, bound)) == TakeBelow(Indices(claims), bound)
    ensures Indices(DropClaims(claims, bound)) == DropBelow(Indices(claims), bound)
    ensures claims == TakeClaims(claims, bound) + DropClaims(claims, bound)
  {
    if claims != [] && claims[0].0 < bound {
      ClaimParts(claims[1..], bound);
      var t := TakeClaims(claims[1..], bound);
      assert ([claims[0]] + t)[1..] == t;
      PairedIndices(claims);
    }
  }

  lemma {:induction false} TrueTogether<T>(
    merge: (T, T) -> T, leaves: seq<T>, k: nat, some: seq<Claim<T>>, more: seq<Claim<T>>)
    requires TrueAt(merge, leaves, k, some) && TrueAt(merge, leaves, k, more)
    ensures TrueAt(merge, leaves, k, some + more)
  {
    if some == [] {
      assert some + more == more;
    } else {
      TrueTogether(merge, leaves, k, some[1..], more);
      assert (some + more)[1..] == some[1..] + more;
    }
  }

  lemma {:induction false} RootParts<T>(merge: (T, T) -> T, peaks: seq<Node>, claims: seq<Claim<T>>, proof: seq<T>)
    returns (p: T, rest: seq<T>, right: T)
    requires |peaks| > 1 && claims != [] && RootFromProof(merge, peaks, claims, proof).Some?
    ensures FirstPeak(merge, peaks[0], TakeClaims(claims, End(peaks[0])), proof) == Some((p, rest))
    ensures RootFromProof(merge, peaks[1..], DropClaims(claims, End(peaks[0])), rest) == Some(right)
    ensures RootFromProof(merge, peaks, claims, proof) == Some(merge(right, p))
  {
    hide FirstPeak, TakeClaims, DropClaims, Shl;
    var first := FirstPeak(merge, peaks[0], TakeClaims(claims, End(peaks[0])), proof).value;
    p, rest := first.0, first.1;
    right := RootFromProof(merge, peaks[1..], DropClaims(claims, End(peaks[0])), rest).value;
  }

  lemma {:induction false} BagInjective<T(!new)>(
    merge: (T, T) -> T, leaves: seq<T>, peaks: seq<Node>, right: T, p: T)
    requires Injective(merge) && |peaks| > 1 && AllComplete(peaks, |leaves|)
    requires merge(right, p) == Bag(merge, NodeHashes(merge, leaves, peaks))
    ensures p == NodeHash(merge, leaves, peaks[0])
    ensures right == Bag(merge, NodeHashes(merge, leaves, peaks[1..]))
  {
    assert Merged(merge, right, p)
        == Merged(merge, Bag(merge, NodeHashes(merge, leaves, peaks[1..])), NodeHash(merge, leaves, peaks[0]));
  }

  lemma {:induction false} RootFromProofSound<T(!new)>(
    merge: (T, T) -> T, leaves: seq<T>, from: nat, peaks: seq<Node>, claims: seq<Claim<T>>, proof: seq<T>)
    requires Injective(merge)
    requires peaks != [] && Covered(from, peaks, |leaves|, Indices(claims))
    requires AllComplete(peaks, |leaves|)
    requires RootFromProof(merge, peaks, claims, proof) == Some(Bag(merge, NodeHashes(merge, leaves, peaks)))
    ensures TrueAt(merge, leaves, 0, claims)
    decreases |peaks|
  {
    if claims != [] {
      FirstMountain(from, peaks, |leaves|, Indices(claims));
      ClaimParts(claims, End(peaks[0]));
      var mine, others := TakeClaims(claims, End(peaks[0])), DropClaims(claims, End(peaks[0]));
      if |peaks| > 1 {
        var p, rest, right := RootParts(merge, peaks, claims, proof);
        BagInjective(merge, leaves, peaks, right, p);
        RootFromProofSound(merge, leaves, End(peaks[0]), peaks[1..], others, rest);
      }
      if mine != [] {
        ClimbSound(merge, leaves, 0, peaks[0], mine, proof);
      }
      TrueTogether(merge, leaves, 0, mine, others);
    }
  }

  /** Whatever proof is supplied, recomputing the root of the range needs the range's own leaves. */
  lemma {:induction false} ProofSoundness<T(!new)>(
    merge: (T, T) -> T, leaves: seq<T>, claims: seq<Claim<T>>, proof: seq<T>)
    requires Injective(merge) && leaves != []
    requires Sorted(Indices(claims)) && Within(Indices(claims), 0, |leaves|)
    requires RootFromProof(merge, PeakNodes(|leaves|), claims, proof) == Some(Root(merge, leaves))
    ensures forall i :: 0 <= i < |claims| ==> claims[i].0 < |leaves| && claims[i].1 == leaves[claims[i].0]
  {
    PeaksComplete(|leaves|);
    RootFromProofSound(merge, leaves, 0, PeakNodes(|leaves|), claims, proof);
    LeavesTrue(merge, leaves, claims);
  }

  lemma {:induction false} LeavesTrue<T>(merge: (T, T) -> T, leaves: seq<T>, claims: seq<Claim<T>>)
    requires TrueAt(merge, leaves, 0, claims)
    ensures forall i :: 0 <= i < |claims| ==> claims[i].0 < |leaves| && claims[i].1 == leaves[claims[i].0]
  {
    if claims != [] {
      LeavesTrue(merge, leaves, claims[1..]);
    }
  }
}
