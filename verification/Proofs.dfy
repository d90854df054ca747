/**
 * Merkle proofs over a mountain range, by node coordinates: which hashes a proof for a set of
 * leaves consists of, and how a root is recomputed from leaves and proof. A proof holds, mountain
 * by mountain from the left, the sibling hashes level by level, the peaks of mountains without a
 * proven leaf, and at its end one bag of the peaks to the right of the last proven leaf.
 */
module Proofs {
  import opened Wrappers
  import opened Powers
  import opened Positions
  import opened Forest

  /** Strictly ascending. */
  predicate Sorted(js: seq<nat>) {
    |js| < 2 || (js[0] < js[1] && Sorted(js[1..]))
  }

  predicate Within(js: seq<nat>, lo: nat, hi: nat) {
    js == [] || (lo <= js[0] < hi && Within(js[1..], lo, hi))
  }

  predicate StartsFrom(js: seq<nat>, lo: nat) {
    js == [] || lo <= js[0]
  }

  lemma {:induction false} SortedWithin(js: seq<nat>, lo: nat, hi: nat, lo': nat)
    requires Sorted(js) && Within(js, lo, hi) && StartsFrom(js, lo')
    ensures Within(js, lo', hi)
  {
    if js != [] {
      SortedWithin(js[1..], lo, hi, lo');
    }
  }

  lemma {:induction false} SortedLength(js: seq<nat>, lo: nat, hi: nat)
    requires Sorted(js) && Within(js, lo, hi) && lo <= hi
    ensures |js| <= hi - lo
    decreases |js|
  {
    if js != [] {
      SortedWithin(js[1..], lo, hi, js[0] + 1);
      SortedLength(js[1..], js[0] + 1, hi);
    }
  }

  // ----- the indices below a bound and the others -----

  function TakeBelow(js: seq<nat>, bound: nat): seq<nat> {
    if js == [] || js[0] >= bound then [] else [js[0]] + TakeBelow(js[1..], bound)
  }

  function DropBelow(js: seq<nat>, bound: nat): seq<nat> {
    if js == [] || js[0] >= bound then js else DropBelow(js[1..], bound)
  }

  lemma {:induction false} TakeDrop(js: seq<nat>, bound: nat, lo: nat, hi: nat)
    requires Sorted(js) && Within(js, lo, hi)
    ensures js == TakeBelow(js, bound) + DropBelow(js, bound)
    ensures Sorted(TakeBelow(js, bound)) && Within(TakeBelow(js, bound), lo, bound)
    ensures Sorted(DropBelow(js, bound)) && Within(DropBelow(js, bound), lo, hi)
      && StartsFrom(DropBelow(js, bound), bound)
    ensures js != [] && js[0] < bound <==> TakeBelow(js, bound) != []
  {
    if js != [] && js[0] < bound {
      TakeDrop(js[1..], bound, lo, hi);
      var t := TakeBelow(js[1..], bound);
      assert ([js[0]] + t)[1..] == t;
      assert t != [] ==> t[0] == js[1];
    }
  }

  // ----- one level -----

  function Sibling(j: nat): nat {
    if j % 2 == 0 then j + 1 else j - 1
  }

  /** The first two indices are siblings. */
  predicate Paired(js: seq<nat>) {
    |js| > 1 && js[0] % 2 == 0 && js[1] == js[0] + 1
  }

  function AfterFirst(js: seq<nat>): (r: seq<nat>)
    requires js != []
    ensures |r| < |js|
  {
    if Paired(js) then js[1..][1..] else js[1..]
  }

  /** The siblings a level still needs, for ascending indices. */
  function LevelSiblings(js: seq<nat>): seq<nat> {
    if js == [] then []
    else if Paired(js) then LevelSiblings(AfterFirst(js))
    else [Sibling(js[0])] + LevelSiblings(AfterFirst(js))
  }

  function LevelParents(js: seq<nat>): seq<nat> {
    if js == [] then [] else [js[0] / 2] + LevelParents(AfterFirst(js))
  }

  /** Indices of height `k` under the mountain `nd`. */
  predicate Under(js: seq<nat>, k: nat, nd: Node)
    requires k <= nd.height
  {
    Within(js, Shl(nd.index, nd.height - k), Shl(nd.index + 1, nd.height - k))
  }

  lemma {:induction false} LevelWithin(js: seq<nat>, lo: nat, hi: nat)
    requires Within(js, 2 * lo, 2 * hi)
    ensures Within(LevelSiblings(js), 2 * lo, 2 * hi)
    ensures Within(LevelParents(js), lo, hi)
    decreases |js|
  {
    if js != [] {
      var rest := AfterFirst(js);
      LevelWithin(rest, lo, hi);
      assert ([js[0] / 2] + LevelParents(rest))[1..] == LevelParents(rest);
      assert ([Sibling(js[0])] + LevelSiblings(rest))[1..] == LevelSiblings(rest);
    }
  }

  lemma {:induction false} LevelUnder(js: seq<nat>, k: nat, nd: Node)
    requires k < nd.height && Under(js, k, nd)
    ensures Under(LevelSiblings(js), k, nd)
    ensures Under(LevelParents(js), k + 1, nd)
  {
    LevelWithin(js, Shl(nd.index, nd.height - k - 1), Shl(nd.index + 1, nd.height - k - 1));
  }

  lemma {:induction false} ParentsSorted(js: seq<nat>)
    requires Sorted(js)
    ensures Sorted(LevelParents(js))
    ensures js != [] ==> LevelParents(js) != [] && LevelParents(js)[0] == js[0] / 2
    decreases |js|
  {
    if js != [] {
      var rest := AfterFirst(js);
      ParentsSorted(rest);
      assert ([js[0] / 2] + LevelParents(rest))[1..] == LevelParents(rest);
    }
  }

  // ----- completeness of the nodes concerned -----

  predicate CompleteAt(k: nat, js: seq<nat>, n: nat) {
    js == [] || (Complete(k, js[0], n) && CompleteAt(k, js[1..], n))
  }

  lemma {:induction false} ShlShl(c: nat, a: nat, b: nat)
    ensures Shl(Shl(c, a), b) == Shl(c, a + b)
  {
    if b > 0 {
      ShlShl(c, a, b - 1);
    }
  }

  lemma {:induction false} WithinComplete(js: seq<nat>, lo: nat, hi: nat, k: nat, n: nat)
    requires Within(js, lo, hi) && Shl(hi, k) <= n
    ensures CompleteAt(k, js, n)
  {
    if js != [] {
      ShlMonotone(js[0] + 1, hi, k);
      WithinComplete(js[1..], lo, hi, k, n);
    }
  }

  lemma {:induction false} UnderComplete(k: nat, js: seq<nat>, nd: Node, n: nat)
    requires k <= nd.height && Complete(nd.height, nd.index, n) && Under(js, k, nd)
    ensures CompleteAt(k, js, n)
  {
    ShlShl(nd.index + 1, nd.height - k, k);
    WithinComplete(js, Shl(nd.index, nd.height - k), Shl(nd.index + 1, nd.height - k), k, n);
  }

  // ----- proofs -----

  function HashesAt<T>(merge: (T, T) -> T, leaves: seq<T>, k: nat, js: seq<nat>): seq<T>
    requires CompleteAt(k, js, |leaves|)
  {
    if js == [] then [] else [Hash(merge, leaves, k, js[0])] + HashesAt(merge, leaves, k, js[1..])
  }

  /** The siblings on the way from `js` at height `k` to the top of mountain `nd`, bottom up. */
  function SubtreeProof<T>(merge: (T, T) -> T, leaves: seq<T>, k: nat, js: seq<nat>, nd: Node): seq<T>
    requires k <= nd.height && Complete(nd.height, nd.index, |leaves|) && Under(js, k, nd)
    decreases nd.height - k
  {
    if k == nd.height then []
    else
      LevelUnder(js, k, nd);
      UnderComplete(k, LevelSiblings(js), nd, |leaves|);
      HashesAt(merge, leaves, k, LevelSiblings(js))
      + SubtreeProof(merge, leaves, k + 1, LevelParents(js), nd)
  }

  function End(nd: Node): nat {
    Shl(nd.index + 1, nd.height)
  }

  /** Ascending leaf indices, all under the mountains `peaks` that reach from `from` to `to`. */
  ghost predicate Covered(from: nat, peaks: seq<Node>, to: nat, js: seq<nat>) {
    Contiguous(from, peaks, to) && Sorted(js) && Within(js, from, to)
  }

  lemma {:induction false} FirstMountain(from: nat, peaks: seq<Node>, to: nat, js: seq<nat>)
    requires peaks != [] && Covered(from, peaks, to, js)
    ensures Complete(peaks[0].height, peaks[0].index, to)
    ensures var mine := TakeBelow(js, End(peaks[0]));
      Under(mine, 0, peaks[0]) && Sorted(mine)
    ensures Covered(End(peaks[0]), peaks[1..], to, DropBelow(js, End(peaks[0])))
  {
    ContiguousEnds(from, peaks, to);
    TakeDrop(js, End(peaks[0]), from, to);
    SortedWithin(DropBelow(js, End(peaks[0])), from, to, End(peaks[0]));
  }

  function FullProof<T>(merge: (T, T) -> T, leaves: seq<T>, ghost from: nat, peaks: seq<Node>, js: seq<nat>): seq<T>
    requires Covered(from, peaks, |leaves|, js)
    decreases |peaks|
  {
    if peaks == [] then []
    else if js == [] then
      ContiguousEnds(from, peaks, |leaves|);
      [Bag(merge, NodeHashes(merge, leaves, peaks))]
    else
      FirstMountain(from, peaks, |leaves|, js);
      var mine, rest := TakeBelow(js, End(peaks[0])), DropBelow(js, End(peaks[0]));
      PeakPart(merge, leaves, mine, peaks[0]) + FullProof(merge, leaves, End(peaks[0]), peaks[1..], rest)
  }

  /** What one mountain contributes: its peak, or the siblings of its proven leaves. */
  function PeakPart<T>(merge: (T, T) -> T, leaves: seq<T>, mine: seq<nat>, nd: Node): seq<T>
    requires Complete(nd.height, nd.index, |leaves|) && Under(mine, 0, nd)
  {
    if mine == [] then [NodeHash(merge, leaves, nd)] else SubtreeProof(merge, leaves, 0, mine, nd)
  }

  // ----- recomputing a root -----

  type Claim<T> = (nat, T)

  function Indices<T>(claims: seq<Claim<T>>): seq<nat> {
    if claims == [] then [] else [claims[0].0] + Indices(claims[1..])
  }

  predicate PairedClaims<T>(claims: seq<Claim<T>>) {
    |claims| > 1 && claims[0].0 % 2 == 0 && claims[1].0 == claims[0].0 + 1
  }

  /** One level up: merge siblings, taking a missing one from the front of the proof. */
  function ClimbLevel<T>(merge: (T, T) -> T, claims: seq<Claim<T>>, proof: seq<T>): Option<(seq<Claim<T>>, seq<T>)>
    decreases |claims|
  {
    if claims == [] then Some(([], proof))
    else
      var (j, v) := claims[0];
      if PairedClaims(claims) then
        match ClimbLevel(merge, claims[1..][1..], proof)
        case None => None
        case Some((up, rest)) => Some(([(j / 2, merge(v, claims[1].1))] + up, rest))
      else if proof == [] then None
      else
        match ClimbLevel(merge, claims[1..], proof[1..])
        case None => None
        case Some((up, rest)) =>
          Some(([(j / 2, if j % 2 == 0 then merge(v, proof[0]) else merge(proof[0], v))] + up, rest))
  }

  /** The peak of a mountain of height `top` from claims at height `k`, and the unused proof. */
  function Climb<T>(merge: (T, T) -> T, k: nat, top: nat, claims: seq<Claim<T>>, proof: seq<T>): Option<(T, seq<T>)>
    requires k <= top
    decreases top - k
  {
    if k == top then
      if |claims| == 1 then Some((claims[0].1, proof)) else None
    else
      match ClimbLevel(merge, claims, proof)
      case None => None
      case Some((up, rest)) => Climb(merge, k + 1, top, up, rest)
  }

  /** The peak of the leftmost mountain: climbed to from its claims, or given by the proof. */
  function FirstPeak<T>(merge: (T, T) -> T, nd: Node, claims: seq<Claim<T>>, proof: seq<T>): Option<(T, seq<T>)> {
    if claims != [] then Climb(merge, 0, nd.height, claims, proof)
    else if proof == [] then None
    else Some((proof[0], proof[1..]))
  }

  function TakeClaims<T>(claims: seq<Claim<T>>, bound: nat): seq<Claim<T>> {
    if claims == [] || claims[0].0 >= bound then [] else [claims[0]] + TakeClaims(claims[1..], bound)
  }

  function DropClaims<T>(claims: seq<Claim<T>>, bound: nat): seq<Claim<T>> {
    if claims == [] || claims[0].0 >= bound then claims else DropClaims(claims[1..], bound)
  }

  function RootFromProof<T>(merge: (T, T) -> T, peaks: seq<Node>, claims: seq<Claim<T>>, proof: seq<T>): Option<T>
    decreases |peaks|
  {
    if peaks == [] then None
    else if claims == [] then
      if |proof| == 1 then Some(proof[0]) else None
    else
      var mine, others := TakeClaims(claims, End(peaks[0])), DropClaims(claims, End(peaks[0]));
      match FirstPeak(merge, peaks[0], mine, proof)
      case None => None
      case Some((p, rest)) =>
        if |peaks| == 1 then (if rest == [] && others == [] then Some(p) else None)
        else
          match RootFromProof(merge, peaks[1..], others, rest)
          case None => None
          case Some(right) => Some(merge(right, p))
  }
}
