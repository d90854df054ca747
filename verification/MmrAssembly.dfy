/**
 * Why going through the mountains from the left, counting the trailing ones without a proven leaf
 * and bagging those at the end, assembles the proof.
 */
module MmrAssembly {
  import opened Powers
  import opened Positions
  import opened Forest
  import opened Proofs

  lemma {:induction false} ContiguousJoin(from: nat, some: seq<Node>, mid: nat, more: seq<Node>, to: nat)
    requires Contiguous(from, some, mid) && Contiguous(mid, more, to)
    ensures Contiguous(from, some + more, to)
    decreases |some|
  {
    hide Shl;
    if some == [] {
      assert some + more == more;
    } else {
      assert (some + more)[1..] == some[1..] + more;
      ContiguousJoin(Shl(some[0].index + 1, some[0].height), some[1..], mid, more, to);
    }
  }

  lemma {:induction false} HashesJoin<T>(merge: (T, T) -> T, leaves: seq<T>, some: seq<Node>, nd: Node)
    requires AllComplete(some, |leaves|) && Complete(nd.height, nd.index, |leaves|)
    ensures AllComplete(some + [nd], |leaves|)
    ensures NodeHashes(merge, leaves, some + [nd]) == NodeHashes(merge, leaves, some) + [NodeHash(merge, leaves, nd)]
  {
    hide Complete, NodeHash;
    if some == [] {
      assert some + [nd] == [nd];
    } else {
      assert (some + [nd])[1..] == some[1..] + [nd];
      HashesJoin(merge, leaves, some[1..], nd);
    }
  }

  /** A mountain before the first remaining leaf contributes its peak. */
  lemma {:induction false} SkipFirst<T>(merge: (T, T) -> T, leaves: seq<T>, from: nat, peaks: seq<Node>, js: seq<nat>)
    requires Covered(from, peaks, |leaves|, js) && js != [] && peaks != [] && End(peaks[0]) <= js[0]
    ensures Complete(peaks[0].height, peaks[0].index, |leaves|)
    ensures Covered(End(peaks[0]), peaks[1..], |leaves|, js)
    ensures FullProof(merge, leaves, from, peaks, js)
         == [NodeHash(merge, leaves, peaks[0])] + FullProof(merge, leaves, End(peaks[0]), peaks[1..], js)
  {
    FirstMountain(from, peaks, |leaves|, js);
    hide Complete, NodeHash, Within, Sorted, Contiguous, Shl;
  }

  lemma {:induction false} SkipEmpty<T>(
    merge: (T, T) -> T, leaves: seq<T>, from: nat, passed: seq<Node>, mid: nat, ahead: seq<Node>, js: seq<nat>)
    requires Contiguous(from, passed, mid) && Covered(mid, ahead, |leaves|, js) && js != []
    requires AllComplete(passed, |leaves|) && Covered(from, passed + ahead, |leaves|, js)
    ensures FullProof(merge, leaves, from, passed + ahead, js)
         == NodeHashes(merge, leaves, passed) + FullProof(merge, leaves, mid, ahead, js)
    decreases |passed|
  {
    if passed == [] {
      assert passed + ahead == ahead;
    } else {
      assert (passed + ahead)[0] == passed[0] && (passed + ahead)[1..] == passed[1..] + ahead;
      ContiguousEnds(End(passed[0]), passed[1..], mid);
      SkipFirst(merge, leaves, from, passed + ahead, js);
      SkipEmpty(merge, leaves, End(passed[0]), passed[1..], mid, ahead, js);
      hide Complete, NodeHash, Within, Sorted, Contiguous, Shl, FullProof, Covered;
      Assoc([NodeHash(merge, leaves, passed[0])], NodeHashes(merge, leaves, passed[1..]),
            FullProof(merge, leaves, mid, ahead, js));
    }
  }

  lemma {:induction false} Assoc<T>(a: seq<T>, b: seq<T>, c: seq<T>)
    ensures a + (b + c) == a + b + c
  {
  }

  lemma {:induction false} Assoc4<T>(a: seq<T>, b: seq<T>, c: seq<T>, d: seq<T>)
    ensures a + (b + (c + d)) == a + b + c + d
  {
  }

  /**
   * The state of the assembly: the mountains `passed`, from leaf `from` to `mid`, had no proven
   * leaf, those `ahead` are not yet visited, `todo` are the leaves not yet reached, and `out` is
   * `done` followed by the peaks passed since.
   */
  ghost predicate Assembling<T>(
    merge: (T, T) -> T, leaves: seq<T>, from: nat, passed: seq<Node>, mid: nat, ahead: seq<Node>, todo: seq<nat>,
    done: seq<T>, out: seq<T>, full: seq<T>)
  {
    && Contiguous(from, passed, mid) && AllComplete(passed, |leaves|)
    && Covered(mid, ahead, |leaves|, todo)
    && Covered(from, passed + ahead, |leaves|, todo)
    && done + FullProof(merge, leaves, from, passed + ahead, todo) == full
    && out == done + NodeHashes(merge, leaves, passed)
  }

  /** A mountain without leaves. */
  lemma {:induction false} AssembleEmpty<T>(
    merge: (T, T) -> T, leaves: seq<T>, from: nat, passed: seq<Node>, mid: nat, ahead: seq<Node>, todo: seq<nat>,
    done: seq<T>, out: seq<T>, full: seq<T>)
    requires ahead != [] && Assembling(merge, leaves, from, passed, mid, ahead, todo, done, out, full)
    requires TakeBelow(todo, End(ahead[0])) == []
    ensures Complete(ahead[0].height, ahead[0].index, |leaves|)
    ensures DropBelow(todo, End(ahead[0])) == todo
    ensures Assembling(merge, leaves, from, passed + [ahead[0]], End(ahead[0]), ahead[1..], todo, done,
                       out + [NodeHash(merge, leaves, ahead[0])], full)
  {
    hide Complete, NodeHash, Within, Sorted, Contiguous, Shl, FullProof, AllComplete, TakeBelow, DropBelow, NodeHashes;
    var nd := ahead[0];
    PassMountain(mid, ahead, |leaves|, todo);
    HashesJoin(merge, leaves, passed, nd);
    ContiguousJoin(from, passed, mid, [nd], End(nd));
    assert (passed + [nd]) + ahead[1..] == passed + ahead;
    Assoc(done, NodeHashes(merge, leaves, passed), [NodeHash(merge, leaves, nd)]);
  }

  lemma {:induction false} PassMountain(mid: nat, ahead: seq<Node>, to: nat, todo: seq<nat>)
    requires ahead != [] && Covered(mid, ahead, to, todo)
    requires TakeBelow(todo, End(ahead[0])) == []
    ensures Complete(ahead[0].height, ahead[0].index, to)
    ensures DropBelow(todo, End(ahead[0])) == todo
    ensures Covered(End(ahead[0]), ahead[1..], to, todo)
    ensures Contiguous(mid, [ahead[0]], End(ahead[0]))
  {
    FirstMountain(mid, ahead, to, todo);
    assert [ahead[0]][1..] == [];
  }

  /** A mountain with leaves. */
  lemma {:induction false} AssembleLeaves<T>(
    merge: (T, T) -> T, leaves: seq<T>, from: nat, passed: seq<Node>, mid: nat, ahead: seq<Node>, todo: seq<nat>,
    done: seq<T>, out: seq<T>, full: seq<T>)
    requires ahead != [] && Assembling(merge, leaves, from, passed, mid, ahead, todo, done, out, full)
    requires TakeBelow(todo, End(ahead[0])) != []
    ensures Complete(ahead[0].height, ahead[0].index, |leaves|)
    ensures Under(TakeBelow(todo, End(ahead[0])), 0, ahead[0])
    ensures var out' := out + SubtreeProof(merge, leaves, 0, TakeBelow(todo, End(ahead[0])), ahead[0]);
      Assembling(merge, leaves, End(ahead[0]), [], End(ahead[0]), ahead[1..], DropBelow(todo, End(ahead[0])),
                 out', out', full)
  {
    var nd := ahead[0];
    var mine, rest := TakeBelow(todo, End(nd)), DropBelow(todo, End(nd));
    FirstMountain(mid, ahead, |leaves|, todo);
    SkipEmpty(merge, leaves, from, passed, mid, ahead, todo);
    var path := SubtreeProof(merge, leaves, 0, mine, nd);
    var tail := FullProof(merge, leaves, End(nd), ahead[1..], rest);
    assert FullProof(merge, leaves, mid, ahead, todo) == path + tail;
    hide Complete, NodeHash, Within, Sorted, Shl, FullProof, TakeBelow, DropBelow, SubtreeProof;
    Assoc4(done, NodeHashes(merge, leaves, passed), path, tail);
    assert [] + ahead[1..] == ahead[1..];
    assert out + path + [] == out + path;
  }

  /** All mountains visited: no leaf is left, and the peaks passed last make one bag. */
  lemma {:induction false} AssembleEnd<T>(
    merge: (T, T) -> T, leaves: seq<T>, from: nat, passed: seq<Node>, mid: nat, todo: seq<nat>,
    done: seq<T>, out: seq<T>, full: seq<T>)
    requires Assembling(merge, leaves, from, passed, mid, [], todo, done, out, full)
    ensures todo == []
    ensures |out| == |done| + |passed| && out[..|done|] == done
    ensures full == if passed == [] then done else done + [Bag(merge, out[|done|..])]
    ensures |passed| == 1 ==> full == out
  {
    SortedLength(todo, mid, mid);
    assert passed + [] == passed;
    assert out[|done|..] == NodeHashes(merge, leaves, passed);
    assert done + [] == done;
  }
}
