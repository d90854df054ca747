/**
 * Why walking a queue of positions generates the proof of a mountain. The queue holds what is left
 * of the current level followed by the parents already found; these lemmas describe one turn.
 */
module MmrQueue {
  import opened Powers
  import opened Positions
  import opened Forest
  import opened Proofs

  type Entry = (nat, nat)

  /** Queue entries `(position, height)` for the nodes `js` of height `k`. */
  function Entries(k: nat, js: seq<nat>): (r: seq<Entry>)
    ensures |r| == |js|
  {
    if js == [] then [] else [(Pos(k, js[0]), k)] + Entries(k, js[1..])
  }

  lemma {:induction false} EntriesShape(k: nat, js: seq<nat>, more: seq<Entry>)
    ensures js == [] ==> Entries(k, js) + more == more
    ensures js != [] ==>
      var q := Entries(k, js) + more;
      q != [] && q[0] == (Pos(k, js[0]), k) && q[1..] == Entries(k, js[1..]) + more
  {
    hide Pos;
  }

  lemma {:induction false} EntriesAppend(k: nat, js: seq<nat>, j: nat)
    ensures Entries(k, js + [j]) == Entries(k, js) + [(Pos(k, j), k)]
  {
    hide Pos;
    if js == [] {
      assert js + [j] == [j];
    } else {
      assert (js + [j])[1..] == js[1..] + [j];
      EntriesAppend(k, js[1..], j);
    }
  }

  /** The parents found so far are queued unless they are the peak itself. */
  function UpEntries(k: nat, up: seq<nat>, nd: Node): seq<Entry> {
    if k + 1 < nd.height then Entries(k + 1, up) else []
  }

  /** The queue while height `k` is walked: `rest` to go, the parents `up` already found. */
  function QueueAt(k: nat, rest: seq<nat>, up: seq<nat>, nd: Node): seq<Entry> {
    Entries(k, rest) + UpEntries(k, up, nd)
  }

  ghost predicate Walking(k: nat, rest: seq<nat>, up: seq<nat>, nd: Node) {
    && k < nd.height && Under(rest, k, nd) && Sorted(rest)
    && Under(up + LevelParents(rest), k + 1, nd) && Sorted(up + LevelParents(rest))
  }

  /** What the walk still has to append to the proof. */
  function Remaining<T>(merge: (T, T) -> T, leaves: seq<T>, k: nat, rest: seq<nat>, up: seq<nat>, nd: Node): seq<T>
    requires k < nd.height && Complete(nd.height, nd.index, |leaves|)
    requires Under(rest, k, nd) && Under(up + LevelParents(rest), k + 1, nd)
  {
    LevelUnder(rest, k, nd);
    UnderComplete(k, LevelSiblings(rest), nd, |leaves|);
    HashesAt(merge, leaves, k, LevelSiblings(rest))
    + SubtreeProof(merge, leaves, k + 1, up + LevelParents(rest), nd)
  }

  // ----- positions -----

  lemma {:induction false} ChildBelowParent(k: nat, j: nat)
    ensures Pos(k, j) < Pos(k + 1, j / 2)
  {
    hide Pos;
    if j % 2 == 0 {
      assert j == 2 * (j / 2);
      SiblingPos(k, j / 2);
    } else {
      assert j == 2 * (j / 2) + 1;
      ParentPos(k, j / 2);
    }
  }

  lemma {:induction false} UnderBelowPeak(j: nat, k: nat, nd: Node)
    requires k <= nd.height
    requires Shl(nd.index, nd.height - k) <= j < Shl(nd.index + 1, nd.height - k)
    ensures Pos(k, j) <= PosOf(nd)
    ensures Pos(k, j) == PosOf(nd) <==> k == nd.height
    decreases nd.height - k
  {
    hide Pos;
    if k < nd.height {
      UnderBelowPeak(j / 2, k + 1, nd);
      ChildBelowParent(k, j);
    }
  }

  /** Sibling and parent position of the node at `pos`, told apart by the height that follows. */
  function Family(pos: nat, height: nat): (int, nat) {
    if PosHeight(pos + 1) > height then (pos - SiblingOffset(height), pos + 1)
    else (pos + SiblingOffset(height), pos + ParentOffset(height))
  }

  lemma {:induction false} FamilyAt(k: nat, j: nat)
    ensures Family(Pos(k, j), k) == (Pos(k, Sibling(j)), Pos(k + 1, j / 2))
  {
    hide Pos, PosHeight, Pow2;
    HeightAfterPos(k, j);
    SiblingPos(k, j / 2);
    ParentPos(k, j / 2);
    assert j % 2 == 0 ==> j == 2 * (j / 2);
    assert j % 2 == 1 ==> j == 2 * (j / 2) + 1;
  }

  // ----- one turn -----

  predicate Dropped(queue: seq<Entry>)
    requires queue != []
  {
    |queue| > 1 && queue[1].0 == Family(queue[0].0, queue[0].1).0
  }

  /** The queue after a turn on the front entry. */
  function Turned(queue: seq<Entry>, peakPos: nat): seq<Entry>
    requires queue != []
  {
    var parent := Family(queue[0].0, queue[0].1).1;
    var q := if Dropped(queue) then queue[1..][1..] else queue[1..];
    if parent < peakPos then q + [(parent, queue[0].1 + 1)] else q
  }

  /** The sibling is next in the queue exactly when it is the next index of the level. */
  lemma {:induction false} SiblingNext(k: nat, rest: seq<nat>, up: seq<nat>, nd: Node)
    requires rest != [] && Sorted(rest)
    ensures QueueAt(k, rest, up, nd) != [] && Dropped(QueueAt(k, rest, up, nd)) == Paired(rest)
  {
    var s := Sibling(rest[0]);
    var more := UpEntries(k, up, nd);
    FamilyAt(k, rest[0]);
    EntriesShape(k, rest, more);
    EntriesShape(k, rest[1..], more);
    EntriesShape(k + 1, up, []);
    assert Entries(k + 1, up) + [] == Entries(k + 1, up);
    hide Pos, Family, Entries;
    if |rest| > 1 {
      if Pos(k, rest[1]) == Pos(k, s) {
        PosInjective(k, rest[1], k, s);
      }
    } else if up != [] {
      if Pos(k + 1, up[0]) == Pos(k, s) {
        PosInjective(k + 1, up[0], k, s);
      }
    }
  }

  lemma {:induction false} FamilyUnder(k: nat, rest: seq<nat>, nd: Node)
    requires k < nd.height && rest != [] && Under(rest, k, nd)
    ensures Pos(k, rest[0]) != PosOf(nd)
    ensures Family(Pos(k, rest[0]), k) == (Pos(k, Sibling(rest[0])), Pos(k + 1, rest[0] / 2))
    ensures Pos(k + 1, rest[0] / 2) < PosOf(nd) <==> k + 1 < nd.height
  {
    UnderBelowPeak(rest[0], k, nd);
    UnderBelowPeak(rest[0] / 2, k + 1, nd);
    FamilyAt(k, rest[0]);
  }

  /** The entries after a turn, by index. */
  lemma {:induction false} EntriesTurned(k: nat, rest: seq<nat>, up: seq<nat>, nd: Node)
    requires rest != []
    ensures var q := QueueAt(k, rest, up, nd);
      var q' := if Paired(rest) then q[1..][1..] else q[1..];
      && q != [] && q[0] == (Pos(k, rest[0]), k)
      && (if k + 1 < nd.height then q' + [(Pos(k + 1, rest[0] / 2), k + 1)] else q')
         == QueueAt(k, AfterFirst(rest), up + [rest[0] / 2], nd)
  {
    EntriesAppend(k + 1, up, rest[0] / 2);
    var more := UpEntries(k, up, nd);
    EntriesShape(k, rest, more);
    EntriesShape(k, rest[1..], more);
    hide Pos, Entries;
    var e := (Pos(k + 1, rest[0] / 2), k + 1);
    assert Entries(k, AfterFirst(rest)) + more + [e] == Entries(k, AfterFirst(rest)) + (more + [e]);
  }

  lemma {:induction false} TurnedQueue(k: nat, rest: seq<nat>, up: seq<nat>, nd: Node)
    requires rest != [] && Walking(k, rest, up, nd)
    ensures var q := QueueAt(k, rest, up, nd);
      && q != [] && q[0].0 != PosOf(nd)
      && Family(q[0].0, q[0].1).0 == Pos(k, Sibling(rest[0]))
      && Dropped(q) == Paired(rest)
      && Turned(q, PosOf(nd)) == QueueAt(k, AfterFirst(rest), up + [rest[0] / 2], nd)
  {
    FamilyUnder(k, rest, nd);
    SiblingNext(k, rest, up, nd);
    EntriesTurned(k, rest, up, nd);
    hide Pos, Family, QueueAt, Entries, Dropped, Walking, AfterFirst, Paired;
  }

  lemma {:induction false} ParentsShift(rest: seq<nat>, up: seq<nat>)
    requires rest != []
    ensures (up + [rest[0] / 2]) + LevelParents(AfterFirst(rest)) == up + LevelParents(rest)
  {
  }

  lemma {:induction false} SortedTail(js: seq<nat>, lo: nat, hi: nat)
    requires js != [] && Sorted(js) && Within(js, lo, hi)
    ensures Sorted(AfterFirst(js)) && Within(AfterFirst(js), lo, hi)
  {
  }

  /** A turn leads to the same walk, one parent further. */
  lemma {:induction false} WalkStep(k: nat, rest: seq<nat>, up: seq<nat>, nd: Node)
    requires rest != [] && Walking(k, rest, up, nd)
    ensures Walking(k, AfterFirst(rest), up + [rest[0] / 2], nd)
  {
    ParentsShift(rest, up);
    SortedTail(rest, Shl(nd.index, nd.height - k), Shl(nd.index + 1, nd.height - k));
  }

  lemma {:induction false} SiblingHash<T>(
    merge: (T, T) -> T, leaves: seq<T>, store: Store<T>, k: nat, rest: seq<nat>, nd: Node)
    requires Represents(merge, leaves, store) && Complete(nd.height, nd.index, |leaves|)
    requires k < nd.height && rest != [] && Under(rest, k, nd)
    ensures var s := Sibling(rest[0]);
      && Complete(k, s, |leaves|) && Pos(k, s) in store && store[Pos(k, s)] == Hash(merge, leaves, k, s)
  {
    var s := Sibling(rest[0]);
    var lo, hi := Shl(nd.index, nd.height - k - 1), Shl(nd.index + 1, nd.height - k - 1);
    assert 2 * lo <= s < 2 * hi;
    assert [s][1..] == [];
    UnderComplete(k, [s], nd, |leaves|);
    hide Pos, Hash;
  }

  lemma {:induction false} HashesSplit<T>(merge: (T, T) -> T, leaves: seq<T>, k: nat, rest: seq<nat>, more: seq<T>)
    requires rest != [] && CompleteAt(k, LevelSiblings(rest), |leaves|)
    requires CompleteAt(k, LevelSiblings(AfterFirst(rest)), |leaves|)
    requires Complete(k, Sibling(rest[0]), |leaves|)
    ensures HashesAt(merge, leaves, k, LevelSiblings(rest)) + more
         == (if Paired(rest) then [] else [Hash(merge, leaves, k, Sibling(rest[0]))])
            + (HashesAt(merge, leaves, k, LevelSiblings(AfterFirst(rest))) + more)
  {
  }

  /** What remains after a turn. */
  lemma {:induction false} RemainingStep<T>(
    merge: (T, T) -> T, leaves: seq<T>, k: nat, rest: seq<nat>, up: seq<nat>, nd: Node)
    requires Complete(nd.height, nd.index, |leaves|)
    requires rest != [] && Walking(k, rest, up, nd) && Complete(k, Sibling(rest[0]), |leaves|)
    requires Walking(k, AfterFirst(rest), up + [rest[0] / 2], nd)
    ensures Remaining(merge, leaves, k, rest, up, nd)
         == (if Paired(rest) then [] else [Hash(merge, leaves, k, Sibling(rest[0]))])
            + Remaining(merge, leaves, k, AfterFirst(rest), up + [rest[0] / 2], nd)
  {
    LevelUnder(rest, k, nd);
    LevelUnder(AfterFirst(rest), k, nd);
    UnderComplete(k, LevelSiblings(rest), nd, |leaves|);
    UnderComplete(k, LevelSiblings(AfterFirst(rest)), nd, |leaves|);
    ParentsShift(rest, up);
    hide Hash, Complete, CompleteAt, Sorted, Within, LevelSiblings, LevelParents, AfterFirst, HashesAt;
    HashesSplit(merge, leaves, k, rest, SubtreeProof(merge, leaves, k + 1, up + LevelParents(rest), nd));
  }

  lemma {:induction false} TurnedProof<T>(
    merge: (T, T) -> T, leaves: seq<T>, store: Store<T>, nd: Node, k: nat, rest: seq<nat>, up: seq<nat>,
    out: seq<T>, target: seq<T>)
    requires Represents(merge, leaves, store) && Complete(nd.height, nd.index, |leaves|)
    requires rest != [] && Walking(k, rest, up, nd) && out + Remaining(merge, leaves, k, rest, up, nd) == target
    ensures Pos(k, Sibling(rest[0])) in store
    ensures Walking(k, AfterFirst(rest), up + [rest[0] / 2], nd)
    ensures (if Paired(rest) then out else out + [store[Pos(k, Sibling(rest[0]))]])
            + Remaining(merge, leaves, k, AfterFirst(rest), up + [rest[0] / 2], nd) == target
  {
    SiblingHash(merge, leaves, store, k, rest, nd);
    WalkStep(k, rest, up, nd);
    hide Hash, Complete, Remaining, Represents, Pos;
    RemainingStep(merge, leaves, k, rest, up, nd);
  }

  // ----- levels -----

  lemma {:induction false} StartLevel(js: seq<nat>, nd: Node)
    requires nd.height > 0 && Under(js, 0, nd) && Sorted(js)
    ensures Walking(0, js, [], nd)
    ensures QueueAt(0, js, [], nd) == Entries(0, js)
  {
    assert [] + LevelParents(js) == LevelParents(js);
    LevelUnder(js, 0, nd);
    ParentsSorted(js);
  }

  /** The end of a level: its parents are the next level. */
  lemma {:induction false} NextLevel(k: nat, up: seq<nat>, nd: Node)
    requires k + 1 < nd.height && Under(up, k + 1, nd) && Sorted(up)
    ensures Walking(k + 1, up, [], nd)
    ensures QueueAt(k, [], up, nd) == QueueAt(k + 1, up, [], nd)
  {
    assert [] + LevelParents(up) == LevelParents(up);
    LevelUnder(up, k + 1, nd);
    ParentsSorted(up);
  }

  lemma {:induction false} NextLevelRemaining<T>(merge: (T, T) -> T, leaves: seq<T>, k: nat, up: seq<nat>, nd: Node)
    requires k + 1 < nd.height && Complete(nd.height, nd.index, |leaves|)
    requires Under(up + LevelParents([]), k + 1, nd) && Under(up, k + 1, nd)
    requires Under([] + LevelParents(up), k + 2, nd)
    ensures Remaining(merge, leaves, k, [], up, nd) == Remaining(merge, leaves, k + 1, up, [], nd)
  {
    assert up + LevelParents([]) == up;
    assert [] + LevelParents(up) == LevelParents(up);
  }

  /** Whether on the same level or the next, what is queued and what remains are the same. */
  lemma {:induction false} AfterTurn<T>(
    merge: (T, T) -> T, leaves: seq<T>, nd: Node, k: nat, rest: seq<nat>, up: seq<nat>)
    returns (k': nat, rest': seq<nat>, up': seq<nat>)
    requires Complete(nd.height, nd.index, |leaves|) && Walking(k, rest, up, nd) && up != []
    ensures QueueAt(k, rest, up, nd) == [] ==> Remaining(merge, leaves, k, rest, up, nd) == []
    ensures QueueAt(k, rest, up, nd) != [] ==>
      && rest' != [] && Walking(k', rest', up', nd) && QueueAt(k', rest', up', nd) == QueueAt(k, rest, up, nd)
      && Remaining(merge, leaves, k', rest', up', nd) == Remaining(merge, leaves, k, rest, up, nd)
  {
    k', rest', up' := k, rest, up;
    if rest == [] {
      assert up + LevelParents(rest) == up;
      if k + 1 < nd.height {
        NextLevel(k, up, nd);
        NextLevelRemaining(merge, leaves, k, up, nd);
        k', rest', up' := k + 1, up, [];
      }
    }
  }

  /** The walk is under way with this queue and this much of the proof, or it is complete. */
  ghost predicate WalkState<T>(merge: (T, T) -> T, leaves: seq<T>, nd: Node, k: nat, rest: seq<nat>, up: seq<nat>,
                               queue: seq<Entry>, out: seq<T>, target: seq<T>)
    requires Complete(nd.height, nd.index, |leaves|)
  {
    if queue == [] then out == target
    else
      && rest != [] && Walking(k, rest, up, nd) && queue == QueueAt(k, rest, up, nd)
      && out + Remaining(merge, leaves, k, rest, up, nd) == target
  }

  /** One whole turn of the walk. */
  lemma {:induction false} WholeTurn<T>(
    merge: (T, T) -> T, leaves: seq<T>, store: Store<T>, nd: Node, k: nat, rest: seq<nat>, up: seq<nat>,
    queue: seq<Entry>, out: seq<T>, target: seq<T>) returns (k': nat, rest': seq<nat>, up': seq<nat>)
    requires Represents(merge, leaves, store) && Complete(nd.height, nd.index, |leaves|)
    requires queue != [] && WalkState(merge, leaves, nd, k, rest, up, queue, out, target)
    ensures queue[0].0 != PosOf(nd)
    ensures Family(queue[0].0, queue[0].1).0 in store
    ensures WalkState(merge, leaves, nd, k', rest', up', Turned(queue, PosOf(nd)),
                      if Dropped(queue) then out else out + [store[Family(queue[0].0, queue[0].1).0]], target)
  {
    TurnedQueue(k, rest, up, nd);
    TurnedProof(merge, leaves, store, nd, k, rest, up, out, target);
    hide Represents, Complete, Walking, QueueAt, Family, Dropped, Turned, Pos, AfterFirst, Paired;
    k', rest', up' := AfterTurn(merge, leaves, nd, k, AfterFirst(rest), up + [rest[0] / 2]);
  }

  // ----- termination, for any queue -----

  function Weight(q: seq<Entry>, peak: nat): nat {
    if q == [] then 0 else 1 + (if q[0].0 < peak then peak - q[0].0 else 0) + Weight(q[1..], peak)
  }

  lemma {:induction false} WeightAppend(q: seq<Entry>, e: Entry, peak: nat)
    ensures Weight(q + [e], peak) == Weight(q, peak) + Weight([e], peak)
  {
    if q != [] {
      WeightAppend(q[1..], e, peak);
      assert (q + [e])[1..] == q[1..] + [e];
    }
  }

  lemma {:induction false} TurnedWeight(queue: seq<Entry>, peak: nat)
    requires queue != [] && queue[0].0 != peak
    ensures Weight(Turned(queue, peak), peak) < Weight(queue, peak)
  {
    var (_, parent) := Family(queue[0].0, queue[0].1);
    assert parent > queue[0].0;
    hide Family;
    var e := (parent, queue[0].1 + 1);
    var q := if Dropped(queue) then queue[1..][1..] else queue[1..];
    assert Weight(q, peak) <= Weight(queue[1..], peak);
    WeightAppend(q, e, peak);
    assert Weight([e], peak) == 1 + if parent < peak then peak - parent else 0;
  }
}
