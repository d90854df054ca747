/**
 * The contract that collects message hashes into snapshots. Each snapshot is a Merkle mountain
 * range; `leaves` names what has been inserted into the current one. A message that fails leaves
 * the contract as it was.
 */
module StateAggregator {
  import opened Wrappers
  import opened Positions
  import opened Forest
  import opened Proofs
  import opened LeafLists
  import opened ProofTheorems
  import opened Mmr

  type AccountId = nat

  datatype Error = NotAllowed | CouldNotGenerateProof(cause: MmrError) | CouldNotInsert(cause: MmrError)
                 | InvalidBatchDuringInsert | CannotSnapshot

  /** What the contract stands for: the snapshots closed so far and the leaves of the open one. */
  datatype Ledger<T> = Ledger(startLevel: nat, counter: nat, levels: map<nat, nat>, leaves: seq<T>)

  /** Opens the first snapshot, or closes the open one once its duration has passed. */
  function Rolled<T>(l: Ledger<T>, duration: nat, block: nat): Ledger<T> {
    var l := if l.startLevel == 0 then l.(startLevel := block, leaves := []) else l;
    if l.startLevel + duration < block then
      Ledger(block, l.counter + 1, l.levels[l.counter := block - 1], [])
    else l
  }

  function Inserted<T>(l: Ledger<T>, duration: nat, block: nat, leaf: T): Ledger<T> {
    var l := Rolled(l, duration, block);
    l.(leaves := l.leaves + [leaf])
  }

  /** Levels are recorded once per closed snapshot, rise, and lie before the open one. */
  ghost predicate Ordered<T>(l: Ledger<T>, block: nat) {
    && l.startLevel <= block && 1 <= l.counter
    && (forall c :: c in l.levels <==> 1 <= c < l.counter)
    && (forall c :: c in l.levels ==> l.levels[c] < l.startLevel)
    && (forall c, d :: c in l.levels && d in l.levels && c < d ==> l.levels[c] < l.levels[d])
  }

  datatype Settings = Settings(owner: AccountId, duration: nat, provider: AccountId)

  datatype Argument = SetOwner(address: AccountId) | SetSnapshotDuration(duration: nat)
    | SetAuthorizedProvider(address: AccountId)

  function Set(s: Settings, arg: Argument): Settings {
    match arg
    case SetOwner(address) => s.(owner := address)
    case SetSnapshotDuration(duration) => s.(duration := duration)
    case SetAuthorizedProvider(address) => s.(provider := address)
  }

  function AllSet(s: Settings, args: seq<Argument>): Settings
    decreases |args|
  {
    if args == [] then s else Set(AllSet(s, args[..|args| - 1]), args[|args| - 1])
  }

  datatype Deployment<T> = Deployment(settings: Settings, ledger: Ledger<T>)

  datatype Message<T> = Insertion(caller: AccountId, leaf: T) | Closing
    | Configuration(caller: AccountId, args: seq<Argument>)

  /** What a message does; one that fails does nothing. */
  function Next<T>(d: Deployment<T>, block: nat, message: Message<T>): Deployment<T> {
    match message
    case Insertion(caller, leaf) =>
      if caller != d.settings.provider then d
      else d.(ledger := Inserted(d.ledger, d.settings.duration, block, leaf))
    case Closing =>
      var rolled := Rolled(d.ledger, d.settings.duration, block);
      if rolled.counter == d.ledger.counter then d else d.(ledger := rolled)
    case Configuration(caller, args) =>
      if caller != d.settings.owner then d else d.(settings := AllSet(d.settings, args))
  }

  /** A run of messages, each with the block it is in. */
  function Run<T>(d: Deployment<T>, messages: seq<(nat, Message<T>)>): Deployment<T>
    decreases |messages|
  {
    if messages == [] then d
    else
      var (block, last) := messages[|messages| - 1];
      Next(Run(d, messages[..|messages| - 1]), block, last)
  }

  ghost predicate Chronological<T>(messages: seq<(nat, Message<T>)>) {
    forall i, j :: 0 <= i < j < |messages| ==> messages[i].0 <= messages[j].0
  }

  /** Closed snapshots keep their level, and a message closes at most one. */
  lemma {:induction false} InsertKeepsOrder<T>(l: Ledger<T>, block: nat, duration: nat, block': nat, leaf: T)
    requires Ordered(l, block) && block <= block'
    ensures var l' := Inserted(l, duration, block', leaf);
      && Ordered(l', block')
      && l.counter <= l'.counter <= l.counter + 1
      && (forall c :: c in l.levels ==> c in l'.levels && l'.levels[c] == l.levels[c])
      && (l'.counter == l.counter + 1 ==> l'.leaves == [leaf] && l.startLevel <= l'.levels[l.counter] < block')
  {
  }

  lemma {:induction false} NextKeepsOrder<T>(d: Deployment<T>, block: nat, block': nat, message: Message<T>)
    requires Ordered(d.ledger, block) && block <= block'
    ensures var l, l' := d.ledger, Next(d, block', message).ledger;
      && Ordered(l', block')
      && l.counter <= l'.counter <= l.counter + 1
      && (forall c :: c in l.levels ==> c in l'.levels && l'.levels[c] == l.levels[c])
  {
    if message.Insertion? {
      InsertKeepsOrder(d.ledger, block, d.settings.duration, block', message.leaf);
    }
  }

  /**
   * Whatever is inserted, closed and configured, the snapshots are numbered and levelled in order, and
   * earlier ones are kept.
   */
  lemma {:induction false} RunKeepsOrder<T>(d: Deployment<T>, block: nat, messages: seq<(nat, Message<T>)>)
    requires Ordered(d.ledger, block) && Chronological(messages)
    requires messages != [] ==> block <= messages[0].0
    ensures Ordered(Run(d, messages).ledger, if messages == [] then block else messages[|messages| - 1].0)
    ensures forall c :: c in d.ledger.levels ==>
      c in Run(d, messages).ledger.levels && Run(d, messages).ledger.levels[c] == d.ledger.levels[c]
    decreases |messages|
  {
    hide Next;
    if messages != [] {
      var before := messages[..|messages| - 1];
      var (block', last) := messages[|messages| - 1];
      RunKeepsOrder(d, block, before);
      var b := if before == [] then block else before[|before| - 1].0;
      NextKeepsOrder(Run(d, before), b, block', last);
    }
  }

  // ----- when snapshots are closed -----

  /** The open snapshot began right after the last closed one, and each lasted longer than the duration. */
  ghost predicate Spaced<T>(l: Ledger<T>, duration: nat) {
    && 1 <= l.counter && (forall c :: c in l.levels ==> 1 <= c < l.counter)
    && (l.counter - 1 in l.levels ==> l.startLevel == l.levels[l.counter - 1] + 1)
    && (forall c :: c in l.levels && c + 1 in l.levels ==> l.levels[c] + duration < l.levels[c + 1])
  }

  /**
   * A snapshot is closed exactly when more than its duration has passed since it began; after that,
   * and after a leaf is inserted, the open snapshot is within its duration.
   */
  lemma {:induction false} ClosedWhenDue<T>(d: Deployment<T>, block: nat, message: Message<T>)
    ensures var l, l', due := d.ledger, Next(d, block, message).ledger,
                              0 < d.ledger.startLevel && d.ledger.startLevel + d.settings.duration < block;
      && (l'.counter == if due && Closes(d, message) then l.counter + 1 else l.counter)
      && (due && Closes(d, message) ==>
            l'.startLevel == block && l'.levels == l.levels[l.counter := block - 1] && 0 < block)
      && (!(due && Closes(d, message)) ==> l'.levels == l.levels)
      && (message.Insertion? && Closes(d, message) ==>
            && block <= l'.startLevel + d.settings.duration
            && l'.leaves == (if due || l.startLevel == 0 then [] else l.leaves) + [message.leaf])
      && (!Closes(d, message) ==> l' == l)
  {
  }

  /** Insertions by the provider and requests to close lead to a due snapshot's being closed. */
  predicate Closes<T>(d: Deployment<T>, message: Message<T>) {
    message.Closing? || (message.Insertion? && message.caller == d.settings.provider)
  }

  predicate DurationKept<T>(d: Deployment<T>, messages: seq<(nat, Message<T>)>)
    decreases |messages|
  {
    messages == [] ||
    (&& DurationKept(d, messages[..|messages| - 1])
     && Run(d, messages[..|messages| - 1]).settings.duration == d.settings.duration)
  }

  /** Over every run under one duration, closed snapshots follow each other by more than that duration. */
  lemma {:induction false} RunSpaced<T>(d: Deployment<T>, messages: seq<(nat, Message<T>)>)
    requires Spaced(d.ledger, d.settings.duration) && DurationKept(d, messages)
    ensures Spaced(Run(d, messages).ledger, d.settings.duration)
    decreases |messages|
  {
    hide Next;
    if messages != [] {
      var before := messages[..|messages| - 1];
      var (block, last) := messages[|messages| - 1];
      RunSpaced(d, before);
      NextSpaced(Run(d, before), block, last);
    }
  }

  lemma {:induction false} NextSpaced<T>(d: Deployment<T>, block: nat, message: Message<T>)
    requires Spaced(d.ledger, d.settings.duration)
    ensures Spaced(Next(d, block, message).ledger, d.settings.duration)
  {
  }

  lemma {:induction false} SetStep(s: Settings, args: seq<Argument>, i: nat)
    requires i < |args|
    ensures AllSet(s, args[..i + 1]) == Set(AllSet(s, args[..i]), args[i])
  {
    assert args[..i + 1][..i] == args[..i];
  }

  class Contract<T> {
    const merge: (T, T) -> T
    var owner: AccountId
    var snapshotDuration: nat
    var acurastContract: AccountId
    var snapshotStartLevel: nat
    var snapshotCounter: nat
    var mmrSize: nat
    var tree: Store<T>
    var snapshotLevel: map<nat, nat>
    ghost var leaves: seq<T>

    ghost predicate Valid()
      reads this
    {
      Represents(merge, leaves, tree) && mmrSize == MmrSize(|leaves|)
    }

    ghost function View(): Ledger<T>
      reads this
    {
      Ledger(snapshotStartLevel, snapshotCounter, snapshotLevel, leaves)
    }

    function Config(): Settings
      reads this
    {
      Settings(owner, snapshotDuration, acurastContract)
    }

    constructor (merge: (T, T) -> T, owner: AccountId, duration: nat)
      ensures Valid() && this.merge == merge && this.owner == owner && snapshotDuration == duration
      ensures View() == Ledger(0, 1, map[], [])
    {
      this.merge := merge;
      this.owner, snapshotDuration, acurastContract := owner, duration, 0;
      snapshotStartLevel, snapshotCounter, mmrSize := 0, 1, 0;
      tree, snapshotLevel := map[], map[];
      leaves := [];
      new;
      EmptyRange(merge);
    }

    /** Only the owner configures; the arguments take effect in order. */
    method Configure(caller: AccountId, args: seq<Argument>) returns (r: Result<(), Error>)
      requires Valid()
      modifies this`owner, this`snapshotDuration, this`acurastContract
      ensures Valid() && r == if caller == old(owner) then Ok(()) else Err(NotAllowed)
      ensures Config() == if r.Ok? then AllSet(old(Config()), args) else old(Config())
    {
      if caller != owner {
        return Err(NotAllowed);
      }
      for i := 0 to |args|
        invariant Config() == AllSet(old(Config()), args[..i])
      {
        SetStep(old(Config()), args, i);
        match args[i] {
          case SetOwner(address) => owner := address;
          case SetSnapshotDuration(duration) => snapshotDuration := duration;
          case SetAuthorizedProvider(address) => acurastContract := address;
        }
      }
      assert args[..|args|] == args;
      return Ok(());
    }

    method FinalizeSnapshot(required: bool, block: nat) returns (r: Result<(), Error>)
      requires Valid()
      modifies this`snapshotStartLevel, this`snapshotCounter, this`mmrSize, this`tree, this`snapshotLevel, this`leaves
      ensures Valid() && View() == Rolled(old(View()), snapshotDuration, block)
      ensures r.Err? <==> required && snapshotCounter == old(snapshotCounter)
    {
      EmptyRange(merge);
      if snapshotStartLevel == 0 {
        snapshotStartLevel := block;
        tree, mmrSize, leaves := map[], 0, [];
      }
      if snapshotStartLevel + snapshotDuration < block {
        snapshotLevel := snapshotLevel[snapshotCounter := block - 1];
        snapshotStartLevel := block;
        tree, mmrSize, leaves := map[], 0, [];
        snapshotCounter := snapshotCounter + 1;
      } else if required {
        return Err(CannotSnapshot);
      }
      return Ok(());
    }

    method Snapshot(block: nat) returns (r: Result<(), Error>)
      requires Valid()
      modifies this`snapshotStartLevel, this`snapshotCounter, this`mmrSize, this`tree, this`snapshotLevel, this`leaves
      ensures Valid()
      ensures r.Ok? <==> Rolled(old(View()), snapshotDuration, block).counter == old(snapshotCounter) + 1
      ensures View() == if r.Ok? then Rolled(old(View()), snapshotDuration, block) else old(View())
    {
      var start, counter, size, nodes, levels := snapshotStartLevel, snapshotCounter, mmrSize, tree, snapshotLevel;
      ghost var before := leaves;
      r := FinalizeSnapshot(true, block);
      if r.Err? {
        snapshotStartLevel, snapshotCounter, mmrSize, tree, snapshotLevel := start, counter, size, nodes, levels;
        leaves := before;
      }
    }

    method Insert(caller: AccountId, block: nat, hash: T) returns (r: Result<(nat, nat), Error>)
      requires Valid()
      modifies this`snapshotStartLevel, this`snapshotCounter, this`mmrSize, this`tree, this`snapshotLevel, this`leaves
      ensures Valid()
      ensures caller == acurastContract ==>
        && View() == Inserted(old(View()), snapshotDuration, block, hash)
        && r == Ok((MmrSize(|leaves| - 1), snapshotCounter))
      ensures caller != acurastContract ==> r == Err(NotAllowed) && View() == old(View())
    {
      var start, counter, size, nodes, levels := snapshotStartLevel, snapshotCounter, mmrSize, tree, snapshotLevel;
      ghost var before := leaves;
      var _ := FinalizeSnapshot(false, block);
      if acurastContract != caller {
        snapshotStartLevel, snapshotCounter, mmrSize, tree, snapshotLevel := start, counter, size, nodes, levels;
        leaves := before;
        return Err(NotAllowed);
      }
      var leafIndex := Append(hash);
      return Ok((leafIndex, snapshotCounter));
    }

    /** Pushes a leaf and stores the nodes it completes; the failures the caller maps never occur. */
    method Append(hash: T) returns (leafIndex: nat)
      requires Valid()
      modifies this`mmrSize, this`tree, this`leaves
      ensures Valid() && leaves == old(leaves) + [hash] && leafIndex == MmrSize(|old(leaves)|)
    {
      hide Represents, Completed, MmrSize, Hash;
      var range := new Range(merge, mmrSize);
      var batch := range.Push(tree, hash, leaves);
      var size := range.mmrSize;
      var (pos, elems) := batch.value[0];
      leafIndex := pos;
      StoreGrows(merge, leaves, hash, tree, elems);
      StoreNodes(pos, elems);
      mmrSize := size;
      leaves := leaves + [hash];
    }

    /** Stores nodes at consecutive positions. */
    method StoreNodes(pos: nat, elems: seq<T>)
      modifies this`tree
      ensures tree == Written(old(tree), pos, elems)
    {
      ghost var before := tree;
      for i := 0 to |elems|
        invariant tree == Written(before, pos, elems[..i])
      {
        assert elems[..i + 1][..i] == elems[..i];
        tree := tree[pos + i := elems[i]];
      }
      assert elems[..|elems|] == elems;
    }

    method SnapshotRoot() returns (r: Result<T, MmrError>)
      requires Valid()
      ensures r == if leaves == [] then Err(GetRootOnEmpty) else Ok(Root(merge, leaves))
    {
      var range := new Range(merge, mmrSize);
      r := range.GetRoot(tree, leaves);
    }

    /**
     * A proof is generated exactly for a non-empty list of leaf positions of the open snapshot,
     * and recomputing a root from those leaves and the proof gives the snapshot root.
     */
    method GenerateProof(positions: seq<nat>) returns (r: Result<MerkleProof<T>, Error>)
      requires Valid()
      ensures r.Ok? <==> positions != [] && AllLeaves(positions, |leaves|)
      ensures r.Ok? ==> r.value.mmrSize == mmrSize && ProofVerifies(merge, leaves, positions, r.value.proof)
      ensures r.Err? ==> r.error.CouldNotGenerateProof? && r.error.cause != InconsistentStore
    {
      hide Represents, AllLeaves, MmrSize, ProofOf, ProofVerifies;
      var range := new Range(merge, mmrSize);
      var proof := range.GenProof(positions, tree, leaves);
      match proof
      case Err(e) =>
        return Err(CouldNotGenerateProof(e));
      case Ok(p) =>
        GeneratedProofVerifies(merge, leaves, positions);
        return Ok(MerkleProof(p.mmrSize, p.proof));
    }
  }

  /** The proof leads from the leaves at `positions` to the root. */
  ghost predicate ProofVerifies<T>(merge: (T, T) -> T, leaves: seq<T>, positions: seq<nat>, proof: seq<T>) {
    var js := LeafIndicesOf(SortedUnique(positions));
    && LeafPositionsOf(js) == SortedUnique(positions) && SameMembers(LeafPositionsOf(js), positions)
    && leaves != [] && CompleteAt(0, js, |leaves|)
    && RootFromProof(merge, PeakNodes(|leaves|), ClaimsAt(merge, leaves, 0, js), proof) == Some(Root(merge, leaves))
  }

  lemma {:induction false} EmptyRange<T>(merge: (T, T) -> T)
    ensures Represents(merge, [], map[])
  {
  }

  lemma {:induction false} GeneratedProofVerifies<T>(merge: (T, T) -> T, leaves: seq<T>, positions: seq<nat>)
    requires positions != [] && AllLeaves(positions, |leaves|)
    ensures ProofVerifies(merge, leaves, positions, ProofOf(merge, leaves, positions))
  {
    var ps := SortedUnique(positions);
    SortedUniqueSorted(positions);
    SortedUniqueLeaves(positions, |leaves|);
    LeavesAreBoth(ps, |leaves|);
    hide MmrSize, AllLeaves, AllLeafHeight, AllBelow, FullProof, SortedUnique, PeakNodes, RootFromProof, Root,
         ClaimsAt, CompleteAt, SameMembers;
    LeafIndicesRoundTrip(ps);
    LeafIndicesWithin(ps, |leaves|);
    SortedUniqueSame(positions);
    ProofRoundTrip(merge, leaves, LeafIndicesOf(ps));
  }
}
