/**
 * Oracle signatures over a hyperdrive message. A signature is ideal: it is by one key, over one
 * content, and verifies for nothing else.
 */
module Quorums {
  import opened Wrappers

  type Key = nat
  type Block = nat

  datatype ActivityWindow = ActivityWindow(start: Block, end: Option<Block>)

  datatype Signature<C> = Signature(signer: Key, content: C)

  datatype Error = NotEnoughSignaturesProvided | SignatureInvalid | NotEnoughSignaturesValid

  type Oracles = map<Key, ActivityWindow>

  predicate Verifies<C(==)>(signature: Signature<C>, content: C, key: Key) {
    signature == Signature(key, content)
  }

  /** Registered, and within the window: start included, end excluded. */
  predicate Active(oracles: Oracles, now: Block, key: Key) {
    key in oracles && oracles[key].start <= now && (oracles[key].end.Some? ==> now < oracles[key].end.value)
  }

  ghost function ActiveKeys<C>(oracles: Oracles, now: Block, signatures: seq<(Signature<C>, Key)>): set<Key> {
    set i | 0 <= i < |signatures| && Active(oracles, now, signatures[i].1) :: signatures[i].1
  }

  /** The first signature given for a key. */
  ghost predicate First<C>(signatures: seq<(Signature<C>, Key)>, i: nat)
    requires i < |signatures|
  {
    forall j :: 0 <= j < i ==> signatures[j].1 != signatures[i].1
  }

  ghost predicate FirstsVerify<C>(oracles: Oracles, now: Block, content: C, signatures: seq<(Signature<C>, Key)>) {
    forall i :: 0 <= i < |signatures| && Active(oracles, now, signatures[i].1) && First(signatures, i)
      ==> Verifies(signatures[i].0, content, signatures[i].1)
  }

  /** When signatures are accepted, whatever else is among them. */
  ghost predicate Quorum<C>(oracles: Oracles, now: Block, content: C, signatures: seq<(Signature<C>, Key)>,
                            minimum: nat)
  {
    && minimum <= |signatures|
    && FirstsVerify(oracles, now, content, signatures)
    && minimum <= |ActiveKeys(oracles, now, signatures)|
  }

  /** Distinct oracles that are active and each signed this very content. */
  ghost predicate Vouched<C>(oracles: Oracles, now: Block, content: C, signatures: seq<(Signature<C>, Key)>,
                             keys: set<Key>)
  {
    forall k :: k in keys ==> Active(oracles, now, k) && (Signature(k, content), k) in signatures
  }

  lemma {:induction false} FirstOf<C>(signatures: seq<(Signature<C>, Key)>, i: nat) returns (first: nat)
    requires i < |signatures|
    ensures first <= i && First(signatures, first) && signatures[first].1 == signatures[i].1
    decreases i
  {
    if First(signatures, i) {
      first := i;
    } else {
      var j :| 0 <= j < i && signatures[j].1 == signatures[i].1;
      first := FirstOf(signatures, j);
    }
  }

  /** An accepted message was signed by that many distinct oracles, each active then. */
  lemma {:induction false} QuorumVouches<C>(oracles: Oracles, now: Block, content: C,
                                            signatures: seq<(Signature<C>, Key)>, minimum: nat)
    returns (keys: set<Key>)
    requires Quorum(oracles, now, content, signatures, minimum)
    ensures minimum <= |keys| && Vouched(oracles, now, content, signatures, keys)
  {
    keys := ActiveKeys(oracles, now, signatures);
    forall k | k in keys
      ensures Active(oracles, now, k) && (Signature(k, content), k) in signatures
    {
      var i :| 0 <= i < |signatures| && Active(oracles, now, signatures[i].1) && signatures[i].1 == k;
      var first := FirstOf(signatures, i);
      assert Verifies(signatures[first].0, content, k);
      assert signatures[first] == (Signature(k, content), k);
    }
  }

  /** Signatures of unknown or inactive keys and repeated keys decide nothing but the number given. */
  lemma {:induction false} OthersIgnored<C>(oracles: Oracles, now: Block, content: C,
                                            signatures: seq<(Signature<C>, Key)>,
                                            more: (Signature<C>, Key), minimum: nat)
    requires minimum <= |signatures|
    requires !Active(oracles, now, more.1) || more.1 in ActiveKeys(oracles, now, signatures)
    ensures Quorum(oracles, now, content, signatures + [more], minimum)
      <==> Quorum(oracles, now, content, signatures, minimum)
  {
    hide ActiveKeys, FirstsVerify;
    assert (signatures + [more])[..|signatures|] == signatures;
    KeysStep(oracles, now, signatures + [more]);
    FirstsStep(oracles, now, content, signatures + [more]);
    assert ActiveKeys(oracles, now, signatures + [more]) == ActiveKeys(oracles, now, signatures);
  }

  lemma {:induction false} KeysStep<C>(oracles: Oracles, now: Block, signatures: seq<(Signature<C>, Key)>)
    requires signatures != []
    ensures var n := |signatures| - 1; var k := signatures[n].1;
      ActiveKeys(oracles, now, signatures)
        == ActiveKeys(oracles, now, signatures[..n]) + if Active(oracles, now, k) then {k} else {}
  {
  }

  /** What the last signature adds to the condition on first ones. */
  lemma {:induction false} FirstsStep<C>(oracles: Oracles, now: Block, content: C, signatures: seq<(Signature<C>, Key)>)
    requires signatures != []
    ensures var n := |signatures| - 1; var (signature, k) := signatures[n];
      FirstsVerify(oracles, now, content, signatures)
      <==> (&& FirstsVerify(oracles, now, content, signatures[..n])
            && (Active(oracles, now, k) && k !in ActiveKeys(oracles, now, signatures[..n])
                ==> Verifies(signature, content, k)))
  {
    var n := |signatures| - 1;
    var k := signatures[n].1;
    forall i | 0 <= i < n
      ensures First(signatures, i) <==> First(signatures[..n], i)
    {
    }
    if Active(oracles, now, k) {
      if First(signatures, n) {
        assert k !in ActiveKeys(oracles, now, signatures[..n]);
      } else {
        var j :| 0 <= j < n && signatures[j].1 == k;
        assert signatures[..n][j].1 in ActiveKeys(oracles, now, signatures[..n]);
      }
    }
    if FirstsVerify(oracles, now, content, signatures) {
      forall i | 0 <= i < n && Active(oracles, now, signatures[..n][i].1) && First(signatures[..n], i)
        ensures Verifies(signatures[..n][i].0, content, signatures[..n][i].1)
      {
        assert First(signatures, i);
      }
    }
  }

  /** One bad first signature is enough to refuse, whatever follows. */
  lemma {:induction false} FirstsPrefix<C>(oracles: Oracles, now: Block, content: C,
                                           signatures: seq<(Signature<C>, Key)>, n: nat)
    requires n <= |signatures| && FirstsVerify(oracles, now, content, signatures)
    ensures FirstsVerify(oracles, now, content, signatures[..n])
  {
    forall i | 0 <= i < n && Active(oracles, now, signatures[..n][i].1) && First(signatures[..n], i)
      ensures Verifies(signatures[..n][i].0, content, signatures[..n][i].1)
    {
      assert First(signatures, i) by {
        forall j | 0 <= j < i
          ensures signatures[j].1 != signatures[i].1
        {
          assert signatures[..n][j].1 != signatures[..n][i].1;
        }
      }
    }
  }

  method CheckSignatures<C(==)>(oracles: Oracles, now: Block, content: C, signatures: seq<(Signature<C>, Key)>,
                                minimum: nat)
    returns (r: Result<(), Error>)
    ensures r.Ok? <==> Quorum(oracles, now, content, signatures, minimum)
    ensures r == Err(NotEnoughSignaturesProvided) <==> |signatures| < minimum
    ensures r == Err(SignatureInvalid) <==> minimum <= |signatures| && !FirstsVerify(oracles, now, content, signatures)
  {
    hide ActiveKeys, FirstsVerify;
    if |signatures| < minimum {
      return Err(NotEnoughSignaturesProvided);
    }
    var valid, checked: set<Key> := 0, {};
    NoneYet(oracles, now, content, signatures[..0]);
    for i := 0 to |signatures|
      invariant checked == ActiveKeys(oracles, now, signatures[..i])
      invariant valid == |checked|
      invariant FirstsVerify(oracles, now, content, signatures[..i])
    {
      var (signature, key) := signatures[i];
      assert signatures[..i + 1][..i] == signatures[..i] && signatures[..i + 1][i] == signatures[i];
      KeysStep(oracles, now, signatures[..i + 1]);
      FirstsStep(oracles, now, content, signatures[..i + 1]);
      if key in oracles && key !in checked {
        if Active(oracles, now, key) {
          if !Verifies(signature, content, key) {
            if FirstsVerify(oracles, now, content, signatures) {
              FirstsPrefix(oracles, now, content, signatures, i + 1);
            }
            return Err(SignatureInvalid);
          }
          valid := valid + 1;
          checked := checked + {key};
        }
      }
    }
    assert signatures[..|signatures|] == signatures;
    if valid < minimum {
      return Err(NotEnoughSignaturesValid);
    }
    return Ok(());
  }

  lemma {:induction false} NoneYet<C>(oracles: Oracles, now: Block, content: C, signatures: seq<(Signature<C>, Key)>)
    requires signatures == []
    ensures ActiveKeys(oracles, now, signatures) == {} && FirstsVerify(oracles, now, content, signatures)
  {
  }
}
