/** What each operation of the bridge does to balances, messages and transfers. */
module BridgeBooks {
  import opened Wrappers
  import opened MapSums
  import opened Bridge

  // ----- fees held -----

  ghost function Fees(outgoing: map<Id, Outgoing>, payer: Account): map<Id, nat> {
    map id | id in outgoing && outgoing[id].payer == payer :: outgoing[id].fee
  }

  /** The fees of the stored outgoing messages an account pays for. */
  ghost function FeesOf(outgoing: map<Id, Outgoing>, payer: Account): nat {
    Total(Fees(outgoing, payer))
  }

  function FeeOf(message: Option<Outgoing>, payer: Account): nat {
    if message.Some? && message.value.payer == payer then message.value.fee else 0
  }

  function At(outgoing: map<Id, Outgoing>, id: Id): Option<Outgoing> {
    if id in outgoing then Some(outgoing[id]) else None
  }

  lemma {:induction false} FeesChange(o: map<Id, Outgoing>, o': map<Id, Outgoing>, id: Id, payer: Account)
    requires o - {id} == o' - {id}
    ensures FeesOf(o', payer) + FeeOf(At(o, id), payer) == FeesOf(o, payer) + FeeOf(At(o', id), payer)
  {
    hide Total;
    var f, f' := Fees(o, payer), Fees(o', payer);
    forall k
      ensures k in f - {id} <==> k in f' - {id}
      ensures k in f - {id} ==> f[k] == f'[k]
    {
      assert k in o - {id} <==> k in o' - {id};
      assert k in o - {id} ==> (o - {id})[k] == (o' - {id})[k];
    }
    assert f - {id} == f' - {id};
    TotalChange(f, f', id);
  }

  lemma {:induction false} FeesCover(o: map<Id, Outgoing>, id: Id)
    requires id in o
    ensures o[id].fee <= FeesOf(o, o[id].payer)
  {
    hide Total;
    var f := Fees(o, o[id].payer);
    assert id in f;
    TotalPick(f, id);
  }

  /** What is held of an account is what its stored messages cost, no more and no less. */
  ghost predicate HoldsMatch(f: Funds, outgoing: map<Id, Outgoing>) {
    forall a :: Held(f, a) == FeesOf(outgoing, a)
  }

  ghost function Issuance(f: Funds): nat {
    Total(f.free) + Total(f.held)
  }

  // ----- movements -----

  lemma {:induction false} SetChange(m: map<Account, nat>, k: Account, amount: nat)
    ensures Total(m[k := amount]) + Amount(m, k) == Total(m) + amount
  {
    hide Total;
    assert m - {k} == m[k := amount] - {k};
    TotalChange(m, m[k := amount], k);
  }

  lemma {:induction false} PaidFacts(f: Funds, from: Account, to: Account, amount: nat, accepted: bool)
    requires Paid(f, from, to, amount, accepted).Some?
    ensures var f' := Paid(f, from, to, amount, accepted).value;
      && f'.held == f.held && Issuance(f') == Issuance(f)
      && amount <= Free(f, from)
      && forall a :: Free(f', a) == Free(f, a) - (if a == from then amount else 0) + (if a == to then amount else 0)
  {
    hide Total;
    if amount != 0 {
      var free := f.free[from := Free(f, from) - amount];
      SetChange(f.free, from, Free(f, from) - amount);
      SetChange(free, to, Amount(free, to) + amount);
    }
  }

  lemma {:induction false} HoldFacts(f: Funds, payer: Account, fee: nat, accepted: bool)
    requires PutOnHold(f, payer, fee, accepted).Some?
    ensures var f' := PutOnHold(f, payer, fee, accepted).value;
      && Issuance(f') == Issuance(f)
      && forall a :: && Free(f', a) == Free(f, a) - (if a == payer then fee else 0)
                     && Held(f', a) == Held(f, a) + if a == payer then fee else 0
  {
    hide Total;
    SetChange(f.free, payer, Free(f, payer) - fee);
    SetChange(f.held, payer, Held(f, payer) + fee);
  }

  lemma {:induction false} ReleaseFacts(f: Funds, payer: Account, to: Account, fee: nat)
    requires Released(f, payer, to, fee).Some?
    ensures var f' := Released(f, payer, to, fee).value;
      && Issuance(f') == Issuance(f)
      && forall a :: && Free(f', a) == Free(f, a) + (if a == to then fee else 0)
                     && Held(f', a) == Held(f, a) - if a == payer then fee else 0
  {
    hide Total;
    SetChange(f.free, to, Free(f, to) + fee);
    SetChange(f.held, payer, Held(f, payer) - fee);
  }

  // ----- messages -----

  /** A stored message's fee can always be released, so a replacement never fails for that reason. */
  lemma {:induction false} ReleaseNeverFails(s: State, id: Id, to: Account)
    requires HoldsMatch(s.funds, s.ibc.outgoing) && id in s.ibc.outgoing
    ensures var m := s.ibc.outgoing[id]; m.fee <= Held(s.funds, m.payer) && Released(s.funds, m.payer, to, m.fee).Some?
  {
    hide FeesOf;
    var m := s.ibc.outgoing[id];
    assert Held(s.funds, m.payer) == FeesOf(s.ibc.outgoing, m.payer);
    FeesCover(s.ibc.outgoing, id);
  }

  /** Storing a message whose fee is now held, in the place of one whose fee was released. */
  lemma {:induction false} StoreMatches(f: Funds, f': Funds, outgoing: map<Id, Outgoing>, id: Id, message: Outgoing)
    requires HoldsMatch(f, outgoing)
    requires forall a :: Held(f', a) == Held(f, a) - FeeOf(At(outgoing, id), a) + FeeOf(Some(message), a)
    ensures HoldsMatch(f', outgoing[id := message])
  {
    hide FeesOf, Held;
    var outgoing' := outgoing[id := message];
    assert outgoing - {id} == outgoing' - {id};
    forall a
      ensures Held(f', a) == FeesOf(outgoing', a)
    {
      FeesChange(outgoing, outgoing', id, a);
      assert At(outgoing', id) == Some(message);
      assert Held(f, a) == FeesOf(outgoing, a);
    }
  }

  lemma {:induction false} DropMatches(f: Funds, f': Funds, outgoing: map<Id, Outgoing>, id: Id)
    requires HoldsMatch(f, outgoing) && id in outgoing
    requires forall a :: Held(f', a) == Held(f, a) - FeeOf(At(outgoing, id), a)
    ensures HoldsMatch(f', outgoing - {id})
  {
    hide FeesOf, Held;
    var outgoing' := outgoing - {id};
    assert outgoing - {id} == outgoing' - {id};
    forall a
      ensures Held(f', a) == FeesOf(outgoing', a)
    {
      FeesChange(outgoing, outgoing', id, a);
      assert At(outgoing', id) == None;
      assert Held(f, a) == FeesOf(outgoing, a);
    }
  }

  /** Where a sent message is stored, and as what. */
  ghost predicate Stored(c: Config, s: State, s': State, sender: Account, payer: Account, funder: Account, nonce: Nonce,
                         payload: Payload, fee: nat)
  {
    var id := Id(Extrinsic(c.self, sender), nonce);
    && s'.now == s.now && s'.token == s.token && s'.log == s.log
    && id in s'.ibc.outgoing
    && var m := s'.ibc.outgoing[id];
    && s'.ibc == s.ibc.(outgoing := s.ibc.outgoing[id := m],
                        outgoingLookup := s.ibc.outgoingLookup[(Extrinsic(c.self, sender), nonce) := id])
    && m.message.sender == Extrinsic(c.self, sender) && m.message.nonce == nonce
    && m.message.payload == payload && m.payer == payer && m.funder == funder && m.fee == fee
  }

  lemma {:induction false} SentFacts(c: Config, s: State, sender: Account, payer: Account, funder: Account,
                                     nonce: Nonce,
                                     recipient: Subject, payload: Payload, ttl: nat, fee: nat, holds: bool)
    requires HoldsMatch(s.funds, s.ibc.outgoing)
    requires Sent(c, s, sender, payer, funder, nonce, recipient, payload, ttl, fee, holds).Some?
    ensures var (s', replaced) := Sent(c, s, sender, payer, funder, nonce, recipient, payload, ttl, fee, holds).value;
      && HoldsMatch(s'.funds, s'.ibc.outgoing) && Issuance(s'.funds) == Issuance(s.funds)
      && Stored(c, s, s', sender, payer, funder, nonce, payload, fee)
      && replaced == At(s.ibc.outgoing, Id(Extrinsic(c.self, sender), nonce))
      && forall a :: Free(s'.funds, a) == Free(s.funds, a) + FeeOf(replaced, a) - if a == payer then fee else 0
  {
    hide HoldsMatch, Issuance, Free, Held, PutOnHold, Released;
    var (s', replaced) := Sent(c, s, sender, payer, funder, nonce, recipient, payload, ttl, fee, holds).value;
    var id := Id(Extrinsic(c.self, sender), nonce);
    var released := s.funds;
    if replaced.Some? {
      var m := replaced.value;
      ReleaseFacts(s.funds, m.payer, m.payer, m.fee);
      released := Released(s.funds, m.payer, m.payer, m.fee).value;
    }
    assert forall a :: Free(released, a) == Free(s.funds, a) + FeeOf(replaced, a);
    assert forall a :: Held(released, a) == Held(s.funds, a) - FeeOf(replaced, a);
    assert s'.funds == PutOnHold(released, payer, fee, holds).value;
    HoldFacts(released, payer, fee, holds);
    StoreMatches(s.funds, s'.funds, s.ibc.outgoing, id, s'.ibc.outgoing[id]);
  }

  /** The fee vault only passes fees on: what comes in is held, what is released is refunded. */
  lemma {:induction false} FeePaidFacts(c: Config, s: State, source: Account, nonce: Nonce, contract: nat,
                                        payload: Payload, ttl: nat, fee: nat, env: Env)
    requires HoldsMatch(s.funds, s.ibc.outgoing) && source != FeeVault
    requires var before := At(s.ibc.outgoing, Id(Extrinsic(c.self, PalletAccount), nonce));
      before.Some? ==> before.value.payer == FeeVault
    requires FeePaidAndSent(c, s, source, nonce, contract, payload, ttl, fee, env).Some?
    ensures var s' := FeePaidAndSent(c, s, source, nonce, contract, payload, ttl, fee, env).value;
      var replaced := At(s.ibc.outgoing, Id(Extrinsic(c.self, PalletAccount), nonce));
      && HoldsMatch(s'.funds, s'.ibc.outgoing) && Issuance(s'.funds) == Issuance(s.funds)
      && Stored(c, s, s', PalletAccount, FeeVault, source, nonce, payload, fee)
      && (forall a :: a != source ==> Free(s'.funds, a) == Free(s.funds, a))
      && Free(s'.funds, source) == Free(s.funds, source) - fee + FeeOf(replaced, FeeVault)
  {
    hide HoldsMatch, Issuance, Free, Held, Paid, Sent;
    var replaced := At(s.ibc.outgoing, Id(Extrinsic(c.self, PalletAccount), nonce));
    PaidFacts(s.funds, source, FeeVault, fee, env.paysFee);
    var paid := s.(funds := Paid(s.funds, source, FeeVault, fee, env.paysFee).value);
    HeldAlike(s.funds, paid.funds, s.ibc.outgoing);
    SentFacts(c, paid, PalletAccount, FeeVault, source, nonce, Contract(Ethereum, contract), payload, ttl, fee,
              env.holds);
    var (sent, r) := Sent(c, paid, PalletAccount, FeeVault, source, nonce, Contract(Ethereum, contract), payload, ttl,
                          fee, env.holds).value;
    if r.Some? {
      PaidFacts(sent.funds, FeeVault, source, r.value.fee, env.refunds);
      HeldAlike(sent.funds, Paid(sent.funds, FeeVault, source, r.value.fee, env.refunds).value, sent.ibc.outgoing);
    }
  }

  lemma {:induction false} HeldAlike(f: Funds, f': Funds, outgoing: map<Id, Outgoing>)
    requires HoldsMatch(f, outgoing) && f'.held == f.held
    ensures HoldsMatch(f', outgoing)
  {
  }
}
