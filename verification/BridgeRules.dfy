/** When each operation of the bridge succeeds, and what the messages it stores say. */
module BridgeRules {
  import opened Wrappers
  import opened MapSums
  import opened Quorums
  import opened Bridge
  import opened BridgeBooks
  import opened BridgeSteps
  import opened BridgeRuns

  // ----- outgoing messages -----

  /** A message with this id may be stored: there is none, or one that has expired. */
  predicate Vacant(s: State, id: Id) {
    id in s.ibc.outgoing ==> s.ibc.outgoing[id].ttlBlock < s.now
  }

  /**
   * A message is stored exactly if it pays enough, lives long enough, is for another chain, replaces
   * none that has not expired, and the payer can afford it, with the fee of the one it replaces.
   */
  lemma {:induction false} SentWhen(c: Config, s: State, sender: Account, payer: Account, funder: Account, nonce: Nonce,
                                    recipient: Subject, payload: Payload, ttl: nat, fee: nat, holds: bool)
    requires HoldsMatch(s.funds, s.ibc.outgoing)
    ensures var r := Sent(c, s, sender, payer, funder, nonce, recipient, payload, ttl, fee, holds);
      var id := Id(Extrinsic(c.self, sender), nonce);
      && (r.Some? <==>
            && c.minFee <= fee && c.minTtl <= ttl && recipient.chain != c.self && Vacant(s, id) && holds
            && fee <= Free(s.funds, payer) + FeeOf(At(s.ibc.outgoing, id), payer))
      && (r.Some? ==>
            && id in r.value.0.ibc.outgoing
            && r.value.0.ibc.outgoing[id]
               == Outgoing(Message(Extrinsic(c.self, sender), nonce, recipient, payload), s.now, s.now + ttl, fee,
                           payer, funder))
  {
    hide HoldsMatch, Free, Released;
    var id := Id(Extrinsic(c.self, sender), nonce);
    if id in s.ibc.outgoing {
      var m := s.ibc.outgoing[id];
      ReleaseNeverFails(s, id, m.payer);
      ReleaseFacts(s.funds, m.payer, m.payer, m.fee);
    }
  }

  /** A delivery is confirmed exactly while the message has not expired, by the signatures of a quorum. */
  lemma {:induction false} ConfirmedWhen(c: Config, s: State, who: nat, id: Id, signatures: Signatures, accepted: bool)
    requires HoldsMatch(s.funds, s.ibc.outgoing)
    ensures DeliveryConfirmed(c, s, who, id, signatures, accepted).Some? <==>
      && id in s.ibc.outgoing && s.now <= s.ibc.outgoing[id].ttlBlock && accepted
      && Quorum(s.ibc.oracles, s.now, Content(s.ibc.outgoing[id].message, Some(User(who))), signatures, c.minDelivery)
  {
    hide HoldsMatch, Quorum, Released;
    if id in s.ibc.outgoing {
      ReleaseNeverFails(s, id, User(who));
    }
  }

  /** A message is removed exactly when it has expired, so never while its delivery can be confirmed. */
  lemma {:induction false} RemovedWhen(c: Config, s: State, id: Id, who: nat, signatures: Signatures, accepted: bool)
    requires HoldsMatch(s.funds, s.ibc.outgoing)
    ensures Removed(s, id).Some? <==> id in s.ibc.outgoing && s.ibc.outgoing[id].ttlBlock < s.now
    ensures Removed(s, id).Some? ==>
      DeliveryConfirmed(c, s, who, id, signatures, accepted).None? && id !in Removed(s, id).value.ibc.outgoing
  {
    hide HoldsMatch, Released, Quorum;
    ConfirmedWhen(c, s, who, id, signatures, accepted);
    if id in s.ibc.outgoing {
      ReleaseNeverFails(s, id, s.ibc.outgoing[id].payer);
    }
  }

  /** A test message is stored under the next number, for a fee its sender pays. */
  lemma {:induction false} TestSentWhen(c: Config, s: State, who: nat, recipient: Subject, ttl: nat, fee: nat,
                                        holds: bool)
    requires Sound(c, s)
    ensures var r, n := TestSent(c, s, who, recipient, ttl, fee, holds), s.ibc.counter;
      && (r.Some? <==>
            && c.minFee <= fee && c.minTtl <= ttl && recipient.chain != c.self && holds
            && fee <= Free(s.funds, User(who)))
      && (r.Some? ==>
            && var id := Id(Extrinsic(c.self, User(who)), TestNonce(n));
            && r.value.ibc.counter == n + 1 && id in r.value.ibc.outgoing
            && r.value.ibc.outgoing[id].message == Message(id.sender, id.nonce, recipient, Raw(User(who))))
  {
    hide Sound, Sent, HoldsMatch, Free;
    var user, counted := User(who), s.(ibc := s.ibc.(counter := s.ibc.counter + 1));
    var id := Id(Extrinsic(c.self, user), TestNonce(s.ibc.counter));
    TestFresh(c, s, id);
    SentWhen(c, counted, user, user, user, TestNonce(s.ibc.counter), recipient, Raw(user), ttl, fee, holds);
    if TestSent(c, s, who, recipient, ttl, fee, holds).Some? {
      SentFacts(c, counted, user, user, user, TestNonce(s.ibc.counter), recipient, Raw(user), ttl, fee, holds);
    }
  }

  // ----- transfers -----

  /** The fee can be paid and the message sent. */
  predicate FeeAccepted(c: Config, ttl: nat, fee: nat, env: Env) {
    c.minFee <= fee && c.minTtl <= ttl && c.self != Ethereum && env.holds && (fee == 0 || env.paysFee)
  }

  lemma {:induction false} FeeSentWhen(c: Config, s: State, source: Account, nonce: Nonce, contract: nat,
                                       payload: Payload, ttl: nat, fee: nat, env: Env)
    requires HoldsMatch(s.funds, s.ibc.outgoing) && source != FeeVault
    requires var before := At(s.ibc.outgoing, Id(Extrinsic(c.self, PalletAccount), nonce));
      before.Some? ==> before.value.payer == FeeVault
    ensures var r := FeePaidAndSent(c, s, source, nonce, contract, payload, ttl, fee, env);
      var id := Id(Extrinsic(c.self, PalletAccount), nonce);
      && (r.Some? <==>
            && FeeAccepted(c, ttl, fee, env) && fee <= Free(s.funds, source) && Vacant(s, id)
            && (FeeOf(At(s.ibc.outgoing, id), FeeVault) > 0 ==> env.refunds))
      && (r.Some? ==>
            && id in r.value.ibc.outgoing
            && r.value.ibc.outgoing[id]
               == Outgoing(Message(Extrinsic(c.self, PalletAccount), nonce, Contract(Ethereum, contract), payload),
                           s.now, s.now + ttl, fee, FeeVault, source))
  {
    hide HoldsMatch, Free, Held, Sent, Issuance;
    var id := Id(Extrinsic(c.self, PalletAccount), nonce);
    var paid := Paid(s.funds, source, FeeVault, fee, env.paysFee);
    PaidWhen(s.funds, source, FeeVault, fee, env.paysFee);
    if paid.Some? {
      var s1 := s.(funds := paid.value);
      PaidFacts(s.funds, source, FeeVault, fee, env.paysFee);
      HeldAlike(s.funds, paid.value, s.ibc.outgoing);
      hide Paid;
      var to := Contract(Ethereum, contract);
      SentWhen(c, s1, PalletAccount, FeeVault, source, nonce, to, payload, ttl, fee, env.holds);
      var sent := Sent(c, s1, PalletAccount, FeeVault, source, nonce, to, payload, ttl, fee, env.holds);
      if sent.Some? {
        SentFacts(c, s1, PalletAccount, FeeVault, source, nonce, to, payload, ttl, fee, env.holds);
        if sent.value.1.Some? {
          PaidWhen(sent.value.0.funds, FeeVault, source, sent.value.1.value.fee, env.refunds);
        }
      }
    }
  }

  lemma {:induction false} PaidWhen(f: Funds, from: Account, to: Account, amount: nat, accepted: bool)
    ensures Paid(f, from, to, amount, accepted).Some? <==> amount <= Free(f, from) && (amount == 0 || accepted)
  {
  }

  /**
   * A transfer goes through exactly if the pallet is enabled, the amount large enough and for Ethereum,
   * and its source can afford amount and fee; its message then orders just that transfer.
   */
  lemma {:induction false} TransferredWhen(c: Config, s: State, who: nat, dest: Destination, amount: nat, fee: nat,
                                           env: Env)
    requires Sound(c, s)
    ensures var r, n := TransferredNative(c, s, who, dest, amount, fee, env), NextNonce(s.token, Ethereum);
      && (r.Some? <==>
            && s.token.enabled && s.token.contract.Some? && c.minTransfer <= amount && ChainOf(dest) == Ethereum
            && FeeAccepted(c, Ttl(c, s.token, Ethereum), fee, env)
            && amount + fee <= Free(s.funds, User(who)) && (amount == 0 || env.pays))
      && (r.Some? ==>
            && var id := Id(Extrinsic(c.self, PalletAccount), TransferNonce(Ethereum, n));
            && NextNonce(r.value.token, Ethereum) == n + 1
            && r.value.token.transfers == s.token.transfers[(Ethereum, n) := Transfer(User(who), dest, amount)]
            && id in r.value.ibc.outgoing
            && r.value.ibc.outgoing[id]
               == Outgoing(Message(Extrinsic(c.self, PalletAccount), TransferNonce(Ethereum, n),
                                   Contract(Ethereum, s.token.contract.value),
                                   Encoded(TransferToken(amount, None, n, dest))),
                           s.now, s.now + Ttl(c, s.token, Ethereum), fee, FeeVault, User(who)))
  {
    hide Sound, FeePaidAndSent, Free, HoldsMatch, Paid, FeeAccepted;
    var user, n := User(who), NextNonce(s.token, Ethereum);
    SoundFunds(c, s);
    NextVacant(c, s);
    PaidWhen(s.funds, user, Vault, amount, env.pays);
    var paid := Paid(s.funds, user, Vault, amount, env.pays);
    if paid.Some? && s.token.contract.Some? && ChainOf(dest) == Ethereum {
      PaidFacts(s.funds, user, Vault, amount, env.pays);
      HeldAlike(s.funds, paid.value, s.ibc.outgoing);
      var token := s.token.(nextNonce := s.token.nextNonce[Ethereum := n + 1]);
      var mid := s.(funds := paid.value, token := token);
      FeeSentWhen(c, mid, user, TransferNonce(Ethereum, n), token.contract.value,
                  Encoded(TransferToken(amount, None, n, dest)), Ttl(c, token, Ethereum), fee, env);
      if FeePaidAndSent(c, mid, user, TransferNonce(Ethereum, n), token.contract.value,
                        Encoded(TransferToken(amount, None, n, dest)), Ttl(c, token, Ethereum), fee, env).Some? {
        SentKeeps(c, mid, user, TransferNonce(Ethereum, n), token.contract.value,
                  Encoded(TransferToken(amount, None, n, dest)), Ttl(c, token, Ethereum), fee, env);
      }
    }
  }

  lemma {:induction false} NextVacant(c: Config, s: State)
    requires Sound(c, s)
    ensures var n := NextNonce(s.token, Ethereum);
      Id(Extrinsic(c.self, PalletAccount), TransferNonce(Ethereum, n)) !in s.ibc.outgoing
  {
    var id := Id(Extrinsic(c.self, PalletAccount), TransferNonce(Ethereum, NextNonce(s.token, Ethereum)));
    if id in s.ibc.outgoing {
      FiledHere(c, s, id);
    }
  }

  /** A transfer is retried exactly by its source, when its message is gone or has expired, for a fee. */
  lemma {:induction false} RetriedWhen(c: Config, s: State, who: nat, proxy: Chain, nonce: nat, fee: nat, env: Env)
    requires Sound(c, s)
    ensures var r, id := Retried(c, s, who, proxy, nonce, fee, env),
                         Id(Extrinsic(c.self, PalletAccount), TransferNonce(Ethereum, nonce));
      && (r.Some? <==>
            && s.token.enabled && s.token.contract.Some? && (proxy, nonce) in s.token.transfers
            && s.token.transfers[(proxy, nonce)].source == User(who)
            && c.minTransfer <= s.token.transfers[(proxy, nonce)].amount
            && FeeAccepted(c, Ttl(c, s.token, Ethereum), fee, env) && fee <= Free(s.funds, User(who)) && Vacant(s, id)
            && (FeeOf(At(s.ibc.outgoing, id), FeeVault) > 0 ==> env.refunds))
      && (r.Some? ==> id in r.value.ibc.outgoing && r.value.ibc.outgoing[id].fee == fee
                      && r.value.ibc.outgoing[id].ttlBlock == s.now + Ttl(c, s.token, Ethereum))
  {
    hide Sound, FeePaidAndSent, Free, HoldsMatch, FeeAccepted, Vacant;
    SoundFunds(c, s);
    if (proxy, nonce) in s.token.transfers && s.token.contract.Some? {
      var t := s.token.transfers[(proxy, nonce)];
      RetryFiled(c, s, proxy, nonce);
      assert s.(funds := s.funds, token := s.token) == s;
      if t.source == User(who) {
        FeeSentWhen(c, s, User(who), TransferNonce(Ethereum, nonce), s.token.contract.value,
                    Encoded(TransferToken(t.amount, None, nonce, t.dest)), Ttl(c, s.token, Ethereum), fee, env);
      }
    }
  }

  /** Only Ethereum's proxy is enabled or disabled, by a message the pallet account pays for. */
  lemma {:induction false} EnabledWhen(c: Config, s: State, proxy: Chain, on: bool, fee: nat, env: Env)
    requires Sound(c, s)
    ensures var r, n := ProxyEnabled(c, s, proxy, on, fee, env), s.token.nextEnable;
      && (r.Some? <==>
            && proxy == Ethereum && s.token.contract.Some? && FeeAccepted(c, Ttl(c, s.token, Ethereum), fee, env)
            && fee <= Free(s.funds, PalletAccount))
      && (r.Some? ==>
            && var id := Id(Extrinsic(c.self, PalletAccount), EnableNonce(proxy, n));
            && r.value.token.nextEnable == n + 1 && id in r.value.ibc.outgoing
            && r.value.ibc.outgoing[id].message
               == Message(id.sender, id.nonce, Contract(Ethereum, s.token.contract.value), Encoded(SetEnabled(on))))
  {
    hide Sound, FeePaidAndSent, Free, HoldsMatch, FeeAccepted, Vacant;
    var n := s.token.nextEnable;
    var mid := s.(token := s.token.(nextEnable := n + 1));
    SoundFunds(c, s);
    EnableFresh(c, s, proxy);
    if proxy == Ethereum && s.token.contract.Some? {
      NoneVacant(mid, Id(Extrinsic(c.self, PalletAccount), EnableNonce(proxy, n)));
      FeeSentWhen(c, mid, PalletAccount, EnableNonce(proxy, n), mid.token.contract.value, Encoded(SetEnabled(on)),
                  Ttl(c, mid.token, proxy), fee, env);
      if ProxyEnabled(c, s, proxy, on, fee, env).Some? {
        SentKeeps(c, mid, PalletAccount, EnableNonce(proxy, n), mid.token.contract.value, Encoded(SetEnabled(on)),
                  Ttl(c, mid.token, proxy), fee, env);
      }
    }
  }

  lemma {:induction false} NoneVacant(s: State, id: Id)
    requires id !in s.ibc.outgoing
    ensures Vacant(s, id)
  {
  }

  // ----- incoming messages -----

  /** A message for this chain is stored exactly if it is new and a quorum signed it. */
  lemma {:induction false} ReceivedWhen(c: Config, s: State, message: Message, relayer: Destination,
                                        signatures: Signatures, accepted: bool)
    ensures var r, id := Received(c, s, message, relayer, signatures, accepted), Id(message.sender, message.nonce);
      && (r.Some? <==>
            && message.recipient.chain == c.self && id !in s.ibc.incoming
            && Quorum(s.ibc.oracles, s.now, Content(message, None), signatures, c.minReceipt))
      && (r.Some? ==> r.value.ibc.incoming == s.ibc.incoming[id := Incoming(message, s.now, relayer)])
  {
    hide Quorum, Processed;
    if Received(c, s, message, relayer, signatures, accepted).Some? {
      ReceiveKeeps(c, s, message, relayer, signatures, accepted);
    }
  }

  /** And if it orders a credit that is new and the vault can pay, the credit is made. */
  lemma {:induction false} CreditMade(c: Config, s: State, message: Message, relayer: Destination,
                                      signatures: Signatures, accepted: bool, credit: Credit)
    requires Received(c, s, message, relayer, signatures, accepted).Some?
    requires Orders(c, s.token.contract, message, credit) && (Ethereum, credit.nonce) !in s.token.seen
    requires credit.amount <= Free(s.funds, Vault) && (credit.amount == 0 || accepted)
    ensures var s' := Received(c, s, message, relayer, signatures, accepted).value;
      s'.log.credits == s.log.credits + [credit] && Moved(s.funds, s'.funds, credit)
  {
    hide Quorum, Executed, Moved, Free;
    var id := Id(message.sender, message.nonce);
    var stored := s.(ibc := s.ibc.(incoming := s.ibc.incoming[id := Incoming(message, s.now, relayer)],
                                   incomingLookup := s.ibc.incomingLookup + {(message.recipient, id)}));
    CreditEffect(stored, Ethereum, credit.amount, None, credit.nonce, Here(credit.dest), accepted, Vault);
    ExecutedCredit(stored, message.payload.action, accepted);
  }

  /** Cleaning up removes exactly the listed messages that are older than the incoming time to live. */
  lemma {:induction false} CleanedWhen(c: Config, s: State, ids: seq<Id>, id: Id)
    ensures id in AllCleaned(c, s, ids).ibc.incoming <==>
      id in s.ibc.incoming && !(id in ids && s.ibc.incoming[id].received + c.incomingTtl < s.now)
    ensures AllCleaned(c, s, ids).now == s.now
    decreases |ids|
  {
    if ids != [] {
      var before, last := ids[..|ids| - 1], ids[|ids| - 1];
      assert ids == before + [last];
      CleanedWhen(c, s, before, id);
      CleanedWhen(c, s, before, last);
      CleanKeeps(c, s, before);
    }
  }

  // ----- oracles -----


  /** Of the updates of a key, the last one counts; keys that are not mentioned stay as they are. */
  lemma {:induction false} LastUpdateCounts(oracles: Oracles, updates: seq<OracleUpdate>, i: nat)
    requires i < |updates| && forall j :: i < j < |updates| ==> updates[j].key != updates[i].key
    ensures var r, key := OraclesUpdated(oracles, updates), updates[i].key;
      if updates[i].Remove? then key !in r else key in r && r[key] == updates[i].window
    decreases |updates|
  {
    if i < |updates| - 1 {
      LastUpdateCounts(oracles, updates[..|updates| - 1], i);
    }
  }

  lemma {:induction false} OthersNotUpdated(oracles: Oracles, updates: seq<OracleUpdate>, key: Key)
    requires forall j :: 0 <= j < |updates| ==> updates[j].key != key
    ensures var r := OraclesUpdated(oracles, updates);
      (key in r <==> key in oracles) && (key in oracles ==> r[key] == oracles[key])
    decreases |updates|
  {
    if updates != [] {
      OthersNotUpdated(oracles, updates[..|updates| - 1], key);
    }
  }
}
