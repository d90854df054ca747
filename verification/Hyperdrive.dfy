/** The two pallets of the bridge, over one state. A call that fails leaves the state as it was. */
module Hyperdrive {
  import opened Wrappers
  import opened Quorums
  import opened Bridge
  import opened BridgeSteps
  import opened BridgeRuns

  lemma {:induction false} UpdatesStep(oracles: Oracles, updates: seq<OracleUpdate>, i: nat)
    requires i < |updates|
    ensures OraclesUpdated(oracles, updates[..0]) == oracles
    ensures var before := OraclesUpdated(oracles, updates[..i]);
      OraclesUpdated(oracles, updates[..i + 1])
      == match updates[i]
         case Add(key, window) => before[key := window]
         case Update(key, window) => before[key := window]
         case Remove(key) => before - {key}
  {
    assert updates[..i + 1][..i] == updates[..i];
  }

  lemma {:induction false} CleanedStep(c: Config, s: State, ids: seq<Id>, i: nat)
    requires i < |ids|
    ensures AllCleaned(c, s, ids[..i + 1]) == Cleaned(c, AllCleaned(c, s, ids[..i]), ids[i])
  {
    assert ids[..i + 1][..i] == ids[..i];
  }

  class Pallets {
    const c: Config
    ghost const start: Start
    var s: State

    ghost predicate Valid()
      reads this
    {
      Good(c, s, start)
    }

    constructor (config: Config, genesis: State)
      requires Genesis(genesis)
      ensures Valid() && c == config && s == genesis && start == StartOf(genesis)
    {
      GenesisGood(config, genesis);
      c := config;
      start := StartOf(genesis);
      s := genesis;
    }

    // ----- hyperdrive-ibc -----

    method UpdateOracles(updates: seq<OracleUpdate>)
      requires Valid()
      modifies this
      ensures Valid() && s == Next(c, old(s), Call.UpdateOracles(updates))
    {
      hide Good;
      NextGood(c, s, start, Call.UpdateOracles(updates));
      var oracles := s.ibc.oracles;
      for i := 0 to |updates|
        invariant s == old(s) && oracles == OraclesUpdated(s.ibc.oracles, updates[..i])
      {
        UpdatesStep(s.ibc.oracles, updates, i);
        match updates[i] {
          case Add(key, window) => oracles := oracles[key := window];
          case Update(key, window) => oracles := oracles[key := window];
          case Remove(key) => oracles := oracles - {key};
        }
      }
      assert updates[..|updates|] == updates;
      s := s.(ibc := s.ibc.(oracles := oracles));
    }

    /** Stores a message and holds its fee. One with the same id must have expired; its fee is released. */
    method DoSendMessage(sender: Account, payer: Account, funder: Account, nonce: Nonce, recipient: Subject,
                         payload: Payload, ttl: nat, fee: nat, holds: bool)
      returns (ok: bool, replaced: Option<Outgoing>)
      modifies this
      ensures ok <==> Sent(c, old(s), sender, payer, funder, nonce, recipient, payload, ttl, fee, holds).Some?
      ensures ok ==>
        Sent(c, old(s), sender, payer, funder, nonce, recipient, payload, ttl, fee, holds).value == (s, replaced)
    {
      hide Free, Held, PutOnHold, Released;
      replaced := None;
      if fee < c.minFee {
        return false, None;
      }
      var from := Extrinsic(c.self, sender);
      if recipient.chain == c.self {
        return false, None;
      }
      var id := Id(from, nonce);
      if id in s.ibc.outgoing {
        var message := s.ibc.outgoing[id];
        if s.now <= message.ttlBlock {
          return false, None;
        }
        var released := Released(s.funds, message.payer, message.payer, message.fee);
        if released.None? {
          return false, None;
        }
        s := s.(funds := released.value);
        replaced := Some(message);
      }
      if ttl < c.minTtl {
        return false, None;
      }
      var stored := Outgoing(Message(from, nonce, recipient, payload), s.now, s.now + ttl, fee, payer, funder);
      s := s.(ibc := s.ibc.(outgoing := s.ibc.outgoing[id := stored]));
      s := s.(ibc := s.ibc.(outgoingLookup := s.ibc.outgoingLookup[(from, nonce) := id]));
      var held := PutOnHold(s.funds, payer, fee, holds);
      if held.None? {
        return false, None;
      }
      s := s.(funds := held.value);
      ok := true;
    }

    method SendTestMessage(who: nat, recipient: Subject, ttl: nat, fee: nat, holds: bool) returns (ok: bool)
      requires Valid()
      modifies this
      ensures Valid() && ok == TestSent(c, old(s), who, recipient, ttl, fee, holds).Some?
      ensures s == if ok then TestSent(c, old(s), who, recipient, ttl, fee, holds).value else old(s)
    {
      hide Good, Sent;
      var before := s;
      if TestSent(c, s, who, recipient, ttl, fee, holds).Some? {
        TestGood(c, s, start, who, recipient, ttl, fee, holds);
      }
      var count := s.ibc.counter;
      s := s.(ibc := s.ibc.(counter := count + 1));
      var replaced;
      ok, replaced := DoSendMessage(User(who), User(who), User(who), TestNonce(count), recipient, Raw(User(who)), ttl,
                                    fee, holds);
      if !ok {
        s := before;
      }
    }

    /** Clears a message from both stores. */
    method Clear(id: Id)
      requires id in s.ibc.outgoing
      modifies this
      ensures s == Dropped(old(s), id)
    {
      var message := s.ibc.outgoing[id].message;
      s := s.(ibc := s.ibc.(outgoing := s.ibc.outgoing - {id}));
      s := s.(ibc := s.ibc.(outgoingLookup := s.ibc.outgoingLookup - {(message.sender, message.nonce)}));
    }

    method ConfirmMessageDelivery(who: nat, id: Id, signatures: Signatures, accepted: bool) returns (ok: bool)
      requires Valid()
      modifies this
      ensures Valid() && ok == DeliveryConfirmed(c, old(s), who, id, signatures, accepted).Some?
      ensures s == if ok then DeliveryConfirmed(c, old(s), who, id, signatures, accepted).value else old(s)
    {
      hide Good, Quorum, Released;
      if DeliveryConfirmed(c, s, who, id, signatures, accepted).Some? {
        ConfirmGood(c, s, start, who, id, signatures, accepted);
      }
      if id !in s.ibc.outgoing {
        return false;
      }
      var message := s.ibc.outgoing[id];
      if message.ttlBlock < s.now {
        return false;
      }
      var quorum := CheckSignatures(s.ibc.oracles, s.now, Content(message.message, Some(User(who))), signatures,
                                    c.minDelivery);
      if quorum.Err? || !accepted {
        return false;
      }
      var released := Released(s.funds, message.payer, User(who), message.fee);
      if released.None? {
        return false;
      }
      s := s.(funds := released.value);
      Clear(id);
      return true;
    }

    method RemoveMessage(id: Id) returns (ok: bool)
      requires Valid()
      modifies this
      ensures Valid() && ok == Removed(old(s), id).Some?
      ensures s == if ok then Removed(old(s), id).value else old(s)
    {
      hide Good, Released;
      if Removed(s, id).Some? {
        RemoveGood(c, s, start, id);
      }
      if id !in s.ibc.outgoing {
        return false;
      }
      var message := s.ibc.outgoing[id];
      if s.now <= message.ttlBlock {
        return false;
      }
      var held := Held(s.funds, message.payer);
      var fee := if message.fee <= held then message.fee else held;
      var released := Released(s.funds, message.payer, message.payer, fee);
      if released.None? {
        return false;
      }
      s := s.(funds := released.value);
      if message.payer == FeeVault {
        s := s.(log := s.log.(removed := s.log.removed + fee));
      }
      Clear(id);
      return true;
    }

    method ReceiveMessage(message: Message, relayer: Destination, signatures: Signatures, accepted: bool)
      returns (ok: bool)
      requires Valid()
      modifies this
      ensures Valid() && ok == Received(c, old(s), message, relayer, signatures, accepted).Some?
      ensures s == if ok then Received(c, old(s), message, relayer, signatures, accepted).value else old(s)
    {
      hide Good, Quorum, Processed;
      if Received(c, s, message, relayer, signatures, accepted).Some? {
        ReceiveGood(c, s, start, message, relayer, signatures, accepted);
      }
      if message.recipient.chain != c.self {
        return false;
      }
      var id := Id(message.sender, message.nonce);
      if id in s.ibc.incoming {
        return false;
      }
      var quorum := CheckSignatures(s.ibc.oracles, s.now, Content(message, None), signatures, c.minReceipt);
      if quorum.Err? {
        return false;
      }
      s := s.(ibc := s.ibc.(incoming := s.ibc.incoming[id := Incoming(message, s.now, relayer)]));
      s := s.(ibc := s.ibc.(incomingLookup := s.ibc.incomingLookup + {(message.recipient, id)}));
      var stored := s;
      var processed := Process(message, accepted);
      if !processed {
        s := stored;
      }
      return true;
    }

    method CleanIncoming(ids: seq<Id>)
      requires Valid()
      modifies this
      ensures Valid() && s == AllCleaned(c, old(s), ids)
    {
      hide Good;
      AllCleanGood(c, s, start, ids);
      for i := 0 to |ids|
        invariant s == AllCleaned(c, old(s), ids[..i])
      {
        CleanedStep(c, old(s), ids, i);
        var id := ids[i];
        if id in s.ibc.incoming {
          var entry := s.ibc.incoming[id];
          if entry.received + c.incomingTtl < s.now {
            s := s.(ibc := s.ibc.(incoming := s.ibc.incoming - {id}));
            s := s.(ibc := s.ibc.(incomingLookup := s.ibc.incomingLookup - {(entry.message.recipient, id)}));
          }
        }
      }
      assert ids[..|ids|] == ids;
    }

    // ----- hyperdrive-token -----

    /** The fee goes to the fee vault, which pays for the message; the fee of a replaced one goes back. */
    method PayFeeAndSend(source: Account, nonce: Nonce, contract: nat, payload: Payload, ttl: nat, fee: nat, env: Env)
      returns (ok: bool)
      modifies this
      ensures ok <==> FeePaidAndSent(c, old(s), source, nonce, contract, payload, ttl, fee, env).Some?
      ensures ok ==> FeePaidAndSent(c, old(s), source, nonce, contract, payload, ttl, fee, env).value == s
    {
      hide Paid, Sent;
      var paid := Paid(s.funds, source, FeeVault, fee, env.paysFee);
      if paid.None? {
        return false;
      }
      s := s.(funds := paid.value);
      var replaced;
      ok, replaced := DoSendMessage(PalletAccount, FeeVault, source, nonce, Contract(Ethereum, contract), payload, ttl,
                                    fee, env.holds);
      if ok && replaced.Some? {
        var refunded := Paid(s.funds, FeeVault, source, replaced.value.fee, env.refunds);
        if refunded.None? {
          return false;
        }
        s := s.(funds := refunded.value);
      }
    }

    method DoTransferNative(source: Account, dest: Destination, amount: nat, fee: nat, retried: Option<nat>, env: Env)
      returns (r: Option<nat>)
      modifies this
      ensures r.Some? <==> DoTransfer(c, old(s), source, dest, amount, fee, retried, env).Some?
      ensures r.Some? ==> DoTransfer(c, old(s), source, dest, amount, fee, retried, env).value == (s, r.value)
    {
      hide Paid, FeePaidAndSent;
      if amount < c.minTransfer {
        return None;
      }
      var proxy := ChainOf(dest);
      if proxy != Ethereum || s.token.contract.None? {
        return None;
      }
      var n;
      if retried.None? {
        var paid := Paid(s.funds, source, Vault, amount, env.pays);
        if paid.None? {
          return None;
        }
        s := s.(funds := paid.value);
        n := NextNonce(s.token, proxy);
        s := s.(token := s.token.(nextNonce := s.token.nextNonce[proxy := n + 1]));
      } else {
        n := retried.value;
      }
      assert retried.Some? ==> s.(funds := s.funds, token := s.token) == s;
      var ok := PayFeeAndSend(source, TransferNonce(proxy, n), s.token.contract.value,
                              Encoded(TransferToken(amount, None, n, dest)), Ttl(c, s.token, proxy), fee, env);
      return if ok then Some(n) else None;
    }

    method TransferNative(who: nat, dest: Destination, amount: nat, fee: nat, env: Env) returns (ok: bool)
      requires Valid()
      modifies this
      ensures Valid() && ok == TransferredNative(c, old(s), who, dest, amount, fee, env).Some?
      ensures s == if ok then TransferredNative(c, old(s), who, dest, amount, fee, env).value else old(s)
    {
      hide Good, DoTransfer;
      var before := s;
      if TransferredNative(c, s, who, dest, amount, fee, env).Some? {
        TransferGood(c, s, start, who, dest, amount, fee, env);
      }
      if !s.token.enabled {
        return false;
      }
      var nonce := DoTransferNative(User(who), dest, amount, fee, None, env);
      if nonce.None? {
        s := before;
        return false;
      }
      var transfer := Transfer(User(who), dest, amount);
      s := s.(token := s.token.(transfers := s.token.transfers[(ChainOf(dest), nonce.value) := transfer]));
      return true;
    }

    method RetryTransferNative(who: nat, proxy: Chain, nonce: nat, fee: nat, env: Env) returns (ok: bool)
      requires Valid()
      modifies this
      ensures Valid() && ok == Retried(c, old(s), who, proxy, nonce, fee, env).Some?
      ensures s == if ok then Retried(c, old(s), who, proxy, nonce, fee, env).value else old(s)
    {
      hide Good, DoTransfer;
      var before := s;
      if Retried(c, s, who, proxy, nonce, fee, env).Some? {
        RetryGood(c, s, start, who, proxy, nonce, fee, env);
      }
      if !s.token.enabled || (proxy, nonce) !in s.token.transfers {
        return false;
      }
      var previous := s.token.transfers[(proxy, nonce)];
      if previous.source != User(who) {
        return false;
      }
      var sent := DoTransferNative(previous.source, previous.dest, previous.amount, fee, Some(nonce), env);
      if sent.None? {
        s := before;
        return false;
      }
      return true;
    }

    method EnableProxyChain(proxy: Chain, on: bool, fee: nat, env: Env) returns (ok: bool)
      requires Valid()
      modifies this
      ensures Valid() && ok == ProxyEnabled(c, old(s), proxy, on, fee, env).Some?
      ensures s == if ok then ProxyEnabled(c, old(s), proxy, on, fee, env).value else old(s)
    {
      hide Good, FeePaidAndSent;
      var before := s;
      if ProxyEnabled(c, s, proxy, on, fee, env).Some? {
        EnableGood(c, s, start, proxy, on, fee, env);
      }
      if proxy != Ethereum || s.token.contract.None? {
        return false;
      }
      var nonce := s.token.nextEnable;
      s := s.(token := s.token.(nextEnable := nonce + 1));
      ok := PayFeeAndSend(PalletAccount, EnableNonce(proxy, nonce), s.token.contract.value, Encoded(SetEnabled(on)),
                          Ttl(c, s.token, proxy), fee, env);
      if !ok {
        s := before;
      }
    }

    method Execute(proxy: Chain, action: Action, accepted: bool) returns (ok: bool)
      modifies this
      ensures ok <==> Executed(old(s), proxy, action, accepted).Some?
      ensures ok ==> s == Executed(old(s), proxy, action, accepted).value
    {
      hide Paid;
      match action {
        case TransferToken(amount, asset, nonce, dest) =>
          if asset.Some? || (proxy, nonce) in s.token.seen {
            return false;
          }
          s := s.(token := s.token.(seen := s.token.seen + {(proxy, nonce)}));
          if !dest.Here? {
            return false;
          }
          var paid := Paid(s.funds, Vault, dest.account, amount, accepted);
          if paid.None? {
            return false;
          }
          s := s.(funds := paid.value);
          s := s.(log := s.log.(credits := s.log.credits + [Credit(proxy, nonce, dest.account, amount)]));
          return true;
        case Noop =>
          return true;
        case SetEnabled(_) =>
          return false;
      }
    }

    method Process(message: Message, accepted: bool) returns (ok: bool)
      modifies this
      ensures ok <==> Processed(c, old(s), message, accepted).Some?
      ensures ok ==> s == Processed(c, old(s), message, accepted).value
    {
      hide Executed;
      if message.recipient != Extrinsic(c.self, PalletAccount) {
        return true;
      }
      if !message.sender.Contract? || message.sender.chain != Ethereum
        || s.token.contract != Some(message.sender.address) {
        return false;
      }
      if message.payload.Raw? {
        return false;
      }
      ok := Execute(Ethereum, message.payload.action, accepted);
    }
  }
}
