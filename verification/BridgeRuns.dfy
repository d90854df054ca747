/** Runs of the bridge, and what holds of every one of them. */
module BridgeRuns {
  import opened Wrappers
  import opened MapSums
  import opened Quorums
  import opened Bridge
  import opened BridgeBooks
  import opened BridgeSteps

  datatype Call =
    | Advance(blocks: nat)
    | UpdateOracles(updates: seq<OracleUpdate>)
    | SendTest(who: nat, recipient: Subject, ttl: nat, fee: nat, holds: bool)
    | ConfirmDelivery(who: nat, id: Id, signatures: Signatures, accepted: bool)
    | RemoveMessage(id: Id)
    | Receive(message: Message, relayer: Destination, signatures: Signatures, accepted: bool)
    | CleanIncoming(ids: seq<Id>)
    | TransferNative(who: nat, dest: Destination, amount: nat, fee: nat, env: Env)
    | RetryTransfer(who: nat, proxy: Chain, nonce: nat, fee: nat, env: Env)
    | EnableProxy(proxy: Chain, on: bool, fee: nat, env: Env)
    | SetContract(contract: nat)
    | SetPalletEnabled(on: bool)
    | SetTtl(proxy: Chain, override: Option<nat>)

  /** The settings of the token pallet, which only decide whether transfers go through. */
  function Configured(s: State, call: Call): State {
    match call
    case Advance(blocks) => s.(now := s.now + blocks)
    case UpdateOracles(updates) => s.(ibc := s.ibc.(oracles := OraclesUpdated(s.ibc.oracles, updates)))
    case SetContract(contract) => s.(token := s.token.(contract := Some(contract)))
    case SetPalletEnabled(on) => s.(token := s.token.(enabled := on))
    case SetTtl(proxy, override) =>
      var ttls := if override.Some? then s.token.ttls[proxy := override.value] else s.token.ttls - {proxy};
      s.(token := s.token.(ttls := ttls))
    case _ => s
  }

  ghost function After(c: Config, s: State, call: Call): Option<State> {
    match call
    case SendTest(who, recipient, ttl, fee, holds) => TestSent(c, s, who, recipient, ttl, fee, holds)
    case ConfirmDelivery(who, id, signatures, accepted) => DeliveryConfirmed(c, s, who, id, signatures, accepted)
    case RemoveMessage(id) => Removed(s, id)
    case Receive(message, relayer, signatures, accepted) => Received(c, s, message, relayer, signatures, accepted)
    case CleanIncoming(ids) => Some(AllCleaned(c, s, ids))
    case TransferNative(who, dest, amount, fee, env) => TransferredNative(c, s, who, dest, amount, fee, env)
    case RetryTransfer(who, proxy, nonce, fee, env) => Retried(c, s, who, proxy, nonce, fee, env)
    case EnableProxy(proxy, on, fee, env) => ProxyEnabled(c, s, proxy, on, fee, env)
    case _ => Some(Configured(s, call))
  }

  ghost function Next(c: Config, s: State, call: Call): State {
    var r := After(c, s, call);
    if r.Some? then r.value else s
  }

  ghost function Run(c: Config, s: State, calls: seq<Call>): State
    decreases |calls|
  {
    if calls == [] then s else Next(c, Run(c, s, calls[..|calls| - 1]), calls[|calls| - 1])
  }

  /** Nothing sent, received, credited or held yet; balances, keys and settings are arbitrary. */
  ghost predicate Genesis(s: State) {
    && s.funds.held == map[]
    && s.ibc == Ibc(s.ibc.oracles, map[], map[], map[], {}, 0)
    && s.token == Token(s.token.enabled, s.token.contract, s.token.ttls, map[], map[], {}, 0)
    && s.log == Log([], 0)
  }

  ghost function StartOf(s: State): Start {
    Start(Free(s.funds, Vault), Free(s.funds, FeeVault), Issuance(s.funds))
  }

  // ----- the invariant over runs -----

  lemma {:induction false} GenesisGood(c: Config, s: State)
    requires Genesis(s)
    ensures Good(c, s, StartOf(s))
  {
    forall a
      ensures Held(s.funds, a) == FeesOf(s.ibc.outgoing, a)
    {
      TotalZero(Fees(s.ibc.outgoing, a));
    }
    assert CreditKeys(s.log.credits) == {};
  }

  lemma {:induction false} ConfiguredGood(c: Config, s: State, start: Start, call: Call)
    requires Good(c, s, start)
    ensures Good(c, Configured(s, call), start)
  {
    hide HoldsMatch, Filed, OutgoingIndexed, IncomingIndexed, Contiguous, CreditedOnce, Balanced, OraclesUpdated;
    var s' := Configured(s, call);
    TokenAlike(c, s.ibc, s.token, s'.token);
    BalancedAlike(s, s', start);
  }

  lemma {:induction false} NextGood(c: Config, s: State, start: Start, call: Call)
    requires Good(c, s, start)
    ensures Good(c, Next(c, s, call), start)
  {
    hide Good, TestSent, DeliveryConfirmed, Removed, Received, AllCleaned, TransferredNative, Retried, ProxyEnabled,
         Configured;
    if After(c, s, call).Some? {
      match call
      case SendTest(who, recipient, ttl, fee, holds) => TestGood(c, s, start, who, recipient, ttl, fee, holds);
      case ConfirmDelivery(who, id, signatures, accepted) => ConfirmGood(c, s, start, who, id, signatures, accepted);
      case RemoveMessage(id) => RemoveGood(c, s, start, id);
      case Receive(message, relayer, signatures, accepted) =>
        ReceiveGood(c, s, start, message, relayer, signatures, accepted);
      case CleanIncoming(ids) => AllCleanGood(c, s, start, ids);
      case TransferNative(who, dest, amount, fee, env) => TransferGood(c, s, start, who, dest, amount, fee, env);
      case RetryTransfer(who, proxy, nonce, fee, env) => RetryGood(c, s, start, who, proxy, nonce, fee, env);
      case EnableProxy(proxy, on, fee, env) => EnableGood(c, s, start, proxy, on, fee, env);
      case _ => ConfiguredGood(c, s, start, call);
    }
  }

  lemma {:induction false} RunGood(c: Config, s: State, calls: seq<Call>)
    requires Genesis(s)
    ensures Good(c, Run(c, s, calls), StartOf(s))
    decreases |calls|
  {
    hide Good, Next, Genesis, StartOf;
    if calls == [] {
      GenesisGood(c, s);
    } else {
      RunGood(c, s, calls[..|calls| - 1]);
      NextGood(c, Run(c, s, calls[..|calls| - 1]), StartOf(s), calls[|calls| - 1]);
    }
  }

  /** The vault holds what it started with, and every recorded transfer, and lacks every credit. */
  lemma {:induction false} VaultBacked(c: Config, s: State, calls: seq<Call>)
    requires Genesis(s)
    ensures var s' := Run(c, s, calls);
      Free(s'.funds, Vault) + CreditedOut(s'.log.credits)
      == Free(s.funds, Vault) + SentOut(s'.token.transfers, NextNonce(s'.token, Ethereum))
  {
    hide Run, Genesis, Sound;
    RunGood(c, s, calls);
  }

  /** What is held of any account is the fees of its stored messages, and no fee appears or disappears. */
  lemma {:induction false} FeesConserved(c: Config, s: State, calls: seq<Call>, payer: Account)
    requires Genesis(s)
    ensures var s' := Run(c, s, calls);
      && Held(s'.funds, payer) == FeesOf(s'.ibc.outgoing, payer)
      && Issuance(s'.funds) == Issuance(s.funds)
      && Free(s'.funds, FeeVault) == Free(s.funds, FeeVault) + s'.log.removed + CreditedTo(s'.log.credits, FeeVault)
  {
    hide Run, Genesis, Filed, OutgoingIndexed, IncomingIndexed, Contiguous, CreditedOnce, FeesOf;
    RunGood(c, s, calls);
    var s' := Run(c, s, calls);
    assert HoldsMatch(s'.funds, s'.ibc.outgoing);
  }

  /** Transfer nonces are those below the next one, and the lookups hold exactly the stored messages. */
  lemma {:induction false} NoncesContiguous(c: Config, s: State, calls: seq<Call>, proxy: Chain, nonce: nat, id: Id,
                                            recipient: Subject)
    requires Genesis(s)
    ensures var s' := Run(c, s, calls);
      && ((proxy, nonce) in s'.token.transfers <==> nonce < NextNonce(s'.token, proxy))
      && (id in s'.ibc.outgoing <==> (id.sender, id.nonce) in s'.ibc.outgoingLookup)
      && ((recipient, id) in s'.ibc.incomingLookup
          <==> id in s'.ibc.incoming && s'.ibc.incoming[id].message.recipient == recipient)
  {
    hide Run, Genesis, Filed, CreditedOnce, HoldsMatch, Balanced;
    RunGood(c, s, calls);
  }

  /** A stored transfer message carries the recorded amount and destination, however often it was retried. */
  lemma {:induction false} TransferCarried(c: Config, s: State, calls: seq<Call>, proxy: Chain, nonce: nat)
    requires Genesis(s)
    requires Id(Extrinsic(c.self, PalletAccount), TransferNonce(proxy, nonce)) in Run(c, s, calls).ibc.outgoing
    ensures var s' := Run(c, s, calls);
      var m := s'.ibc.outgoing[Id(Extrinsic(c.self, PalletAccount), TransferNonce(proxy, nonce))];
      && (proxy, nonce) in s'.token.transfers
      && var t := s'.token.transfers[(proxy, nonce)];
      && m.message.payload == Encoded(TransferToken(t.amount, None, nonce, t.dest))
      && m.funder == t.source && m.payer == FeeVault
  {
    hide Run, Genesis, Sound;
    RunGood(c, s, calls);
    FiledHere(c, Run(c, s, calls), Id(Extrinsic(c.self, PalletAccount), TransferNonce(proxy, nonce)));
  }

  // ----- what stays for good -----

  /** Records of transfers and credits are never changed or taken back. */
  ghost predicate Keeps(s: State, s': State) {
    && (forall k :: k in s.token.transfers ==> k in s'.token.transfers && s'.token.transfers[k] == s.token.transfers[k])
    && s.log.credits <= s'.log.credits
  }

  lemma {:induction false} SentKeeps(c: Config, s: State, source: Account, nonce: Nonce, contract: nat,
                                     payload: Payload, ttl: nat, fee: nat, env: Env)
    requires FeePaidAndSent(c, s, source, nonce, contract, payload, ttl, fee, env).Some?
    ensures var s' := FeePaidAndSent(c, s, source, nonce, contract, payload, ttl, fee, env).value;
      s'.token == s.token && s'.log == s.log && s'.ibc.incoming == s.ibc.incoming
  {
  }

  lemma {:induction false} TransferKeeps(c: Config, s: State, who: nat, dest: Destination, amount: nat, fee: nat,
                                         env: Env)
    requires Contiguous(s.token) && TransferredNative(c, s, who, dest, amount, fee, env).Some?
    ensures var s' := TransferredNative(c, s, who, dest, amount, fee, env).value;
      Keeps(s, s') && s'.ibc.incoming == s.ibc.incoming && s'.log == s.log
  {
    hide Paid, FeePaidAndSent;
    var n := NextNonce(s.token, Ethereum);
    var token := s.token.(nextNonce := s.token.nextNonce[Ethereum := n + 1]);
    SentKeeps(c, s.(funds := Paid(s.funds, User(who), Vault, amount, env.pays).value, token := token), User(who),
              TransferNonce(Ethereum, n), token.contract.value, Encoded(TransferToken(amount, None, n, dest)),
              Ttl(c, token, Ethereum), fee, env);
    assert (Ethereum, n) !in s.token.transfers;
  }

  lemma {:induction false} RetryKeeps(c: Config, s: State, who: nat, proxy: Chain, nonce: nat, fee: nat, env: Env)
    requires Retried(c, s, who, proxy, nonce, fee, env).Some?
    ensures var s' := Retried(c, s, who, proxy, nonce, fee, env).value;
      s'.token == s.token && s'.log == s.log && s'.ibc.incoming == s.ibc.incoming
  {
  }

  lemma {:induction false} EnableKeeps(c: Config, s: State, proxy: Chain, on: bool, fee: nat, env: Env)
    requires ProxyEnabled(c, s, proxy, on, fee, env).Some?
    ensures var s' := ProxyEnabled(c, s, proxy, on, fee, env).value;
      Keeps(s, s') && s'.ibc.incoming == s.ibc.incoming && s'.log == s.log
  {
  }

  lemma {:induction false} CleanKeeps(c: Config, s: State, ids: seq<Id>)
    ensures var s' := AllCleaned(c, s, ids);
      && s'.token == s.token && s'.log == s.log
      && s'.ibc.incoming.Keys <= s.ibc.incoming.Keys
      && forall id :: id in s'.ibc.incoming ==> s'.ibc.incoming[id] == s.ibc.incoming[id]
    decreases |ids|
  {
    if ids != [] {
      CleanKeeps(c, s, ids[..|ids| - 1]);
    }
  }

  lemma {:induction false} MessageKeeps(c: Config, s: State, call: Call)
    requires call.SendTest? || call.ConfirmDelivery? || call.RemoveMessage?
    requires After(c, s, call).Some?
    ensures var s' := After(c, s, call).value;
      Keeps(s, s') && s'.ibc.incoming == s.ibc.incoming && s'.log.credits == s.log.credits
  {
    hide Released, PutOnHold, Quorum;
  }

  lemma {:induction false} ReceiveKeeps(c: Config, s: State, message: Message, relayer: Destination,
                                        signatures: Signatures, accepted: bool)
    requires Received(c, s, message, relayer, signatures, accepted).Some?
    ensures var s' := Received(c, s, message, relayer, signatures, accepted).value;
      && Keeps(s, s')
      && s'.ibc.incoming == s.ibc.incoming[Id(message.sender, message.nonce) := Incoming(message, s.now, relayer)]
  {
    hide Paid, Quorum;
  }

  lemma {:induction false} NextKeeps(c: Config, s: State, call: Call)
    requires Sound(c, s)
    ensures Keeps(s, Next(c, s, call))
  {
    SoundFunds(c, s);
    hide Sound, Keeps, TestSent, DeliveryConfirmed, Removed, Received, AllCleaned, TransferredNative, Retried,
         ProxyEnabled, Configured;
    if After(c, s, call).None? {
      KeepsAlike(s, s);
    } else {
      match call
      case SendTest(who, recipient, ttl, fee, holds) => MessageKeeps(c, s, call);
      case ConfirmDelivery(who, id, signatures, accepted) => MessageKeeps(c, s, call);
      case RemoveMessage(id) => MessageKeeps(c, s, call);
      case Receive(message, relayer, signatures, accepted) =>
        ReceiveKeeps(c, s, message, relayer, signatures, accepted);
      case CleanIncoming(ids) =>
        CleanKeeps(c, s, ids);
        KeepsAlike(s, AllCleaned(c, s, ids));
      case TransferNative(who, dest, amount, fee, env) => TransferKeeps(c, s, who, dest, amount, fee, env);
      case RetryTransfer(who, proxy, nonce, fee, env) =>
        RetryKeeps(c, s, who, proxy, nonce, fee, env);
        KeepsAlike(s, Retried(c, s, who, proxy, nonce, fee, env).value);
      case EnableProxy(proxy, on, fee, env) => EnableKeeps(c, s, proxy, on, fee, env);
      case _ =>
        ConfiguredKeeps(s, call);
        KeepsAlike(s, Configured(s, call));
    }
  }

  lemma {:induction false} ConfiguredKeeps(s: State, call: Call)
    ensures var s' := Configured(s, call);
      s'.token.transfers == s.token.transfers && s'.log == s.log && s'.ibc.incoming == s.ibc.incoming
  {
  }

  lemma {:induction false} KeepsAlike(s: State, s': State)
    requires s'.token.transfers == s.token.transfers && s'.log == s.log
    ensures Keeps(s, s')
  {
  }

  /** However a run goes on, transfers stay as recorded and the credits made before stay the first ones. */
  lemma {:induction false} HistoryKept(c: Config, s: State, calls: seq<Call>, n: nat)
    requires Genesis(s) && n <= |calls|
    ensures Keeps(Run(c, s, calls[..n]), Run(c, s, calls))
    decreases |calls|
  {
    hide Genesis, Next, Keeps, Good;
    if n == |calls| {
      assert calls[..n] == calls;
      KeepsAlike(Run(c, s, calls), Run(c, s, calls));
    } else {
      var before := calls[..|calls| - 1];
      assert before[..n] == calls[..n];
      HistoryKept(c, s, before, n);
      RunSound(c, s, before);
      NextKeeps(c, Run(c, s, before), calls[|calls| - 1]);
      KeepsOn(Run(c, s, calls[..n]), Run(c, s, before), Run(c, s, calls));
    }
  }

  lemma {:induction false} RunSound(c: Config, s: State, calls: seq<Call>)
    requires Genesis(s)
    ensures Sound(c, Run(c, s, calls)) && NoneTwice(Run(c, s, calls).log.credits)
  {
    RunGood(c, s, calls);
    hide Genesis, Run;
  }

  lemma {:induction false} KeepsOn(s: State, s1: State, s2: State)
    requires Keeps(s, s1) && Keeps(s1, s2)
    ensures Keeps(s, s2)
  {
  }

  /** The call at `i` of the run credits this transfer of the proxy. */
  ghost predicate Credits(c: Config, s: State, calls: seq<Call>, i: nat, proxy: Chain, nonce: nat)
    requires i < |calls|
  {
    var before, after := Run(c, s, calls[..i]).log.credits, Run(c, s, calls[..i + 1]).log.credits;
    |after| == |before| + 1 && (after[|before|].proxy, after[|before|].nonce) == (proxy, nonce)
  }

  /** No transfer is credited by two calls, whatever is cleaned up and received again between them. */
  lemma {:induction false} CreditOnce(c: Config, s: State, calls: seq<Call>, i: nat, j: nat, proxy: Chain, nonce: nat)
    requires Genesis(s) && i < j < |calls|
    requires Credits(c, s, calls, i, proxy, nonce)
    ensures !Credits(c, s, calls, j, proxy, nonce)
  {
    hide Genesis, Run;
    var k := |Run(c, s, calls[..i]).log.credits|;
    assert calls[..j + 1][..i + 1] == calls[..i + 1] && calls[..j + 1][..j] == calls[..j];
    assert calls[..j][..i + 1] == calls[..i + 1];
    HistoryKept(c, s, calls[..j], i + 1);
    HistoryKept(c, s, calls[..j + 1], i + 1);
    RunSound(c, s, calls[..j + 1]);
    var credits := Run(c, s, calls[..j + 1]).log.credits;
    assert (credits[k].proxy, credits[k].nonce) == (proxy, nonce);
  }

  /** The message orders this credit, from the contract configured for the proxy. */
  predicate Orders(c: Config, contract: Option<nat>, message: Message, credit: Credit) {
    && message.recipient == Extrinsic(c.self, PalletAccount)
    && contract.Some? && message.sender == Contract(Ethereum, contract.value) && credit.proxy == Ethereum
    && message.payload == Encoded(TransferToken(credit.amount, None, credit.nonce, Here(credit.dest)))
  }

  /** The amount of a credit moved from the vault to its destination, and nothing else moved. */
  ghost predicate Moved(f: Funds, f': Funds, credit: Credit) {
    && f'.held == f.held
    && forall a :: Free(f', a) == Free(f, a) - (if a == Vault then credit.amount else 0)
                              + (if a == credit.dest then credit.amount else 0)
  }

  /** The call at `i` of the run received, with a quorum, a message that orders the credit, and made it. */
  ghost predicate CreditedAt(c: Config, s: State, calls: seq<Call>, i: nat, credit: Credit)
    requires i < |calls|
  {
    var before, after := Run(c, s, calls[..i]), Run(c, s, calls[..i + 1]);
    && calls[i].Receive? && Orders(c, before.token.contract, calls[i].message, credit)
    && Quorum(before.ibc.oracles, before.now, Content(calls[i].message, None), calls[i].signatures, c.minReceipt)
    && Moved(before.funds, after.funds, credit) && after.log.credits == before.log.credits + [credit]
  }

  lemma {:induction false} ExecutedCredit(s: State, action: Action, accepted: bool)
    requires Executed(s, Ethereum, action, accepted).Some?
    ensures var s' := Executed(s, Ethereum, action, accepted).value;
      if action.TransferToken? then
        && action.asset.None? && action.dest.Here?
        && var credit := Credit(Ethereum, action.nonce, action.dest.account, action.amount);
        s'.log.credits == s.log.credits + [credit] && Moved(s.funds, s'.funds, credit)
      else s'.log == s.log
  {
    hide Paid, Free;
    if action.TransferToken? {
      PaidFacts(s.funds, Vault, action.dest.account, action.amount, accepted);
    }
  }

  lemma {:induction false} ReceiveCredits(c: Config, s: State, message: Message, relayer: Destination,
                                          signatures: Signatures, accepted: bool)
    requires Received(c, s, message, relayer, signatures, accepted).Some?
    ensures var s' := Received(c, s, message, relayer, signatures, accepted).value;
      || s'.log.credits == s.log.credits
      || (&& s.log.credits < s'.log.credits && |s'.log.credits| == |s.log.credits| + 1
          && var credit := s'.log.credits[|s.log.credits|];
          && Orders(c, s.token.contract, message, credit) && Moved(s.funds, s'.funds, credit)
          && Quorum(s.ibc.oracles, s.now, Content(message, None), signatures, c.minReceipt))
  {
    hide Quorum, Executed, Moved;
    var id := Id(message.sender, message.nonce);
    var stored := s.(ibc := s.ibc.(incoming := s.ibc.incoming[id := Incoming(message, s.now, relayer)],
                                   incomingLookup := s.ibc.incomingLookup + {(message.recipient, id)}));
    if message.payload.Encoded? && Executed(stored, Ethereum, message.payload.action, accepted).Some? {
      ExecutedCredit(stored, message.payload.action, accepted);
    }
  }

  lemma {:induction false} CreditStep(c: Config, s: State, call: Call)
    requires Sound(c, s)
    ensures var s' := Next(c, s, call);
      || s'.log.credits == s.log.credits
      || (&& call.Receive? && s.log.credits < s'.log.credits && |s'.log.credits| == |s.log.credits| + 1
          && var credit := s'.log.credits[|s.log.credits|];
          && Orders(c, s.token.contract, call.message, credit) && Moved(s.funds, s'.funds, credit)
          && Quorum(s.ibc.oracles, s.now, Content(call.message, None), call.signatures, c.minReceipt))
  {
    SoundFunds(c, s);
    hide Sound, Quorum, Keeps, TestSent, DeliveryConfirmed, Removed, Received, AllCleaned, TransferredNative, Retried,
         ProxyEnabled, Configured, Moved, Orders;
    if After(c, s, call).Some? {
      match call
      case SendTest(who, recipient, ttl, fee, holds) => MessageKeeps(c, s, call);
      case ConfirmDelivery(who, k, signatures, accepted) => MessageKeeps(c, s, call);
      case RemoveMessage(k) => MessageKeeps(c, s, call);
      case Receive(message, relayer, signatures, accepted) =>
        ReceiveCredits(c, s, message, relayer, signatures, accepted);
      case CleanIncoming(ids) => CleanKeeps(c, s, ids);
      case TransferNative(who, dest, amount, fee, env) => TransferKeeps(c, s, who, dest, amount, fee, env);
      case RetryTransfer(who, proxy, nonce, fee, env) => RetryKeeps(c, s, who, proxy, nonce, fee, env);
      case EnableProxy(proxy, on, fee, env) => EnableKeeps(c, s, proxy, on, fee, env);
      case _ => ConfiguredKeeps(s, call);
    }
  }

  /** Every credit was made by a received message that orders it, and moved just its amount to its destination. */
  lemma {:induction false} CreditFromMessage(c: Config, s: State, calls: seq<Call>, k: nat) returns (i: nat)
    requires Genesis(s) && k < |Run(c, s, calls).log.credits|
    ensures i < |calls| && CreditedAt(c, s, calls, i, Run(c, s, calls).log.credits[k])
    decreases |calls|
  {
    hide Sound, Next, Quorum, Moved, Orders;
    var before := calls[..|calls| - 1];
    RunSound(c, s, before);
    CreditStep(c, Run(c, s, before), calls[|calls| - 1]);
    assert calls[..|calls|] == calls;
    if k < |Run(c, s, before).log.credits| {
      i := CreditFromMessage(c, s, before, k);
      assert before[..i] == calls[..i] && before[..i + 1] == calls[..i + 1] && before[i] == calls[i];
    } else {
      i := |calls| - 1;
    }
  }

  // ----- quorums -----

  /** The call at `i` stored this message, with enough oracles behind it at that time. */
  ghost predicate AcceptedAt(c: Config, s: State, calls: seq<Call>, i: nat, entry: Incoming)
    requires i < |calls|
  {
    var earlier := Run(c, s, calls[..i]);
    && calls[i].Receive? && calls[i].message == entry.message && entry.received == earlier.now
    && Quorum(earlier.ibc.oracles, earlier.now, Content(entry.message, None), calls[i].signatures, c.minReceipt)
  }

  lemma {:induction false} IncomingStep(c: Config, s: State, call: Call, id: Id)
    requires Sound(c, s) && id in Next(c, s, call).ibc.incoming
    ensures var entry := Next(c, s, call).ibc.incoming[id];
      || (id in s.ibc.incoming && s.ibc.incoming[id] == entry)
      || (&& call.Receive? && call.message == entry.message && entry.received == s.now
          && Quorum(s.ibc.oracles, s.now, Content(entry.message, None), call.signatures, c.minReceipt))
  {
    SoundFunds(c, s);
    hide Sound, Quorum, Keeps, TestSent, DeliveryConfirmed, Removed, AllCleaned, TransferredNative, Retried,
         ProxyEnabled, Configured, Processed;
    if After(c, s, call).Some? {
      match call
      case SendTest(who, recipient, ttl, fee, holds) => MessageKeeps(c, s, call);
      case ConfirmDelivery(who, k, signatures, accepted) => MessageKeeps(c, s, call);
      case RemoveMessage(k) => MessageKeeps(c, s, call);
      case Receive(message, relayer, signatures, accepted) =>
        ReceiveKeeps(c, s, message, relayer, signatures, accepted);
      case CleanIncoming(ids) => CleanKeeps(c, s, ids);
      case TransferNative(who, dest, amount, fee, env) => TransferKeeps(c, s, who, dest, amount, fee, env);
      case RetryTransfer(who, proxy, nonce, fee, env) => RetryKeeps(c, s, who, proxy, nonce, fee, env);
      case EnableProxy(proxy, on, fee, env) => EnableKeeps(c, s, proxy, on, fee, env);
      case _ => ConfiguredKeeps(s, call);
    }
  }

  /** Every stored incoming message was received with a quorum of the oracles then active. */
  lemma {:induction false} AcceptedWithQuorum(c: Config, s: State, calls: seq<Call>, id: Id) returns (i: nat)
    requires Genesis(s) && id in Run(c, s, calls).ibc.incoming
    ensures i < |calls| && AcceptedAt(c, s, calls, i, Run(c, s, calls).ibc.incoming[id])
    decreases |calls|
  {
    hide Sound, Next, Quorum;
    var before := calls[..|calls| - 1];
    var entry := Run(c, s, calls).ibc.incoming[id];
    RunSound(c, s, before);
    IncomingStep(c, Run(c, s, before), calls[|calls| - 1], id);
    if id in Run(c, s, before).ibc.incoming && Run(c, s, before).ibc.incoming[id] == entry {
      i := AcceptedWithQuorum(c, s, before, id);
      assert before[..i] == calls[..i] && before[i] == calls[i];
    } else {
      i := |calls| - 1;
    }
  }

  /** As many distinct oracles as required, each active when it was received, signed that very message. */
  lemma {:induction false} IncomingVouched(c: Config, s: State, calls: seq<Call>, id: Id)
    returns (i: nat, keys: set<Key>)
    requires Genesis(s) && id in Run(c, s, calls).ibc.incoming
    ensures i < |calls| && calls[i].Receive? && c.minReceipt <= |keys|
    ensures var entry, earlier := Run(c, s, calls).ibc.incoming[id], Run(c, s, calls[..i]);
      && calls[i].message == entry.message && entry.received == earlier.now
      && Vouched(earlier.ibc.oracles, earlier.now, Content(entry.message, None), calls[i].signatures, keys)
  {
    hide Run, Genesis, Quorum, Vouched;
    i := AcceptedWithQuorum(c, s, calls, id);
    var earlier := Run(c, s, calls[..i]);
    keys := QuorumVouches(earlier.ibc.oracles, earlier.now, Content(calls[i].message, None), calls[i].signatures,
                          c.minReceipt);
  }
}
