/**
 * The hyperdrive bridge: messages between chains (hyperdrive-ibc), and the token transfers they
 * carry (hyperdrive-token). Hashes are injective: a message id is its sender and nonce, a nonce
 * what it was hashed from. The vaults and the pallet account sign nothing.
 */
module Bridge {
  import opened Wrappers
  import opened MapSums
  import opened Quorums

  datatype Account = Vault | FeeVault | PalletAccount | User(number: nat)

  datatype Chain = Acurast | Tezos | AlephZero | Vara | Ethereum | Solana | AcurastCanary

  datatype Subject = Extrinsic(chain: Chain, account: Account) | Contract(chain: Chain, address: nat)

  datatype Destination = Here(account: Account) | There(chain: Chain, address: nat)

  datatype Nonce = TestNonce(count: nat) | TransferNonce(proxy: Chain, n: nat) | EnableNonce(proxy: Chain, n: nat)
    | Foreign(nat)

  datatype Action = TransferToken(amount: nat, asset: Option<nat>, nonce: nat, dest: Destination)
    | SetEnabled(on: bool) | Noop

  datatype Payload = Encoded(action: Action) | Raw(account: Account)

  datatype Message = Message(sender: Subject, nonce: Nonce, recipient: Subject, payload: Payload)

  datatype Id = Id(sender: Subject, nonce: Nonce)

  /** What oracles sign: the message, and for a delivery the relayer that gets the fee. */
  datatype Content = Content(message: Message, relayer: Option<Account>)

  type Signatures = seq<(Signature<Content>, Key)>

  /** A stored outgoing message. `funder` keeps track of the account the fee came from. */
  datatype Outgoing = Outgoing(message: Message, sent: Block, ttlBlock: Block, fee: nat, payer: Account,
                               funder: Account)

  datatype Incoming = Incoming(message: Message, received: Block, relayer: Destination)

  datatype Config = Config(
    self: Chain, minFee: nat, minTtl: nat, incomingTtl: nat, defaultTtl: nat, minTransfer: nat,
    minReceipt: nat, minDelivery: nat)

  /** Free balances, and what is held for fees of outgoing messages. */
  datatype Funds = Funds(free: map<Account, nat>, held: map<Account, nat>)

  datatype Ibc = Ibc(
    oracles: Oracles, outgoing: map<Id, Outgoing>, outgoingLookup: map<(Subject, Nonce), Id>,
    incoming: map<Id, Incoming>, incomingLookup: set<(Subject, Id)>, counter: nat)

  datatype Transfer = Transfer(source: Account, dest: Destination, amount: nat)

  datatype Token = Token(
    enabled: bool, contract: Option<nat>, ttls: map<Chain, nat>, nextNonce: map<Chain, nat>,
    transfers: map<(Chain, nat), Transfer>, seen: set<(Chain, nat)>, nextEnable: nat)

  datatype Credit = Credit(proxy: Chain, nonce: nat, dest: Account, amount: nat)

  /** The credits made, and the fees the fee vault got back from removed messages. */
  datatype Log = Log(credits: seq<Credit>, removed: nat)

  datatype State = State(now: Block, funds: Funds, ibc: Ibc, token: Token, log: Log)

  /** Whether the currency, for reasons of its own such as the existential deposit, accepts each movement. */
  datatype Env = Env(pays: bool, paysFee: bool, holds: bool, refunds: bool)

  // ----- balances -----

  function Free(f: Funds, a: Account): nat {
    Amount(f.free, a)
  }

  function Held(f: Funds, a: Account): nat {
    Amount(f.held, a)
  }

  /** A transfer; one of nothing is left out. */
  function Paid(f: Funds, from: Account, to: Account, amount: nat, accepted: bool): Option<Funds> {
    if amount == 0 then Some(f)
    else if !accepted || Free(f, from) < amount then None
    else
      var free := f.free[from := Free(f, from) - amount];
      Some(f.(free := free[to := Amount(free, to) + amount]))
  }

  function PutOnHold(f: Funds, payer: Account, fee: nat, accepted: bool): Option<Funds> {
    if !accepted || Free(f, payer) < fee then None
    else Some(Funds(f.free[payer := Free(f, payer) - fee], f.held[payer := Held(f, payer) + fee]))
  }

  /** Held funds become free, of the payer or of someone else. */
  function Released(f: Funds, payer: Account, to: Account, fee: nat): Option<Funds> {
    if Held(f, payer) < fee then None
    else Some(Funds(f.free[to := Free(f, to) + fee], f.held[payer := Held(f, payer) - fee]))
  }

  // ----- messages -----

  /** Sends a message, replacing an expired one with the same id. */
  function Sent(c: Config, s: State, sender: Account, payer: Account, funder: Account, nonce: Nonce,
                recipient: Subject, payload: Payload, ttl: nat, fee: nat, holds: bool)
    : Option<(State, Option<Outgoing>)>
  {
    var from := Extrinsic(c.self, sender);
    var id := Id(from, nonce);
    if fee < c.minFee || recipient.chain == c.self then None
    else if id in s.ibc.outgoing && s.now <= s.ibc.outgoing[id].ttlBlock then None
    else
      var replaced := if id in s.ibc.outgoing then Some(s.ibc.outgoing[id]) else None;
      var released :=
        if replaced.None? then Some(s.funds)
        else Released(s.funds, replaced.value.payer, replaced.value.payer, replaced.value.fee);
      if released.None? || ttl < c.minTtl then None
      else
        var held := PutOnHold(released.value, payer, fee, holds);
        if held.None? then None
        else
          var message := Outgoing(Message(from, nonce, recipient, payload), s.now, s.now + ttl, fee, payer, funder);
          Some((s.(funds := held.value,
                   ibc := s.ibc.(outgoing := s.ibc.outgoing[id := message],
                                 outgoingLookup := s.ibc.outgoingLookup[(from, nonce) := id])), replaced))
  }

  function TestSent(c: Config, s: State, who: nat, recipient: Subject, ttl: nat, fee: nat, holds: bool): Option<State> {
    var counted := s.(ibc := s.ibc.(counter := s.ibc.counter + 1));
    match Sent(c, counted, User(who), User(who), User(who), TestNonce(s.ibc.counter), recipient, Raw(User(who)), ttl,
               fee, holds)
    case None => None
    case Some((s', _)) => Some(s')
  }

  /** An outgoing message is no longer stored. */
  function Dropped(s: State, id: Id): State
    requires id in s.ibc.outgoing
  {
    var m := s.ibc.outgoing[id].message;
    s.(ibc := s.ibc.(outgoing := s.ibc.outgoing - {id}, outgoingLookup := s.ibc.outgoingLookup - {(m.sender, m.nonce)}))
  }

  /** A relayer claims the fee with the oracles' signatures over the message and its own account. */
  ghost function DeliveryConfirmed(c: Config, s: State, who: nat, id: Id, signatures: Signatures,
                                   accepted: bool): Option<State>
  {
    if id !in s.ibc.outgoing || s.ibc.outgoing[id].ttlBlock < s.now then None
    else
      var m := s.ibc.outgoing[id];
      if !Quorum(s.ibc.oracles, s.now, Content(m.message, Some(User(who))), signatures, c.minDelivery)
        || !accepted then None
      else
        match Released(s.funds, m.payer, User(who), m.fee)
        case None => None
        case Some(funds) => Some(Dropped(s, id).(funds := funds))
  }

  /** An expired message is removed; its fee, or what is held of it, is the payer's again. */
  function Removed(s: State, id: Id): Option<State> {
    if id !in s.ibc.outgoing || s.now <= s.ibc.outgoing[id].ttlBlock then None
    else
      var m := s.ibc.outgoing[id];
      var fee := if m.fee <= Held(s.funds, m.payer) then m.fee else Held(s.funds, m.payer);
      match Released(s.funds, m.payer, m.payer, fee)
      case None => None
      case Some(funds) =>
        var log := if m.payer == FeeVault then s.log.(removed := s.log.removed + fee) else s.log;
        Some(Dropped(s, id).(funds := funds, log := log))
  }

  /** Stores a message the oracles signed; an error in processing it is swallowed. */
  ghost function Received(c: Config, s: State, message: Message, relayer: Destination, signatures: Signatures,
                          accepted: bool)
    : Option<State>
  {
    var id := Id(message.sender, message.nonce);
    if message.recipient.chain != c.self || id in s.ibc.incoming then None
    else if !Quorum(s.ibc.oracles, s.now, Content(message, None), signatures, c.minReceipt) then None
    else
      var stored := s.(ibc := s.ibc.(incoming := s.ibc.incoming[id := Incoming(message, s.now, relayer)],
                                     incomingLookup := s.ibc.incomingLookup + {(message.recipient, id)}));
      match Processed(c, stored, message, accepted)
      case None => Some(stored)
      case Some(s') => Some(s')
  }

  function Cleaned(c: Config, s: State, id: Id): State {
    if id !in s.ibc.incoming || s.now <= s.ibc.incoming[id].received + c.incomingTtl then s
    else
      s.(ibc := s.ibc.(incoming := s.ibc.incoming - {id},
                       incomingLookup := s.ibc.incomingLookup - {(s.ibc.incoming[id].message.recipient, id)}))
  }

  function AllCleaned(c: Config, s: State, ids: seq<Id>): State
    decreases |ids|
  {
    if ids == [] then s else Cleaned(c, AllCleaned(c, s, ids[..|ids| - 1]), ids[|ids| - 1])
  }

  datatype OracleUpdate = Add(key: Key, window: ActivityWindow) | Update(key: Key, window: ActivityWindow)
    | Remove(key: Key)

  function OraclesUpdated(oracles: Oracles, updates: seq<OracleUpdate>): Oracles
    decreases |updates|
  {
    if updates == [] then oracles
    else
      var before := OraclesUpdated(oracles, updates[..|updates| - 1]);
      match updates[|updates| - 1]
      case Add(key, window) => before[key := window]
      case Update(key, window) => before[key := window]
      case Remove(key) => before - {key}
  }

  // ----- transfers -----

  function ChainOf(dest: Destination): Chain {
    if dest.Here? then Acurast else dest.chain
  }

  function NextNonce(t: Token, proxy: Chain): nat {
    Amount(t.nextNonce, proxy)
  }

  function Ttl(c: Config, t: Token, proxy: Chain): nat {
    if proxy in t.ttls then t.ttls[proxy] else c.defaultTtl
  }

  /** The part transfers and the enabling of a proxy have in common: the fee, the message and the refund. */
  function FeePaidAndSent(c: Config, s: State, source: Account, nonce: Nonce, contract: nat, payload: Payload,
                          ttl: nat, fee: nat, env: Env)
    : Option<State>
  {
    match Paid(s.funds, source, FeeVault, fee, env.paysFee)
    case None => None
    case Some(funds) =>
      match Sent(c, s.(funds := funds), PalletAccount, FeeVault, source, nonce, Contract(Ethereum, contract), payload,
                 ttl, fee, env.holds)
      case None => None
      case Some((sent, replaced)) =>
        if replaced.None? then Some(sent)
        else
          match Paid(sent.funds, FeeVault, source, replaced.value.fee, env.refunds)
          case None => None
          case Some(refunded) => Some(sent.(funds := refunded))
  }

  /** A new transfer locks the amount and takes the next nonce; a retry does neither. */
  function DoTransfer(c: Config, s: State, source: Account, dest: Destination, amount: nat, fee: nat,
                      retried: Option<nat>, env: Env)
    : Option<(State, nat)>
  {
    var proxy := ChainOf(dest);
    if amount < c.minTransfer || proxy != Ethereum || s.token.contract.None? then None
    else
      match (if retried.None? then Paid(s.funds, source, Vault, amount, env.pays) else Some(s.funds))
      case None => None
      case Some(funds) =>
        var n := if retried.None? then NextNonce(s.token, proxy) else retried.value;
        var token := if retried.None? then s.token.(nextNonce := s.token.nextNonce[proxy := n + 1]) else s.token;
        match FeePaidAndSent(c, s.(funds := funds, token := token), source, TransferNonce(proxy, n),
                             token.contract.value,
                             Encoded(TransferToken(amount, None, n, dest)), Ttl(c, token, proxy), fee, env)
        case None => None
        case Some(s') => Some((s', n))
  }

  function TransferredNative(c: Config, s: State, who: nat, dest: Destination, amount: nat, fee: nat,
                             env: Env): Option<State>
  {
    if !s.token.enabled then None
    else
      match DoTransfer(c, s, User(who), dest, amount, fee, None, env)
      case None => None
      case Some((s', n)) =>
        var recorded := s'.token.transfers[(ChainOf(dest), n) := Transfer(User(who), dest, amount)];
        Some(s'.(token := s'.token.(transfers := recorded)))
  }

  function Retried(c: Config, s: State, who: nat, proxy: Chain, nonce: nat, fee: nat, env: Env): Option<State> {
    if !s.token.enabled || (proxy, nonce) !in s.token.transfers then None
    else
      var t := s.token.transfers[(proxy, nonce)];
      if t.source != User(who) then None
      else
        match DoTransfer(c, s, t.source, t.dest, t.amount, fee, Some(nonce), env)
        case None => None
        case Some((s', _)) => Some(s')
  }

  function ProxyEnabled(c: Config, s: State, proxy: Chain, on: bool, fee: nat, env: Env): Option<State> {
    if proxy != Ethereum || s.token.contract.None? then None
    else
      var token := s.token.(nextEnable := s.token.nextEnable + 1);
      FeePaidAndSent(c, s.(token := token), PalletAccount, EnableNonce(proxy, s.token.nextEnable), token.contract.value,
                     Encoded(SetEnabled(on)), Ttl(c, token, proxy), fee, env)
  }

  /** Executes the action of a message from a proxy. */
  function Executed(s: State, proxy: Chain, action: Action, accepted: bool): Option<State> {
    match action
    case TransferToken(amount, asset, nonce, dest) =>
      if asset.Some? || (proxy, nonce) in s.token.seen || !dest.Here? then None
      else
        (match Paid(s.funds, Vault, dest.account, amount, accepted)
         case None => None
         case Some(funds) =>
           Some(s.(funds := funds, token := s.token.(seen := s.token.seen + {(proxy, nonce)}),
                   log := s.log.(credits := s.log.credits + [Credit(proxy, nonce, dest.account, amount)]))))
    case Noop => Some(s)
    case SetEnabled(_) => None
  }

  /** Messages to the pallet account must come from the configured contract; others have no effect here. */
  function Processed(c: Config, s: State, message: Message, accepted: bool): Option<State> {
    if message.recipient != Extrinsic(c.self, PalletAccount) then Some(s)
    else if !message.sender.Contract? || message.sender.chain != Ethereum
      || s.token.contract != Some(message.sender.address)
    then None
    else if message.payload.Raw? then None
    else Executed(s, Ethereum, message.payload.action, accepted)
  }
}
