/** What holds in every state of the bridge, and that every operation keeps it. */
module BridgeSteps {
  import opened Wrappers
  import opened Quorums
  import opened Bridge
  import opened BridgeBooks

  // ----- the invariant -----

  /** A stored message is under its own id; a transfer's carries what was recorded, and the source paid the fee. */
  ghost predicate FiledAt(c: Config, outgoing: map<Id, Outgoing>, token: Token, counter: nat, id: Id)
    requires id in outgoing
  {
    var m := outgoing[id];
    && m.message.sender == id.sender && m.message.nonce == id.nonce
    && match id.nonce
       case TransferNonce(p, n) =>
         && id.sender == Extrinsic(c.self, PalletAccount) && m.payer == FeeVault
         && (p, n) in token.transfers
         && var t := token.transfers[(p, n)];
         m.funder == t.source && m.message.payload == Encoded(TransferToken(t.amount, None, n, t.dest))
       case EnableNonce(p, n) => m.payer == FeeVault && m.funder == PalletAccount && n < token.nextEnable
       case TestNonce(k) => m.payer.User? && m.funder == m.payer && k < counter
       case Foreign(_) => false
  }

  ghost predicate Filed(c: Config, outgoing: map<Id, Outgoing>, token: Token, counter: nat) {
    forall id :: id in outgoing ==> FiledAt(c, outgoing, token, counter, id)
  }

  /** The lookups hold exactly the stored messages. */
  ghost predicate OutgoingIndexed(outgoing: map<Id, Outgoing>, lookup: map<(Subject, Nonce), Id>) {
    && (forall id :: id in outgoing <==> (id.sender, id.nonce) in lookup)
    && (forall k :: k in lookup ==> lookup[k] == Id(k.0, k.1))
  }

  ghost predicate IncomingIndexed(incoming: map<Id, Incoming>, lookup: set<(Subject, Id)>) {
    && (forall r, id :: (r, id) in lookup <==> id in incoming && incoming[id].message.recipient == r)
    && (forall id :: id in incoming ==>
          incoming[id].message.sender == id.sender && incoming[id].message.nonce == id.nonce)
  }

  /** Transfer nonces are used without gaps, each recorded once used. */
  ghost predicate Contiguous(t: Token) {
    && (forall p, n: nat :: (p, n) in t.transfers <==> n < NextNonce(t, p))
    && (forall k :: k in t.transfers ==> k.0 == Ethereum == ChainOf(t.transfers[k].dest) && t.transfers[k].source.User?)
  }

  ghost function CreditKeys(credits: seq<Credit>): set<(Chain, nat)> {
    set i | 0 <= i < |credits| :: (credits[i].proxy, credits[i].nonce)
  }

  /** A transfer from a proxy is credited at most once. */
  ghost predicate NoneTwice(credits: seq<Credit>) {
    forall i, j :: 0 <= i < j < |credits|
      ==> (credits[i].proxy, credits[i].nonce) != (credits[j].proxy, credits[j].nonce)
  }

  ghost predicate CreditedOnce(seen: set<(Chain, nat)>, credits: seq<Credit>) {
    seen == CreditKeys(credits) && NoneTwice(credits)
  }

  ghost predicate Sound(c: Config, s: State) {
    && HoldsMatch(s.funds, s.ibc.outgoing)
    && Filed(c, s.ibc.outgoing, s.token, s.ibc.counter)
    && OutgoingIndexed(s.ibc.outgoing, s.ibc.outgoingLookup)
    && IncomingIndexed(s.ibc.incoming, s.ibc.incomingLookup)
    && Contiguous(s.token)
    && CreditedOnce(s.token.seen, s.log.credits)
  }

  // ----- the balances it leads to -----

  /** The amounts of the first `n` transfers to Ethereum. */
  function SentOut(transfers: map<(Chain, nat), Transfer>, n: nat): nat {
    if n == 0 then 0
    else SentOut(transfers, n - 1) + if (Ethereum, n - 1) in transfers then transfers[(Ethereum, n - 1)].amount else 0
  }

  /** What credits took out of the vault; one to the vault itself takes nothing. */
  function CreditedOut(credits: seq<Credit>): nat
    decreases |credits|
  {
    if credits == [] then 0
    else
      var last := credits[|credits| - 1];
      CreditedOut(credits[..|credits| - 1]) + if last.dest == Vault then 0 else last.amount
  }

  function CreditedTo(credits: seq<Credit>, to: Account): nat
    decreases |credits|
  {
    if credits == [] then 0
    else
      var last := credits[|credits| - 1];
      CreditedTo(credits[..|credits| - 1], to) + if last.dest == to then last.amount else 0
  }

  /** What the vault, the fee vault and everyone together had at the start. */
  datatype Start = Start(vault: nat, feeVault: nat, issuance: nat)

  ghost predicate Balanced(s: State, start: Start) {
    && Free(s.funds, Vault) + CreditedOut(s.log.credits)
      == start.vault + SentOut(s.token.transfers, NextNonce(s.token, Ethereum))
    && Free(s.funds, FeeVault) == start.feeVault + s.log.removed + CreditedTo(s.log.credits, FeeVault)
    && Issuance(s.funds) == start.issuance
  }

  ghost predicate Good(c: Config, s: State, start: Start) {
    Sound(c, s) && Balanced(s, start)
  }

  // ----- storing and dropping messages -----

  lemma {:induction false} FileStore(c: Config, o: map<Id, Outgoing>, token: Token, counter: nat, id: Id, m: Outgoing,
                                     token': Token, counter': nat)
    requires Filed(c, o, token, counter)
    requires token.transfers.Items <= token'.transfers.Items && token.nextEnable <= token'.nextEnable
      && counter <= counter'
    requires FiledAt(c, o[id := m], token', counter', id)
    ensures Filed(c, o[id := m], token', counter')
  {
    var o' := o[id := m];
    forall k | k in o'
      ensures FiledAt(c, o', token', counter', k)
    {
      if k != id {
        assert FiledAt(c, o, token, counter, k);
        if k.nonce.TransferNonce? {
          var t := (k.nonce.proxy, k.nonce.n);
          assert (t, token.transfers[t]) in token.transfers.Items;
          assert (t, token.transfers[t]) in token'.transfers.Items;
        }
      }
    }
  }

  lemma {:induction false} FileDrop(c: Config, o: map<Id, Outgoing>, token: Token, counter: nat, id: Id)
    requires Filed(c, o, token, counter)
    ensures Filed(c, o - {id}, token, counter)
  {
  }

  lemma {:induction false} IndexStore(o: map<Id, Outgoing>, lookup: map<(Subject, Nonce), Id>, id: Id, m: Outgoing)
    requires OutgoingIndexed(o, lookup)
    ensures OutgoingIndexed(o[id := m], lookup[(id.sender, id.nonce) := id])
  {
  }

  lemma {:induction false} IndexDrop(o: map<Id, Outgoing>, lookup: map<(Subject, Nonce), Id>, id: Id)
    requires OutgoingIndexed(o, lookup)
    ensures OutgoingIndexed(o - {id}, lookup - {(id.sender, id.nonce)})
  {
  }

  /** A message stored by a call that touches nothing else but the token's counters and records. */
  lemma {:induction false} StoredSound(c: Config, s: State, mid: State, s': State, sender: Account, payer: Account,
                                       funder: Account, nonce: Nonce, payload: Payload, fee: nat)
    requires Sound(c, s) && Stored(c, mid, s'.(token := mid.token), sender, payer, funder, nonce, payload, fee)
    requires mid.ibc == s.ibc.(counter := mid.ibc.counter) && s.ibc.counter <= mid.ibc.counter
    requires HoldsMatch(s'.funds, s'.ibc.outgoing)
    requires Contiguous(s'.token) && s'.token.seen == s.token.seen && s'.log == s.log
    requires s.token.transfers.Items <= s'.token.transfers.Items && s.token.nextEnable <= s'.token.nextEnable
    requires var id := Id(Extrinsic(c.self, sender), nonce);
      id in s'.ibc.outgoing && FiledAt(c, s'.ibc.outgoing, s'.token, s'.ibc.counter, id)
    ensures Sound(c, s')
  {
    hide HoldsMatch, Filed, FiledAt, OutgoingIndexed, IncomingIndexed, Contiguous, CreditedOnce;
    var id := Id(Extrinsic(c.self, sender), nonce);
    var m := s'.ibc.outgoing[id];
    FileStore(c, s.ibc.outgoing, s.token, s.ibc.counter, id, m, s'.token, s'.ibc.counter);
    IndexStore(s.ibc.outgoing, s.ibc.outgoingLookup, id, m);
  }

  lemma {:induction false} DroppedSound(c: Config, s: State, id: Id, s': State, to: Account)
    requires Sound(c, s) && id in s.ibc.outgoing
    requires var m := s.ibc.outgoing[id];
      && Released(s.funds, m.payer, to, m.fee).Some?
      && s' == Dropped(s, id).(funds := Released(s.funds, m.payer, to, m.fee).value, log := s'.log)
    requires s'.log.credits == s.log.credits
    ensures Sound(c, s') && Issuance(s'.funds) == Issuance(s.funds)
    ensures forall a :: Free(s'.funds, a) == Free(s.funds, a) + if a == to then s.ibc.outgoing[id].fee else 0
  {
    hide HoldsMatch, Filed, OutgoingIndexed, IncomingIndexed, Contiguous, CreditedOnce, Released, Free, Held, Issuance;
    var m := s.ibc.outgoing[id];
    assert FiledAt(c, s.ibc.outgoing, s.token, s.ibc.counter, id) by {
      FiledHere(c, s, id);
    }
    ReleaseFacts(s.funds, m.payer, to, m.fee);
    DropMatches(s.funds, s'.funds, s.ibc.outgoing, id);
    FileDrop(c, s.ibc.outgoing, s.token, s.ibc.counter, id);
    IndexDrop(s.ibc.outgoing, s.ibc.outgoingLookup, id);
  }

  lemma {:induction false} FiledHere(c: Config, s: State, id: Id)
    requires Sound(c, s) && id in s.ibc.outgoing
    ensures FiledAt(c, s.ibc.outgoing, s.token, s.ibc.counter, id)
  {
  }

  // ----- the operations on messages -----

  lemma {:induction false} TestGood(c: Config, s: State, start: Start, who: nat, recipient: Subject, ttl: nat,
                                    fee: nat, holds: bool)
    requires Good(c, s, start) && TestSent(c, s, who, recipient, ttl, fee, holds).Some?
    ensures Good(c, TestSent(c, s, who, recipient, ttl, fee, holds).value, start)
  {
    hide Sent, Sound, Issuance, Free;
    var user := User(who);
    var counted := s.(ibc := s.ibc.(counter := s.ibc.counter + 1));
    var s' := TestSent(c, s, who, recipient, ttl, fee, holds).value;
    var id := Id(Extrinsic(c.self, user), TestNonce(s.ibc.counter));
    TestFresh(c, s, id);
    SentFacts(c, counted, user, user, user, TestNonce(s.ibc.counter), recipient, Raw(user), ttl, fee, holds);
    assert s'.(token := counted.token) == s';
    StoredSound(c, s, counted, s', user, user, user, TestNonce(s.ibc.counter), Raw(user), fee);
  }

  /** Test messages never replace another. */
  lemma {:induction false} TestFresh(c: Config, s: State, id: Id)
    requires Sound(c, s) && id.nonce == TestNonce(s.ibc.counter)
    ensures id !in s.ibc.outgoing && HoldsMatch(s.funds, s.ibc.outgoing) && Contiguous(s.token)
  {
  }

  lemma {:induction false} ConfirmGood(c: Config, s: State, start: Start, who: nat, id: Id, signatures: Signatures,
                                       accepted: bool)
    requires Good(c, s, start) && DeliveryConfirmed(c, s, who, id, signatures, accepted).Some?
    ensures Good(c, DeliveryConfirmed(c, s, who, id, signatures, accepted).value, start)
  {
    hide Sound, Quorum, Released, Issuance, Free;
    DroppedSound(c, s, id, DeliveryConfirmed(c, s, who, id, signatures, accepted).value, User(who));
  }

  /** The relayer gets the fee, out of what is held of the payer; nothing else moves. */
  lemma {:induction false} ConfirmEffect(c: Config, s: State, who: nat, id: Id, signatures: Signatures, accepted: bool,
                                         a: Account)
    requires DeliveryConfirmed(c, s, who, id, signatures, accepted).Some?
    ensures id in s.ibc.outgoing
    ensures var s', m := DeliveryConfirmed(c, s, who, id, signatures, accepted).value, s.ibc.outgoing[id];
      && Free(s'.funds, a) == Free(s.funds, a) + (if a == User(who) then m.fee else 0)
      && Held(s'.funds, a) == Held(s.funds, a) - (if a == m.payer then m.fee else 0)
      && s'.ibc.outgoing == s.ibc.outgoing - {id}
  {
    hide Quorum, Released, Free, Held;
    ReleaseFacts(s.funds, s.ibc.outgoing[id].payer, User(who), s.ibc.outgoing[id].fee);
  }

  lemma {:induction false} RemoveGood(c: Config, s: State, start: Start, id: Id)
    requires Good(c, s, start) && Removed(s, id).Some?
    ensures Good(c, Removed(s, id).value, start)
    ensures Free(Removed(s, id).value.funds, s.ibc.outgoing[id].payer)
      == Free(s.funds, s.ibc.outgoing[id].payer) + s.ibc.outgoing[id].fee
  {
    hide Sound, Released, Issuance, Free, Held;
    var m := s.ibc.outgoing[id];
    HeldHere(c, s, id);
    DroppedSound(c, s, id, Removed(s, id).value, m.payer);
    PayersOf(c, s, id);
  }

  lemma {:induction false} HeldHere(c: Config, s: State, id: Id)
    requires Sound(c, s) && id in s.ibc.outgoing
    ensures s.ibc.outgoing[id].fee <= Held(s.funds, s.ibc.outgoing[id].payer)
  {
    ReleaseNeverFails(s, id, s.ibc.outgoing[id].payer);
  }

  lemma {:induction false} PayersOf(c: Config, s: State, id: Id)
    requires Sound(c, s) && id in s.ibc.outgoing
    ensures s.ibc.outgoing[id].payer == FeeVault || s.ibc.outgoing[id].payer.User?
  {
  }

  // ----- transfers -----

  lemma {:induction false} SentOutSame(t: map<(Chain, nat), Transfer>, t': map<(Chain, nat), Transfer>, n: nat)
    requires forall k: nat :: k < n ==> ((Ethereum, k) in t <==> (Ethereum, k) in t')
    requires forall k: nat :: k < n && (Ethereum, k) in t ==> t[(Ethereum, k)] == t'[(Ethereum, k)]
    ensures SentOut(t, n) == SentOut(t', n)
  {
    if n != 0 {
      SentOutSame(t, t', n - 1);
    }
  }

  /** The next transfer's nonce is unused, and recording the transfer keeps the nonces contiguous. */
  lemma {:induction false} RecordedNext(c: Config, s: State, t: Token, t': Token, transfer: Transfer)
    requires Sound(c, s) && t == s.token && transfer.source.User? && ChainOf(transfer.dest) == Ethereum
    requires var n := NextNonce(t, Ethereum);
      t' == t.(nextNonce := t.nextNonce[Ethereum := n + 1], transfers := t.transfers[(Ethereum, n) := transfer])
    ensures Contiguous(t') && t.transfers.Items <= t'.transfers.Items
    ensures var n := NextNonce(t, Ethereum);
      && NextNonce(t', Ethereum) == n + 1
      && SentOut(t'.transfers, n + 1) == SentOut(t.transfers, n) + transfer.amount
      && Id(Extrinsic(c.self, PalletAccount), TransferNonce(Ethereum, n)) !in s.ibc.outgoing
  {
    var n := NextNonce(t, Ethereum);
    assert (Ethereum, n) !in t.transfers;
    forall item | item in t.transfers.Items
      ensures item in t'.transfers.Items
    {
      assert item.0 in t.transfers && item.0 != (Ethereum, n);
      assert item.0 in t'.transfers && t'.transfers[item.0] == item.1;
    }
    SentOutSame(t.transfers, t'.transfers, n);
    var id := Id(Extrinsic(c.self, PalletAccount), TransferNonce(Ethereum, n));
    if id in s.ibc.outgoing {
      FiledHere(c, s, id);
    }
  }

  lemma {:induction false} SoundFunds(c: Config, s: State)
    requires Sound(c, s)
    ensures HoldsMatch(s.funds, s.ibc.outgoing) && Contiguous(s.token)
  {
  }

  /** A transfer moves its amount to the vault, and its fee on hold. */
  lemma {:induction false} TransferGood(c: Config, s: State, start: Start, who: nat, dest: Destination, amount: nat,
                                        fee: nat, env: Env)
    requires Good(c, s, start) && TransferredNative(c, s, who, dest, amount, fee, env).Some?
    ensures var s' := TransferredNative(c, s, who, dest, amount, fee, env).value;
      && Good(c, s', start)
      && Free(s'.funds, User(who)) == Free(s.funds, User(who)) - amount - fee
  {
    hide Sound, FeePaidAndSent, Paid, Issuance, Free, HoldsMatch, Contiguous, SentOut, NextNonce, CreditedOut,
         CreditedTo;
    var user, n := User(who), NextNonce(s.token, Ethereum);
    var s' := TransferredNative(c, s, who, dest, amount, fee, env).value;
    var funds := Paid(s.funds, user, Vault, amount, env.pays).value;
    var token := s.token.(nextNonce := s.token.nextNonce[Ethereum := n + 1]);
    var mid := s.(funds := funds, token := token);
    PaidFacts(s.funds, user, Vault, amount, env.pays);
    SoundFunds(c, s);
    HeldAlike(s.funds, funds, s.ibc.outgoing);
    var token' := token.(transfers := token.transfers[(Ethereum, n) := Transfer(user, dest, amount)]);
    RecordedNext(c, s, s.token, token', Transfer(user, dest, amount));
    FeePaidFacts(c, mid, user, TransferNonce(Ethereum, n), token.contract.value,
                 Encoded(TransferToken(amount, None, n, dest)),
                 Ttl(c, token, Ethereum), fee, env);
    assert s'.token == token';
    StoredSound(c, s, mid, s', PalletAccount, FeeVault, user, TransferNonce(Ethereum, n),
                Encoded(TransferToken(amount, None, n, dest)), fee);
  }

  /** A retry moves no amount and returns the replaced message's fee to the account it came from. */
  lemma {:induction false} RetryGood(c: Config, s: State, start: Start, who: nat, proxy: Chain, nonce: nat, fee: nat,
                                     env: Env)
    requires Good(c, s, start) && Retried(c, s, who, proxy, nonce, fee, env).Some?
    ensures var s' := Retried(c, s, who, proxy, nonce, fee, env).value;
      var replaced := At(s.ibc.outgoing, Id(Extrinsic(c.self, PalletAccount), TransferNonce(proxy, nonce)));
      && Good(c, s', start) && s'.token == s.token
      && (forall a :: a != User(who) ==> Free(s'.funds, a) == Free(s.funds, a))
      && (replaced.Some? ==> replaced.value.funder == User(who))
      && Free(s'.funds, User(who)) == Free(s.funds, User(who)) - fee + if replaced.Some? then replaced.value.fee else 0
  {
    hide Sound, FeePaidAndSent, Issuance, Free, HoldsMatch, Contiguous, SentOut, NextNonce, CreditedOut, CreditedTo;
    var user := User(who);
    var t := s.token.transfers[(proxy, nonce)];
    var s' := Retried(c, s, who, proxy, nonce, fee, env).value;
    SoundFunds(c, s);
    RetryFiled(c, s, proxy, nonce);
    assert s.(funds := s.funds, token := s.token) == s;
    FeePaidFacts(c, s, user, TransferNonce(Ethereum, nonce), s.token.contract.value,
                 Encoded(TransferToken(t.amount, None, nonce, t.dest)), Ttl(c, s.token, Ethereum), fee, env);
    assert s'.(token := s.token) == s';
    StoredSound(c, s, s, s', PalletAccount, FeeVault, user, TransferNonce(Ethereum, nonce),
                Encoded(TransferToken(t.amount, None, nonce, t.dest)), fee);
  }

  lemma {:induction false} RetryFiled(c: Config, s: State, proxy: Chain, nonce: nat)
    requires Sound(c, s) && (proxy, nonce) in s.token.transfers
    ensures proxy == Ethereum == ChainOf(s.token.transfers[(proxy, nonce)].dest)
    ensures var replaced := At(s.ibc.outgoing, Id(Extrinsic(c.self, PalletAccount), TransferNonce(proxy, nonce)));
      replaced.Some? ==>
        replaced.value.payer == FeeVault && replaced.value.funder == s.token.transfers[(proxy, nonce)].source
  {
  }

  /** Enabling messages never replace another, so the pallet account pays just the fee. */
  lemma {:induction false} EnableGood(c: Config, s: State, start: Start, proxy: Chain, on: bool, fee: nat, env: Env)
    requires Good(c, s, start) && ProxyEnabled(c, s, proxy, on, fee, env).Some?
    ensures var s' := ProxyEnabled(c, s, proxy, on, fee, env).value;
      Good(c, s', start) && Free(s'.funds, PalletAccount) == Free(s.funds, PalletAccount) - fee
  {
    hide Sound, FeePaidAndSent, Issuance, Free, HoldsMatch, Contiguous, SentOut, NextNonce, CreditedOut, CreditedTo;
    var n := s.token.nextEnable;
    var mid := s.(token := s.token.(nextEnable := n + 1));
    var s' := ProxyEnabled(c, s, proxy, on, fee, env).value;
    SoundFunds(c, s);
    EnableFresh(c, s, proxy);
    FeePaidFacts(c, mid, PalletAccount, EnableNonce(proxy, n), mid.token.contract.value, Encoded(SetEnabled(on)),
                 Ttl(c, mid.token, proxy), fee, env);
    assert s'.(token := mid.token) == s';
    StoredSound(c, s, mid, s', PalletAccount, FeeVault, PalletAccount, EnableNonce(proxy, n), Encoded(SetEnabled(on)),
                fee);
  }

  lemma {:induction false} EnableFresh(c: Config, s: State, proxy: Chain)
    requires Sound(c, s)
    ensures Id(Extrinsic(c.self, PalletAccount), EnableNonce(proxy, s.token.nextEnable)) !in s.ibc.outgoing
    ensures Contiguous(s.token.(nextEnable := s.token.nextEnable + 1))
    ensures NextNonce(s.token.(nextEnable := s.token.nextEnable + 1), Ethereum) == NextNonce(s.token, Ethereum)
  {
  }

  // ----- incoming messages -----

  lemma {:induction false} CreditAdded(credits: seq<Credit>, seen: set<(Chain, nat)>, credit: Credit)
    requires CreditedOnce(seen, credits) && (credit.proxy, credit.nonce) !in seen
    ensures CreditedOnce(seen + {(credit.proxy, credit.nonce)}, credits + [credit])
    ensures CreditedOut(credits + [credit]) == CreditedOut(credits) + if credit.dest == Vault then 0 else credit.amount
    ensures CreditedTo(credits + [credit], FeeVault)
         == CreditedTo(credits, FeeVault) + if credit.dest == FeeVault then credit.amount else 0
  {
    var credits' := credits + [credit];
    assert credits'[..|credits'| - 1] == credits;
    KeysAdded(credits, credit);
    forall i, j | 0 <= i < j < |credits'|
      ensures (credits'[i].proxy, credits'[i].nonce) != (credits'[j].proxy, credits'[j].nonce)
    {
      assert (credits'[i].proxy, credits'[i].nonce) in CreditKeys(credits);
    }
  }

  lemma {:induction false} KeysAdded(credits: seq<Credit>, credit: Credit)
    ensures CreditKeys(credits + [credit]) == CreditKeys(credits) + {(credit.proxy, credit.nonce)}
  {
    var credits' := credits + [credit];
    forall k | k in CreditKeys(credits')
      ensures k in CreditKeys(credits) + {(credit.proxy, credit.nonce)}
    {
      var i :| 0 <= i < |credits'| && k == (credits'[i].proxy, credits'[i].nonce);
      if i < |credits| {
        assert credits'[i] == credits[i];
      }
    }
    forall k | k in CreditKeys(credits)
      ensures k in CreditKeys(credits')
    {
      var i :| 0 <= i < |credits| && k == (credits[i].proxy, credits[i].nonce);
      assert credits'[i] == credits[i];
    }
    assert credits'[|credits|] == credit;
  }

  /**
   * A transfer from a proxy takes effect exactly when it is of the native token, for an account here, new,
   * and in the vault; then the amount moves from the vault to that account, and nothing else moves.
   */
  lemma {:induction false} CreditEffect(s: State, proxy: Chain, amount: nat, asset: Option<nat>, nonce: nat,
                                        dest: Destination, accepted: bool, a: Account)
    ensures var r := Executed(s, proxy, TransferToken(amount, asset, nonce, dest), accepted);
      && (r.Some? <==> && asset.None? && dest.Here? && (proxy, nonce) !in s.token.seen
                       && (amount == 0 || (accepted && amount <= Free(s.funds, Vault))))
      && (r.Some? ==>
            && Free(r.value.funds, a)
            == Free(s.funds, a) - (if a == Vault then amount else 0) + (if a == dest.account then amount else 0)
            && Held(r.value.funds, a) == Held(s.funds, a)
            && (proxy, nonce) in r.value.token.seen && r.value.token.transfers == s.token.transfers)
  {
    if asset.None? && dest.Here? && Paid(s.funds, Vault, dest.account, amount, accepted).Some? {
      PaidFacts(s.funds, Vault, dest.account, amount, accepted);
    }
  }

  lemma {:induction false} CreditGood(c: Config, s: State, start: Start, proxy: Chain, amount: nat, nonce: nat,
                                      dest: Account, accepted: bool)
    requires Good(c, s, start) && Executed(s, proxy, TransferToken(amount, None, nonce, Here(dest)), accepted).Some?
    ensures Good(c, Executed(s, proxy, TransferToken(amount, None, nonce, Here(dest)), accepted).value, start)
  {
    hide HoldsMatch, Filed, OutgoingIndexed, IncomingIndexed, Contiguous, CreditedOnce, Paid, Free, Issuance, SentOut,
         CreditedOut, CreditedTo;
    var s' := Executed(s, proxy, TransferToken(amount, None, nonce, Here(dest)), accepted).value;
    PaidFacts(s.funds, Vault, dest, amount, accepted);
    HeldAlike(s.funds, s'.funds, s.ibc.outgoing);
    CreditAdded(s.log.credits, s.token.seen, Credit(proxy, nonce, dest, amount));
    TokenAlike(c, s.ibc, s.token, s'.token);
  }

  lemma {:induction false} TokenAlike(c: Config, ibc: Ibc, t: Token, t': Token)
    requires Filed(c, ibc.outgoing, t, ibc.counter) && Contiguous(t)
    requires t'.transfers == t.transfers && t'.nextNonce == t.nextNonce && t'.nextEnable == t.nextEnable
    ensures Filed(c, ibc.outgoing, t', ibc.counter) && Contiguous(t')
  {
  }

  lemma {:induction false} ProcessGood(c: Config, s: State, start: Start, message: Message, accepted: bool)
    requires Good(c, s, start) && Processed(c, s, message, accepted).Some?
    ensures Good(c, Processed(c, s, message, accepted).value, start)
  {
    hide Good;
    if message.recipient == Extrinsic(c.self, PalletAccount) && message.payload.action.TransferToken? {
      var a := message.payload.action;
      assert a == TransferToken(a.amount, None, a.nonce, Here(a.dest.account));
      CreditGood(c, s, start, Ethereum, a.amount, a.nonce, a.dest.account, accepted);
    }
  }

  lemma {:induction false} IncomingStore(incoming: map<Id, Incoming>, lookup: set<(Subject, Id)>, m: Incoming)
    requires IncomingIndexed(incoming, lookup) && Id(m.message.sender, m.message.nonce) !in incoming
    ensures var id := Id(m.message.sender, m.message.nonce);
      IncomingIndexed(incoming[id := m], lookup + {(m.message.recipient, id)})
  {
  }

  lemma {:induction false} ReceiveGood(c: Config, s: State, start: Start, message: Message, relayer: Destination,
                                       signatures: Signatures, accepted: bool)
    requires Good(c, s, start) && Received(c, s, message, relayer, signatures, accepted).Some?
    ensures Good(c, Received(c, s, message, relayer, signatures, accepted).value, start)
  {
    hide HoldsMatch, Filed, OutgoingIndexed, IncomingIndexed, Contiguous, CreditedOnce, Balanced, Quorum, Processed;
    var id := Id(message.sender, message.nonce);
    var stored := s.(ibc := s.ibc.(incoming := s.ibc.incoming[id := Incoming(message, s.now, relayer)],
                                   incomingLookup := s.ibc.incomingLookup + {(message.recipient, id)}));
    IncomingStore(s.ibc.incoming, s.ibc.incomingLookup, Incoming(message, s.now, relayer));
    BalancedAlike(s, stored, start);
    if Processed(c, stored, message, accepted).Some? {
      ProcessGood(c, stored, start, message, accepted);
    }
  }

  lemma {:induction false} BalancedAlike(s: State, s': State, start: Start)
    requires Balanced(s, start) && s'.funds == s.funds && s'.log == s.log
    requires s'.token.transfers == s.token.transfers && s'.token.nextNonce == s.token.nextNonce
    ensures Balanced(s', start)
  {
  }

  lemma {:induction false} IncomingDrop(incoming: map<Id, Incoming>, lookup: set<(Subject, Id)>, id: Id)
    requires IncomingIndexed(incoming, lookup) && id in incoming
    ensures IncomingIndexed(incoming - {id}, lookup - {(incoming[id].message.recipient, id)})
  {
  }

  lemma {:induction false} CleanGood(c: Config, s: State, start: Start, id: Id)
    requires Good(c, s, start)
    ensures Good(c, Cleaned(c, s, id), start)
  {
    hide HoldsMatch, Filed, OutgoingIndexed, IncomingIndexed, Contiguous, CreditedOnce, Balanced;
    if id in s.ibc.incoming {
      IncomingDrop(s.ibc.incoming, s.ibc.incomingLookup, id);
    }
    BalancedAlike(s, Cleaned(c, s, id), start);
  }

  lemma {:induction false} AllCleanGood(c: Config, s: State, start: Start, ids: seq<Id>)
    requires Good(c, s, start)
    ensures Good(c, AllCleaned(c, s, ids), start)
    decreases |ids|
  {
    hide Good, Cleaned;
    if ids != [] {
      AllCleanGood(c, s, start, ids[..|ids| - 1]);
      CleanGood(c, AllCleaned(c, s, ids[..|ids| - 1]), start, ids[|ids| - 1]);
    }
  }
}
