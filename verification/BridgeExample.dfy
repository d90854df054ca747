/** A run with a transfer to Ethereum and one back that is credited. */
module BridgeExample {
  import opened Wrappers
  import opened MapSums
  import opened Quorums
  import opened Bridge
  import opened BridgeBooks
  import opened BridgeSteps
  import opened BridgeRuns
  import opened BridgeRules

  /** One oracle's signature is enough. */
  const CFG := Config(Acurast, 1, 1, 10, 10, 1, 1, 1)
  const ENV := Env(true, true, true, true)
  const ORACLE := ActivityWindow(0, None)

  /** Account 5 has 100, and the contract on Ethereum is 9. */
  const START := State(1, Funds(map[User(5) := 100], map[]), Ibc(map[1 := ORACLE], map[], map[], map[], {}, 0),
                       Token(true, Some(9), map[], map[], map[], {}, 0), Log([], 0))

  const OUT := TransferNative(5, There(Ethereum, 77), 60, 3, ENV)

  /** The proxy orders 40 for account 7. */
  const ORDER := Message(Contract(Ethereum, 9), Foreign(0), Extrinsic(Acurast, PalletAccount),
                         Encoded(TransferToken(40, None, 0, Here(User(7)))))

  const SIGNED: Signatures := [(Signature(1, Content(ORDER, None)), 1)]

  const IN := Receive(ORDER, Here(User(8)), SIGNED, true)

  const CREDIT := Credit(Ethereum, 0, User(7), 40)

  /** Account 5 has 100, the contract on Ethereum is 9, and nothing was sent or received yet. */
  ghost predicate Ready(s: State) {
    && Genesis(s) && s.token.enabled && s.token.contract == Some(9) && s.token.ttls == map[]
    && Free(s.funds, User(5)) == 100 && Free(s.funds, Vault) == 0
    && 1 in s.ibc.oracles && s.ibc.oracles[1] == ORACLE
  }

  lemma {:induction false} Starts()
    ensures Ready(START)
  {
  }

  lemma {:induction false} OneSigner(o: Oracles, now: Block)
    requires 1 in o && o[1] == ORACLE
    ensures Quorum(o, now, Content(ORDER, None), SIGNED, 1)
  {
    var keys := ActiveKeys(o, now, SIGNED);
    assert Active(o, now, SIGNED[0].1);
    assert 1 in keys;
    assert keys == {1};
  }

  lemma {:induction false} ReadyFacts(s: State)
    requires Ready(s)
    ensures NextNonce(s.token, Ethereum) == 0 && Ttl(CFG, s.token, Ethereum) == 10
    ensures s.ibc.incoming == map[] && s.token.seen == {} && s.log.credits == []
  {
  }

  /** The transfer goes through. */
  lemma {:induction false} SendsOut(s: State, start: Start)
    requires Good(CFG, s, start) && Ready(s)
    ensures var s' := Next(CFG, s, OUT);
      && Good(CFG, s', start) && Free(s'.funds, User(5)) == 37 && NextNonce(s'.token, Ethereum) == 1
      && (Ethereum, 0) in s'.token.transfers && s'.token.transfers[(Ethereum, 0)].amount == 60
      && TransferredNative(CFG, s, 5, There(Ethereum, 77), 60, 3, ENV) == Some(s')
  {
    ReadyFacts(s);
    hide Good, TransferredNative, Free, NextNonce, Genesis, Sound, Ttl;
    GoodSound(s, start);
    TransferredWhen(CFG, s, 5, There(Ethereum, 77), 60, 3, ENV);
    TransferGood(CFG, s, start, 5, There(Ethereum, 77), 60, 3, ENV);
  }

  lemma {:induction false} GoodSound(s: State, start: Start)
    requires Good(CFG, s, start)
    ensures Sound(CFG, s)
  {
  }

  lemma {:induction false} SentRest(s: State)
    requires TransferredNative(CFG, s, 5, There(Ethereum, 77), 60, 3, ENV).Some?
    ensures var s' := TransferredNative(CFG, s, 5, There(Ethereum, 77), 60, 3, ENV).value;
      && s'.ibc.oracles == s.ibc.oracles && s'.ibc.incoming == s.ibc.incoming
      && s'.token.contract == s.token.contract && s'.token.seen == s.token.seen && s'.log == s.log
  {
  }

  /** The order is received: 40 of them go to account 7. */
  lemma {:induction false} TakesIn(s: State)
    requires 1 in s.ibc.oracles && s.ibc.oracles[1] == ORACLE && s.ibc.incoming == map[]
    requires s.token.contract == Some(9) && (Ethereum, 0) !in s.token.seen && 40 <= Free(s.funds, Vault)
    ensures var s' := Next(CFG, s, IN);
      s'.log.credits == s.log.credits + [CREDIT] && Moved(s.funds, s'.funds, CREDIT)
  {
    OneSigner(s.ibc.oracles, s.now);
    hide Quorum, Free, Moved, Received;
    ReceivedWhen(CFG, s, ORDER, Here(User(8)), SIGNED, true);
    CreditMade(CFG, s, ORDER, Here(User(8)), SIGNED, true, CREDIT);
  }

  lemma {:induction false} VaultAfter(s: State, start: Start)
    requires Good(CFG, s, start) && start.vault == 0 && NextNonce(s.token, Ethereum) == 1 && s.log.credits == []
    requires (Ethereum, 0) in s.token.transfers && s.token.transfers[(Ethereum, 0)].amount == 60
    ensures Free(s.funds, Vault) == 60
  {
    hide Sound, Free, NextNonce;
    assert SentOut(s.token.transfers, 1) == 60 by { assert SentOut(s.token.transfers, 0) == 0; }
    assert CreditedOut(s.log.credits) == 0;
  }

  lemma {:induction false} BothCalls(s: State, start: Start)
    requires Ready(s) && start == StartOf(s)
    ensures var s2 := Next(CFG, Next(CFG, s, OUT), IN);
      Free(s2.funds, Vault) == 20 && Free(s2.funds, User(5)) == 37 && s2.log.credits == [CREDIT]
  {
    ReadyFacts(s);
    StartVault(s, start);
    hide Good, Free, NextNonce, Genesis, TransferredNative, Next;
    SendsOut(s, start);
    SentRest(s);
    var s1 := Next(CFG, s, OUT);
    VaultAfter(s1, start);
    TakesIn(s1);
    var s2 := Next(CFG, s1, IN);
    assert Free(s2.funds, Vault) == Free(s1.funds, Vault) - 40;
    assert Free(s2.funds, User(5)) == Free(s1.funds, User(5));
  }

  lemma {:induction false} StartVault(s: State, start: Start)
    requires Ready(s) && start == StartOf(s)
    ensures start.vault == 0 && Good(CFG, s, start)
  {
    GenesisGood(CFG, s);
    hide Genesis, Good;
  }

  lemma {:induction false} RunTwo(s: State, one: Call, two: Call)
    ensures Run(CFG, s, [one, two]) == Next(CFG, Next(CFG, s, one), two)
  {
    hide Next;
    assert [one, two][..1] == [one] && [one][..0] == [];
    assert Run(CFG, s, []) == s;
    assert Run(CFG, s, [one]) == Next(CFG, s, one);
  }

  /** 60 go into the vault and 40 of them come back to account 7: 20 stay, and account 5 paid the fee. */
  lemma {:induction false} ThereAndBack() returns (calls: seq<Call>)
    ensures Genesis(START) && calls == [OUT, IN]
    ensures var s := Run(CFG, START, calls);
      Free(s.funds, Vault) == 20 && Free(s.funds, User(5)) == 37 && s.log.credits == [Credit(Ethereum, 0, User(7), 40)]
  {
    Starts();
    hide Run, Next, START, Free;
    calls := [OUT, IN];
    RunTwo(START, OUT, IN);
    BothCalls(START, StartOf(START));
  }
}
