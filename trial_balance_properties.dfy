/** What the ledger engine guarantees (src/trial_balance.rs): the outcome of
    each kind of transaction, the places where the code allows more than the
    design describes, invariants kept over whole runs, and the scenario of
    the engine's own test. */
module TrialBalanceProperties {
  import opened Results
  import opened Clients
  import opened TransactionIds
  import opened Transactions
  import opened Errors
  import opened Accounts
  import opened TransactionRecords
  import opened TrialBalances

  /** True when `client` already has an account and that account is locked. */
  predicate IsLocked(s: TrialBalanceState, client: Client) {
    client in s.accounts && s.accounts[client].locked
  }

  // ---------------------------------------------------------------------
  // One transaction

  /** A locked account refuses every transaction, deposits included, and
      neither the ledger nor any balance changes. */
  lemma LockedAccountRefuses(s: TrialBalanceState, tx: Transaction)
    requires IsLocked(s, tx.Client())
    ensures s.Handle(tx) == (s, Err(AccountLocked))
  {
  }

  /** An account is created on first use: a missing account behaves exactly
      like a fresh one, and stays fresh when the transaction fails. */
  lemma MissingAccountIsFresh(s: TrialBalanceState, tx: Transaction)
    requires tx.Client() !in s.accounts
    ensures s.Handle(tx) == s.WithAccount(tx.Client()).Handle(tx)
    ensures s.Handle(tx).1.Err? ==> s.Handle(tx).0.accounts[tx.Client()] == Fresh(tx.Client())
  {
  }

  /** A transfer whose id is already in the ledger is a duplicate: nothing
      changes beyond the creation of a missing account. */
  lemma DuplicateTransfer(s: TrialBalanceState, t: Transfer)
    requires !IsLocked(s, Transaction.Transfer(t).Client())
    requires t.TransactionId() in s.ledger
    ensures s.Handle(Transaction.Transfer(t))
         == (s.WithAccount(Transaction.Transfer(t).Client()), Err(DuplicateTransaction(t.TransactionId())))
  {
  }

  /** A transfer with a new id is entered as a fresh record whether or not the
      account accepts it; the account's answer is the result. */
  lemma NewTransferIsRecorded(s: TrialBalanceState, t: Transfer)
    requires !IsLocked(s, Transaction.Transfer(t).Client())
    requires t.TransactionId() !in s.ledger
    ensures var c := Transaction.Transfer(t).Client();
            var a := s.WithAccount(c).accounts[c];
            var r := s.Handle(Transaction.Transfer(t));
            && r.0.ledger == s.ledger[t.TransactionId() := NewRecord(t)]
            && r.0.accounts == s.WithAccount(c).accounts[c := a.HandleTransfer(t).0]
            && r.1 == a.HandleTransfer(t).1
  {
  }

  /** A mutation naming an unknown id is refused; nothing changes beyond the
      creation of a missing account. */
  lemma MutationOfUnknownId(s: TrialBalanceState, m: Mutation)
    requires !IsLocked(s, Transaction.Mutation(m).Client())
    requires m.TransactionId() !in s.ledger
    ensures s.Handle(Transaction.Mutation(m))
         == (s.WithAccount(Transaction.Mutation(m).Client()), Err(MissingTransaction(m.TransactionId())))
  {
  }

  /** A mutation the entry refuses changes neither the entry nor any balance
      and reports the entry's error. */
  lemma RefusedMutation(s: TrialBalanceState, m: Mutation)
    requires !IsLocked(s, Transaction.Mutation(m).Client())
    requires m.TransactionId() in s.ledger && s.ledger[m.TransactionId()].Mutate(m).1.Err?
    ensures s.Handle(Transaction.Mutation(m))
         == (s.WithAccount(Transaction.Mutation(m).Client()), Err(RefusalFor(m)))
  {
  }

  /** A mutation the entry accepts always succeeds: the lock was checked
      first and nothing in between locks the account. The entry makes its
      transition and the account of the mutation's client moves by the amount
      of the entry's transfer. */
  lemma AcceptedMutation(s: TrialBalanceState, m: Mutation)
    requires !IsLocked(s, Transaction.Mutation(m).Client())
    requires m.TransactionId() in s.ledger && s.ledger[m.TransactionId()].Mutate(m).1.Ok?
    ensures var c := Transaction.Mutation(m).Client();
            var id := m.TransactionId();
            var a := s.WithAccount(c).accounts[c];
            var r := s.Handle(Transaction.Mutation(m));
            && r.1 == Ok(())
            && r.0.ledger == s.ledger[id := s.ledger[id].Mutate(m).0]
            && r.0.accounts == s.WithAccount(c).accounts[c := a.HandleMutation(m, s.ledger[id].tx.Amount()).0]
  {
  }

  /** `AcceptedMutation` for a known entry transition and account step: the
      state afterwards is the state with both replaced. */
  lemma AcceptedStep(s: TrialBalanceState, m: Mutation, record: RecordState, account: AccountState, next: TrialBalanceState)
    requires var c := Transaction.Mutation(m).Client();
             && c in s.accounts && !s.accounts[c].locked
             && m.TransactionId() in s.ledger
             && s.ledger[m.TransactionId()].Mutate(m) == (record, Ok(()))
             && s.accounts[c].HandleMutation(m, s.ledger[m.TransactionId()].tx.Amount()).0 == account
             && next == TrialBalanceState(s.accounts[c := account], s.ledger[m.TransactionId() := record])
    ensures s.Handle(Transaction.Mutation(m)) == (next, Ok(()))
  {
    AcceptedMutation(s, m);
  }

  /** Repeating a transfer on an account that was not locked is refused as
      a duplicate and changes nothing, whatever became of the first one. */
  lemma TransferTwice(s: TrialBalanceState, t: Transfer)
    requires !IsLocked(s, Transaction.Transfer(t).Client())
    ensures var s1 := s.Handle(Transaction.Transfer(t)).0;
            s1.Handle(Transaction.Transfer(t)) == (s1, Err(DuplicateTransaction(t.TransactionId())))
  {
    var c := Transaction.Transfer(t).Client();
    var s1 := s.Handle(Transaction.Transfer(t)).0;
    assert c in s1.accounts && !s1.accounts[c].locked;
    assert t.TransactionId() in s1.ledger;
    DuplicateTransfer(s1, t);
  }

  // ---------------------------------------------------------------------
  // Where the code allows more than the design describes

  /** The client of a mutation is never compared with the client of the
      transfer it names: a dispute by another client holds that other
      client's funds and leaves the depositor's account alone. */
  lemma DisputeByAnotherClient(s: TrialBalanceState, d: Dispute)
    requires d.tx in s.ledger && !s.ledger[d.tx].chargeBacked
    requires d.client in s.accounts && !s.accounts[d.client].locked
    requires Transaction.Transfer(s.ledger[d.tx].tx).Client() != d.client
    ensures var owner := Transaction.Transfer(s.ledger[d.tx].tx).Client();
            var r := s.Handle(Transaction.Mutation(Mutation.Dispute(d)));
            && r.1 == Ok(())
            && r.0.accounts[d.client].held == s.accounts[d.client].held + s.ledger[d.tx].tx.Amount()
            && (owner in s.accounts ==> r.0.accounts[owner] == s.accounts[owner])
  {
  }

  /** The starkest case of the above: a client with no account disputes
      another client's transfer. The dispute succeeds and the new account
      ends with the amount held and its negative available. */
  lemma DisputeByClientWithoutAccount(s: TrialBalanceState, d: Dispute)
    requires d.tx in s.ledger && !s.ledger[d.tx].chargeBacked
    requires d.client !in s.accounts
    ensures var amount := s.ledger[d.tx].tx.Amount();
            var owner := Transaction.Transfer(s.ledger[d.tx].tx).Client();
            var r := s.Handle(Transaction.Mutation(Mutation.Dispute(d)));
            && r.1 == Ok(())
            && r.0.accounts[d.client] == AccountState(d.client, -amount, amount, false)
            && (owner in s.accounts ==> r.0.accounts[owner] == s.accounts[owner])
  {
    AcceptedMutation(s, Mutation.Dispute(d));
  }

  /** A dispute of an entry already under dispute is accepted again and holds
      the amount a second time. */
  lemma DisputeTwice(s: TrialBalanceState, d: Dispute)
    requires d.tx in s.ledger && !s.ledger[d.tx].chargeBacked
    requires d.client in s.accounts && !s.accounts[d.client].locked
    ensures var tx := Transaction.Mutation(Mutation.Dispute(d));
            var (s1, r1) := s.Handle(tx);
            var (s2, r2) := s1.Handle(tx);
            && r1 == Ok(()) && r2 == Ok(())
            && s2.accounts[d.client].held == s.accounts[d.client].held + 2.0 * s.ledger[d.tx].tx.Amount()
            && s2.accounts[d.client].Total() == s.accounts[d.client].Total()
  {
    var tx := Transaction.Mutation(Mutation.Dispute(d));
    var s1 := s.Handle(tx).0;
    AcceptedMutation(s, Mutation.Dispute(d));
    assert s1.ledger[d.tx].underDispute && !s1.ledger[d.tx].chargeBacked;
    assert s1.ledger[d.tx].tx == s.ledger[d.tx].tx;
    AcceptedMutation(s1, Mutation.Dispute(d));
  }

  /** A withdrawal the account refuses is still entered in the ledger, so a
      later dispute of it is accepted and holds its amount. */
  lemma RefusedWithdrawalCanBeDisputed(s: TrialBalanceState, w: Withdrawal, d: Dispute)
    requires w.client in s.accounts && !s.accounts[w.client].locked
    requires w.tx !in s.ledger && s.accounts[w.client].available < w.amount
    requires d.client == w.client && d.tx == w.tx
    ensures var (s1, r1) := s.Handle(Transaction.Transfer(Transfer.Withdrawal(w)));
            var (s2, r2) := s1.Handle(Transaction.Mutation(Mutation.Dispute(d)));
            && r1 == Err(InsufficientFunds) && r2 == Ok(())
            && s2.accounts[w.client].held == s.accounts[w.client].held + w.amount
  {
    var s1 := s.Handle(Transaction.Transfer(Transfer.Withdrawal(w))).0;
    NewTransferIsRecorded(s, Transfer.Withdrawal(w));
    AcceptedMutation(s1, Mutation.Dispute(d));
  }

  // ---------------------------------------------------------------------
  // Runs: the engine applied to a sequence of transactions, in order

  /** Over any run, a valid state stays valid. */
  lemma {:induction false} RunKeepsValid(s: TrialBalanceState, txs: seq<Transaction>)
    requires s.Valid()
    ensures Run(s, txs).0.Valid()
    decreases |txs|
  {
    if txs != [] {
      RunKeepsValid(s, txs[..|txs| - 1]);
      Run(s, txs[..|txs| - 1]).0.HandleKeepsValid(txs[|txs| - 1]);
    }
  }

  /** Over any run, no account and no entry is ever removed, and an entry's
      transfer never changes. */
  lemma {:induction false} RunOnlyGrows(s: TrialBalanceState, txs: seq<Transaction>)
    ensures s.accounts.Keys <= Run(s, txs).0.accounts.Keys
    ensures s.ledger.Keys <= Run(s, txs).0.ledger.Keys
    ensures forall id :: id in s.ledger ==> Run(s, txs).0.ledger[id].tx == s.ledger[id].tx
    decreases |txs|
  {
    if txs != [] {
      RunOnlyGrows(s, txs[..|txs| - 1]);
      var s1 := Run(s, txs[..|txs| - 1]).0;
      var s2 := s1.Handle(txs[|txs| - 1]).0;
      s1.HandleFrame(txs[|txs| - 1]);
      assert forall id :: id in s1.ledger ==> s2.ledger[id].tx == s1.ledger[id].tx;
    }
  }

  /** A locked account is frozen for the rest of any run: it stays locked
      and its balances never move again. */
  lemma {:induction false} RunFreezesLockedAccount(s: TrialBalanceState, txs: seq<Transaction>, c: Client)
    requires IsLocked(s, c)
    ensures c in Run(s, txs).0.accounts && Run(s, txs).0.accounts[c] == s.accounts[c]
    decreases |txs|
  {
    if txs != [] {
      RunFreezesLockedAccount(s, txs[..|txs| - 1], c);
      Run(s, txs[..|txs| - 1]).0.HandleFrame(txs[|txs| - 1]);
    }
  }

  /** In a valid state a charged-back entry is final for the rest of any run. */
  lemma {:induction false} RunFreezesChargedBackEntry(s: TrialBalanceState, txs: seq<Transaction>, id: TransactionId)
    requires s.Valid() && id in s.ledger && s.ledger[id].chargeBacked
    ensures id in Run(s, txs).0.ledger && Run(s, txs).0.ledger[id] == s.ledger[id]
    decreases |txs|
  {
    if txs != [] {
      RunFreezesChargedBackEntry(s, txs[..|txs| - 1], id);
      RunKeepsValid(s, txs[..|txs| - 1]);
      var s1, tx := Run(s, txs[..|txs| - 1]).0, txs[|txs| - 1];
      s1.HandleFrame(tx);
      if tx.Mutation? && tx.mutation.TransactionId() == id {
        ChargeBackIsFinal(s1.ledger[id], tx.mutation);
      }
    }
  }

  // ---------------------------------------------------------------------
  // The engine's own test scenario

  /** Deposit, withdraw, dispute, resolve, a chargeback of the resolved
      deposit, another withdrawal, the same withdrawal again, and a
      chargeback of an id never seen; all by client 1. */
  function Scenario(): seq<Transaction> {
    [ Transaction.Transfer(Transfer.Deposit(Deposit.Deposit(1, 1, 100.0))),
      Transaction.Transfer(Transfer.Withdrawal(Withdrawal.Withdrawal(1, 2, 50.0))),
      Transaction.Mutation(Mutation.Dispute(Dispute.Dispute(1, 1))),
      Transaction.Mutation(Mutation.Resolve(Resolve.Resolve(1, 1))),
      Transaction.Mutation(Mutation.ChargeBack(ChargeBack.ChargeBack(1, 1))),
      Transaction.Transfer(Transfer.Withdrawal(Withdrawal.Withdrawal(1, 3, 50.0))),
      Transaction.Transfer(Transfer.Withdrawal(Withdrawal.Withdrawal(1, 3, 50.0))),
      Transaction.Mutation(Mutation.ChargeBack(ChargeBack.ChargeBack(1, 100))) ]
  }

  /** The results the test expects, in order. */
  function ScenarioOutcomes(): seq<Outcome> {
    [ Ok(()), Ok(()), Ok(()), Ok(()), Err(ChargeBackError), Ok(()),
      Err(DuplicateTransaction(3)), Err(MissingTransaction(100)) ]
  }

  // The engine's states along the scenario, and one lemma per step.
  function Deposit1(): Transfer { Transfer.Deposit(Deposit.Deposit(1, 1, 100.0)) }
  function Withdrawal2(): Transfer { Transfer.Withdrawal(Withdrawal.Withdrawal(1, 2, 50.0)) }
  function Withdrawal3(): Transfer { Transfer.Withdrawal(Withdrawal.Withdrawal(1, 3, 50.0)) }

  function After1(): TrialBalanceState {
    TrialBalanceState(map[1 := AccountState(1, 100.0, 0.0, false)], map[1 := NewRecord(Deposit1())])
  }
  function After2(): TrialBalanceState {
    TrialBalanceState(map[1 := AccountState(1, 50.0, 0.0, false)],
                      map[1 := NewRecord(Deposit1()), 2 := NewRecord(Withdrawal2())])
  }
  function After3(): TrialBalanceState {
    TrialBalanceState(map[1 := AccountState(1, -50.0, 100.0, false)],
                      map[1 := RecordState(Deposit1(), true, false), 2 := NewRecord(Withdrawal2())])
  }
  function After6(): TrialBalanceState {
    TrialBalanceState(map[1 := AccountState(1, 0.0, 0.0, false)],
                      map[1 := NewRecord(Deposit1()), 2 := NewRecord(Withdrawal2()), 3 := NewRecord(Withdrawal3())])
  }

  // Step k: the state before the k-th transaction of the test, handled, gives the
  // state after it and the expected result.
  lemma ScenarioStep1()
    ensures Empty().Handle(Scenario()[0]) == (After1(), ScenarioOutcomes()[0])
  {
    assert Scenario()[0] == Transaction.Transfer(Deposit1());
    NewTransferIsRecorded(Empty(), Deposit1());
    assert Empty().WithAccount(1).accounts == map[1 := Fresh(1)];
    assert Fresh(1).HandleTransfer(Deposit1()) == (AccountState(1, 100.0, 0.0, false), Ok(()));
    assert map[1 := Fresh(1)][1 := AccountState(1, 100.0, 0.0, false)] == After1().accounts;
  }
  lemma ScenarioStep2()
    ensures After1().Handle(Scenario()[1]) == (After2(), ScenarioOutcomes()[1])
  {
    assert Scenario()[1] == Transaction.Transfer(Withdrawal2());
    NewTransferIsRecorded(After1(), Withdrawal2());
    assert After1().accounts[1].HandleTransfer(Withdrawal2()) == (AccountState(1, 50.0, 0.0, false), Ok(()));
    assert After1().accounts[1 := AccountState(1, 50.0, 0.0, false)] == After2().accounts;
    assert After1().ledger[2 := NewRecord(Withdrawal2())] == After2().ledger;
  }
  lemma ScenarioStep3()
    ensures After2().Handle(Scenario()[2]) == (After3(), ScenarioOutcomes()[2])
  {
    var m := Mutation.Dispute(Dispute.Dispute(1, 1));
    assert Scenario()[2] == Transaction.Mutation(m);
    DisputeOfEntry1();
    DisputeOfDeposit1();
    After3FromAfter2();
    AcceptedStep(After2(), m, RecordState(Deposit1(), true, false), AccountState(1, -50.0, 100.0, false), After3());
  }
  /** The entry transition of step 3. */
  lemma DisputeOfEntry1()
    ensures After2().ledger[1].Mutate(Mutation.Dispute(Dispute.Dispute(1, 1))) == (RecordState(Deposit1(), true, false), Ok(()))
  {
  }
  /** The account side of step 3, on client 1's account after step 2. */
  lemma DisputeOfDeposit1()
    ensures AccountState(1, 50.0, 0.0, false).HandleMutation(Mutation.Dispute(Dispute.Dispute(1, 1)), 100.0)
         == (AccountState(1, -50.0, 100.0, false), Ok(()))
  {
  }
  /** The state after step 3 is the state after step 2 with the account and the entry of step 3. */
  lemma After3FromAfter2()
    ensures After2().accounts[1 := AccountState(1, -50.0, 100.0, false)] == After3().accounts
    ensures After2().ledger[1 := RecordState(Deposit1(), true, false)] == After3().ledger
  {
  }
  lemma ScenarioStep4()
    ensures After3().Handle(Scenario()[3]) == (After2(), ScenarioOutcomes()[3])
  {
    var m := Mutation.Resolve(Resolve.Resolve(1, 1));
    assert Scenario()[3] == Transaction.Mutation(m);
    assert After3().ledger[1].Mutate(m) == (NewRecord(Deposit1()), Ok(()));
    AcceptedMutation(After3(), m);
    assert After3().accounts[1].HandleMutation(m, 100.0) == (AccountState(1, 50.0, 0.0, false), Ok(()));
    assert After3().accounts[1 := AccountState(1, 50.0, 0.0, false)] == After2().accounts;
    assert After3().ledger[1 := NewRecord(Deposit1())] == After2().ledger;
  }
  lemma ScenarioStep5()
    ensures After2().Handle(Scenario()[4]) == (After2(), ScenarioOutcomes()[4])
  {
    var m := Mutation.ChargeBack(ChargeBack.ChargeBack(1, 1));
    assert Scenario()[4] == Transaction.Mutation(m);
    assert After2().ledger[1].Mutate(m).1.Err?;
    RefusedMutation(After2(), m);
  }
  lemma ScenarioStep6()
    ensures After2().Handle(Scenario()[5]) == (After6(), ScenarioOutcomes()[5])
  {
    assert Scenario()[5] == Transaction.Transfer(Withdrawal3());
    NewTransferIsRecorded(After2(), Withdrawal3());
    assert After2().accounts[1].HandleTransfer(Withdrawal3()) == (AccountState(1, 0.0, 0.0, false), Ok(()));
    assert After2().accounts[1 := AccountState(1, 0.0, 0.0, false)] == After6().accounts;
    assert After2().ledger[3 := NewRecord(Withdrawal3())] == After6().ledger;
  }
  lemma ScenarioStep7()
    ensures After6().Handle(Scenario()[6]) == (After6(), ScenarioOutcomes()[6])
  {
    assert Scenario()[6] == Transaction.Transfer(Withdrawal3());
    DuplicateTransfer(After6(), Withdrawal3());
  }
  lemma ScenarioStep8()
    ensures After6().Handle(Scenario()[7]) == (After6(), ScenarioOutcomes()[7])
  {
    var m := Mutation.ChargeBack(ChargeBack.ChargeBack(1, 100));
    assert Scenario()[7] == Transaction.Mutation(m);
    MutationOfUnknownId(After6(), m);
  }

  /** A run over the first `k + 1` transactions extends the run over the first `k`. */
  lemma RunExtend(s: TrialBalanceState, txs: seq<Transaction>, outs: seq<Outcome>, k: nat, sk: TrialBalanceState, next: TrialBalanceState)
    requires k < |txs| && k < |outs|
    requires Run(s, txs[..k]) == (sk, outs[..k])
    requires sk.Handle(txs[k]) == (next, outs[k])
    ensures Run(s, txs[..k + 1]) == (next, outs[..k + 1])
  {
    assert txs[..k + 1][..k] == txs[..k] && txs[..k + 1][k] == txs[k];
    assert outs[..k + 1] == outs[..k] + [outs[k]];
  }

  // The runs over the first k transactions of the scenario, k = 1 .. 8, each built
  // from the run before it and one step.
  lemma ScenarioPrefix1()
    ensures Run(Empty(), Scenario()[..1]) == (After1(), ScenarioOutcomes()[..1])
  {
    assert Scenario()[..0] == []; ScenarioStep1();
    RunExtend(Empty(), Scenario(), ScenarioOutcomes(), 0, Empty(), After1());
  }
  lemma ScenarioPrefix2()
    ensures Run(Empty(), Scenario()[..2]) == (After2(), ScenarioOutcomes()[..2])
  {
    ScenarioPrefix1(); ScenarioStep2();
    RunExtend(Empty(), Scenario(), ScenarioOutcomes(), 1, After1(), After2());
  }
  lemma ScenarioPrefix3()
    ensures Run(Empty(), Scenario()[..3]) == (After3(), ScenarioOutcomes()[..3])
  {
    ScenarioPrefix2(); ScenarioStep3();
    RunExtend(Empty(), Scenario(), ScenarioOutcomes(), 2, After2(), After3());
  }
  lemma ScenarioPrefix4()
    ensures Run(Empty(), Scenario()[..4]) == (After2(), ScenarioOutcomes()[..4])
  {
    ScenarioPrefix3(); ScenarioStep4();
    RunExtend(Empty(), Scenario(), ScenarioOutcomes(), 3, After3(), After2());
  }
  lemma ScenarioPrefix5()
    ensures Run(Empty(), Scenario()[..5]) == (After2(), ScenarioOutcomes()[..5])
  {
    ScenarioPrefix4(); ScenarioStep5();
    RunExtend(Empty(), Scenario(), ScenarioOutcomes(), 4, After2(), After2());
  }
  lemma ScenarioPrefix6()
    ensures Run(Empty(), Scenario()[..6]) == (After6(), ScenarioOutcomes()[..6])
  {
    ScenarioPrefix5(); ScenarioStep6();
    RunExtend(Empty(), Scenario(), ScenarioOutcomes(), 5, After2(), After6());
  }
  lemma ScenarioPrefix7()
    ensures Run(Empty(), Scenario()[..7]) == (After6(), ScenarioOutcomes()[..7])
  {
    ScenarioPrefix6(); ScenarioStep7();
    RunExtend(Empty(), Scenario(), ScenarioOutcomes(), 6, After6(), After6());
  }
  lemma ScenarioPrefix8()
    ensures Run(Empty(), Scenario()[..8]) == (After6(), ScenarioOutcomes()[..8])
  {
    ScenarioPrefix7(); ScenarioStep8();
    RunExtend(Empty(), Scenario(), ScenarioOutcomes(), 7, After6(), After6());
  }

  /** The scenario gives the expected results and leaves client 1 with
      nothing available, nothing held and an unlocked account. */
  lemma ScenarioRun()
    ensures Run(Empty(), Scenario()).1 == ScenarioOutcomes()
    ensures Run(Empty(), Scenario()).0.accounts == map[1 := AccountState(1, 0.0, 0.0, false)]
  {
    ScenarioPrefix8();
    assert Scenario()[..8] == Scenario() && ScenarioOutcomes()[..8] == ScenarioOutcomes();
  }

  /** The engine's test: a fresh engine handles the scenario in order and
      returns the expected result for each transaction. */
  method TestTrialBalance() returns (results: seq<Outcome>)
    ensures results == ScenarioOutcomes()
  {
    var trialBalance := new TrialBalance();
    results := trialBalance.HandleAll(Scenario());
    ScenarioRun();
  }
}
