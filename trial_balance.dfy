/** The ledger engine (src/trial_balance.rs): it owns every account, keyed by
    client, and every ledger entry, keyed by transaction id, and routes each
    transaction to the account and entry it concerns. */
module TrialBalances {
  import opened Results
  import opened Clients
  import opened TransactionIds
  import opened Transactions
  import opened Errors
  import opened Accounts
  import opened TransactionRecords

  /** The value of the engine: what both maps hold. */
  datatype TrialBalanceState = TrialBalanceState(
    accounts: map<Client, AccountState>,
    ledger: map<TransactionId, RecordState>)
  {
    /** Every account is filed under its own client, every entry under the id
        of its own transfer, and every entry is a valid record. */
    ghost predicate Valid() {
      && (forall c :: c in accounts ==> accounts[c].client == c)
      && (forall id :: id in ledger ==> ledger[id].tx.TransactionId() == id && ledger[id].Valid())
    }

    /** The state once `client` has an account: a fresh one if it had none. */
    function WithAccount(client: Client): (s: TrialBalanceState)
      ensures client in s.accounts && s.ledger == ledger
      ensures client in accounts ==> s == this
      ensures client !in accounts ==> s.accounts == accounts[client := Fresh(client)]
    {
      if client in accounts then this else this.(accounts := accounts[client := Fresh(client)])
    }

    /** Processes one transaction. The client's account is created if it is
        missing; a locked account refuses everything. A transfer with a new
        id is entered in the ledger whether or not the account accepts it; a
        transfer with a known id is a duplicate. A mutation needs a known id;
        the entry's transition is made first and, if accepted, the account of
        the mutation's own client moves by the amount of the entry's
        transfer. */
    function Handle(tx: Transaction): (TrialBalanceState, Outcome) {
      var c := tx.Client();
      var s := WithAccount(c);
      if s.accounts[c].locked then
        (s, Err(AccountLocked))
      else
        match tx
        case Transfer(transfer) => s.HandleTransfer(c, transfer)
        case Mutation(mutation) => s.HandleMutation(c, mutation)
    }

    /** The transfer arm of `Handle`, once `client` has an unlocked account. */
    function HandleTransfer(client: Client, transfer: Transfer): (TrialBalanceState, Outcome)
      requires client in accounts
    {
      var id := transfer.TransactionId();
      if id !in ledger then
        var (account', res) := accounts[client].HandleTransfer(transfer);
        (TrialBalanceState(accounts[client := account'], ledger[id := NewRecord(transfer)]), res)
      else
        (this, Err(DuplicateTransaction(id)))
    }

    /** The mutation arm of `Handle`, once `client` has an unlocked account. */
    function HandleMutation(client: Client, mutation: Mutation): (TrialBalanceState, Outcome)
      requires client in accounts
    {
      var id := mutation.TransactionId();
      if id in ledger then
        var (record', res) := ledger[id].Mutate(mutation);
        if res.Err? then
          (this, res)
        else
          var (account', res') := accounts[client].HandleMutation(mutation, record'.tx.Amount());
          (TrialBalanceState(accounts[client := account'], ledger[id := record']), res')
      else
        (this, Err(MissingTransaction(id)))
    }

    /** Only the client's account and the entry for the transaction's id can
        change; the client always ends up with an account, and the ledger
        gains at most the transaction's id. */
    lemma HandleFrame(tx: Transaction)
      ensures Handle(tx).0.accounts.Keys == accounts.Keys + {tx.Client()}
      ensures ledger.Keys <= Handle(tx).0.ledger.Keys <= ledger.Keys + {tx.Id()}
      ensures forall c :: c in accounts && c != tx.Client() ==> Handle(tx).0.accounts[c] == accounts[c]
      ensures forall id :: id in ledger && id != tx.Id() ==> Handle(tx).0.ledger[id] == ledger[id]
    {
    }

    /** Handling a transaction keeps a valid state valid. */
    lemma HandleKeepsValid(tx: Transaction)
      requires Valid()
      ensures Handle(tx).0.Valid()
    {
    }
  }

  /** The engine before any transaction. */
  function Empty(): TrialBalanceState {
    TrialBalanceState(map[], map[])
  }

  /** The engine before any transaction is valid, and stays valid over any
      run (`RunKeepsValid`). */
  lemma EmptyIsValid()
    ensures Empty().Valid()
  {
  }

  /** The states and results of handling `txs` one after another: the run of
      all but the last transaction, extended by the last one. */
  function Run(s: TrialBalanceState, txs: seq<Transaction>): (r: (TrialBalanceState, seq<Outcome>))
    ensures |r.1| == |txs|
    decreases |txs|
  {
    if txs == [] then
      (s, [])
    else
      var (s1, rs) := Run(s, txs[..|txs| - 1]);
      var (s2, res) := s1.Handle(txs[|txs| - 1]);
      (s2, rs + [res])
  }

  /** The engine object: two maps of objects, updated in place. `Repr` is
      the set of account and record objects it owns. */
  class TrialBalance {
    var accounts: map<Client, Account>
    var ledger: map<TransactionId, TransactionRecord>
    ghost var Repr: set<object>

    /** The objects hold a valid engine state, every object is owned, and
        every object is filed under its own (immutable) key, so no two keys
        share an object. */
    ghost predicate Valid()
      reads this, accounts.Values, ledger.Values
    {
      Keyed() && Owned() && View().Valid()
    }

    ghost predicate Keyed()
      reads `accounts, `ledger
    {
      && (forall c :: c in accounts ==> accounts[c].client == c)
      && (forall id :: id in ledger ==> ledger[id].tx.TransactionId() == id)
    }

    ghost predicate Owned()
      reads `accounts, `ledger, `Repr
    {
      && (forall c :: c in accounts ==> accounts[c] in Repr)
      && (forall id :: id in ledger ==> ledger[id] in Repr)
    }

    ghost function AccountViews(): map<Client, AccountState>
      reads `accounts, accounts.Values
    {
      map c | c in accounts :: accounts[c].View()
    }

    ghost function LedgerViews(): map<TransactionId, RecordState>
      reads `ledger, ledger.Values
    {
      map id | id in ledger :: ledger[id].View()
    }

    ghost function View(): TrialBalanceState
      reads this, accounts.Values, ledger.Values
    {
      TrialBalanceState(AccountViews(), LedgerViews())
    }

    constructor ()
      ensures Valid() && View() == Empty()
      ensures accounts == map[] && ledger == map[] && Repr == {}
    {
      accounts := map[];
      ledger := map[];
      Repr := {};
    }

    method HandleTransaction(tx: Transaction) returns (res: Outcome)
      requires Valid()
      modifies this, Repr
      ensures (View(), res) == old(View()).Handle(tx)
      ensures Valid()
      ensures old(Repr) <= Repr && fresh(Repr - old(Repr))
    {
      ghost var s0 := View();
      s0.HandleKeepsValid(tx);
      var c := tx.Client();
      OpenAccount(c);
      assert LedgerViews() == s0.ledger;
      assert View() == s0.WithAccount(c);
      if accounts[c].Locked() {
        return Err(AccountLocked);
      }
      match tx {
        case Transfer(transfer) =>
          res := HandleTransfer(c, transfer);
        case Mutation(mutation) =>
          res := HandleMutation(c, mutation);
      }
    }

    /** Files a fresh account under `c` unless it already has one. */
    method OpenAccount(c: Client)
      requires Keyed() && Owned()
      modifies `accounts, `Repr
      ensures Keyed() && Owned() && c in accounts
      ensures AccountViews() == old(View()).WithAccount(c).accounts
      ensures old(Repr) <= Repr && fresh(Repr - old(Repr))
    {
      if c !in accounts {
        var created := new Account(c);
        accounts := accounts[c := created];
        Repr := Repr + {created};
        assert AccountViews() == old(AccountViews())[c := Fresh(c)] by {
          forall k | k in accounts && k != c ensures accounts[k].View() == old(AccountViews())[k] { }
        }
      }
    }

    /** Handles `txs` in order and collects each result, as the input loop
        does; the engine ends in the state of the run over `txs`. */
    method HandleAll(txs: seq<Transaction>) returns (results: seq<Outcome>)
      requires Valid()
      modifies this, Repr
      ensures Valid()
      ensures (View(), results) == Run(old(View()), txs)
      ensures old(Repr) <= Repr && fresh(Repr - old(Repr))
    {
      results := [];
      var i := 0;
      while i < |txs|
        invariant 0 <= i <= |txs|
        invariant Valid()
        invariant old(Repr) <= Repr && fresh(Repr - old(Repr))
        invariant (View(), results) == Run(old(View()), txs[..i])
      {
        assert txs[..i + 1][..i] == txs[..i];
        var res := HandleTransaction(txs[i]);
        results := results + [res];
        i := i + 1;
      }
      assert txs[..i] == txs;
    }

    /** The transfer arm: a new id is entered in the ledger after the account
        has handled the transfer, whatever the account answered. */
    method HandleTransfer(c: Client, transfer: Transfer) returns (res: Outcome)
      requires Keyed() && Owned() && c in accounts && !accounts[c].locked
      modifies `ledger, `Repr, accounts[c]
      ensures Keyed() && Owned() && accounts == old(accounts)
      ensures (View(), res) == old(View()).HandleTransfer(c, transfer)
      ensures old(Repr) <= Repr && fresh(Repr - old(Repr))
    {
      ghost var s0 := View();
      var account := accounts[c];
      var id := transfer.TransactionId();
      if id in ledger {
        return Err(DuplicateTransaction(id));
      }
      ghost var (after, outcome) := s0.accounts[c].HandleTransfer(transfer);
      var r := account.HandleTransfer(transfer);
      assert account.View() == after && r == outcome;
      assert AccountViews() == s0.accounts[c := after] by {
        forall k | k in accounts && k != c ensures accounts[k].View() == s0.accounts[k] {
          assert accounts[k] != account;
        }
      }
      assert LedgerViews() == s0.ledger;
      Enter(id, transfer);
      assert AccountViews() == s0.accounts[c := after];
      assert s0.HandleTransfer(c, transfer) == (TrialBalanceState(s0.accounts[c := after], s0.ledger[id := NewRecord(transfer)]), outcome);
      res := r;
    }

    /** Enters a new record for `transfer` under the vacant `id`. */
    method Enter(id: TransactionId, transfer: Transfer)
      requires Keyed() && Owned() && id !in ledger && transfer.TransactionId() == id
      modifies `ledger, `Repr
      ensures Keyed() && Owned() && LedgerViews() == old(LedgerViews())[id := NewRecord(transfer)]
      ensures old(Repr) <= Repr && fresh(Repr - old(Repr))
    {
      var record := new TransactionRecord(transfer);
      ledger := ledger[id := record];
      Repr := Repr + {record};
      assert LedgerViews() == old(LedgerViews())[id := NewRecord(transfer)] by {
        forall k | k in ledger && k != id ensures ledger[k].View() == old(LedgerViews())[k] { }
      }
    }

    /** The mutation arm: the entry makes its transition first; only if it
        accepts does the account of the mutation's client move. */
    method HandleMutation(c: Client, mutation: Mutation) returns (res: Outcome)
      requires Keyed() && c in accounts && !accounts[c].locked
      modifies accounts[c], ledger.Values
      ensures Keyed() && accounts == old(accounts) && ledger == old(ledger)
      ensures (View(), res) == old(View()).HandleMutation(c, mutation)
    {
      ghost var s0 := View();
      var id := mutation.TransactionId();
      if id !in ledger {
        return Err(MissingTransaction(id));
      }
      ghost var (record', outcome) := s0.ledger[id].Mutate(mutation);
      var r := MutateEntry(id, mutation);
      assert AccountViews() == s0.accounts;
      if r.Err? {
        assert s0.ledger[id := record'] == s0.ledger;
        assert View() == s0;
        return r;
      }
      ghost var (after, outcome') := s0.accounts[c].HandleMutation(mutation, record'.tx.Amount());
      r := SettleMutation(c, mutation, ledger[id].Tx().Amount());
      assert LedgerViews() == s0.ledger[id := record'];
      assert s0.HandleMutation(c, mutation) == (TrialBalanceState(s0.accounts[c := after], s0.ledger[id := record']), outcome');
      assert View() == TrialBalanceState(s0.accounts[c := after], s0.ledger[id := record']);
      res := r;
    }

    /** Makes the entry under `id` take its transition for `mutation`. */
    method MutateEntry(id: TransactionId, mutation: Mutation) returns (res: Outcome)
      requires Keyed() && id in ledger
      modifies ledger[id]
      ensures (LedgerViews(), res) == (old(LedgerViews())[id := old(ledger[id].View()).Mutate(mutation).0],
                                       old(ledger[id].View()).Mutate(mutation).1)
    {
      var record := ledger[id];
      res := record.Mutate(mutation);
      assert LedgerViews() == old(LedgerViews())[id := record.View()] by {
        forall k | k in ledger && k != id ensures ledger[k].View() == old(LedgerViews())[k] {
          assert ledger[k] != record;
        }
      }
    }

    /** Moves the balances of the account of `c` for an accepted mutation. */
    method SettleMutation(c: Client, mutation: Mutation, amount: Decimal) returns (res: Outcome)
      requires Keyed() && c in accounts
      modifies accounts[c]
      ensures (AccountViews(), res) == (old(AccountViews())[c := old(accounts[c].View()).HandleMutation(mutation, amount).0],
                                        old(accounts[c].View()).HandleMutation(mutation, amount).1)
    {
      var account := accounts[c];
      res := account.HandleMutation(mutation, amount);
      assert AccountViews() == old(AccountViews())[c := account.View()] by {
        forall k | k in accounts && k != c ensures accounts[k].View() == old(AccountViews())[k] {
          assert accounts[k] != account;
        }
      }
    }
  }
}
