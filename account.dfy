/** A client's account (src/account.rs): the balance state machine that reacts
    to transfers and to the balance side of the dispute lifecycle. */
module Accounts {
  import opened Results
  import opened Clients
  import opened Transactions
  import opened Errors

  /** The serialized form of an account: one output row. */
  datatype AccountRow = AccountRow(client: Client, available: Decimal, held: Decimal, total: Decimal, locked: bool)

  /** The value of an account's fields. `total` is derived, never stored. */
  datatype AccountState = AccountState(client: Client, available: Decimal, held: Decimal, locked: bool)
  {
    function Total(): Decimal {
      available + held
    }

    /** The output row: the stored fields plus the derived total. */
    function Row(): (r: AccountRow)
      ensures r.total == r.available + r.held
      ensures r.client == client && r.available == available && r.held == held && r.locked == locked
    {
      AccountRow(client, available, held, Total(), locked)
    }

    function Lock(): (a: AccountState)
      ensures a.locked
      ensures a.client == client && a.available == available && a.held == held
    {
      this.(locked := true)
    }

    /** Applies a deposit or withdrawal. A locked account refuses both; a
        withdrawal of more than is available is refused; a refusal changes
        nothing. Only `available` ever moves. */
    function HandleTransfer(t: Transfer): (r: (AccountState, Outcome))
      ensures locked ==> r == (this, Err(AccountLocked))
      ensures r.1.Ok? <==> !locked && (t.Withdrawal? ==> t.Amount() <= available)
      ensures !locked && t.Withdrawal? && available < t.Amount() ==> r.1 == Err(InsufficientFunds)
      ensures r.1.Err? ==> r.0 == this
      ensures r.0.client == client && r.0.held == held && r.0.locked == locked
      ensures r.1.Ok? && t.Deposit? ==> r.0.available == available + t.Amount()
      ensures r.1.Ok? && t.Withdrawal? ==> r.0.available == available - t.Amount() && r.0.available >= 0.0
    {
      if locked then
        (this, Err(AccountLocked))
      else
        match t
        case Deposit(d) => (this.(available := available + d.amount), Ok(()))
        case Withdrawal(w) =>
          if available < w.amount then (this, Err(InsufficientFunds))
          else (this.(available := available - w.amount), Ok(()))
    }

    /** Applies the balance side of a mutation, with the amount of the
        transfer it refers to. A locked account refuses it and is unchanged;
        otherwise it always succeeds. Dispute and resolve move the amount
        between `available` and `held` and keep the total; a chargeback
        removes it from `held` and locks the account. */
    function HandleMutation(m: Mutation, amount: Decimal): (r: (AccountState, Outcome))
      ensures locked ==> r == (this, Err(AccountLocked))
      ensures !locked ==> r.1 == Ok(())
      ensures r.0.client == client
      ensures !locked && m.Dispute? ==>
        !r.0.locked && r.0.held == held + amount && r.0.Total() == Total()
      ensures !locked && m.Resolve? ==>
        !r.0.locked && r.0.available == available + amount && r.0.Total() == Total()
      ensures !locked && m.ChargeBack? ==>
        r.0.locked && r.0.available == available && r.0.held == held - amount && r.0.Total() == Total() - amount
    {
      if locked then
        (this, Err(AccountLocked))
      else
        match m
        case Dispute(_) => (this.(available := available - amount, held := held + amount), Ok(()))
        case Resolve(_) => (this.(held := held - amount, available := available + amount), Ok(()))
        case ChargeBack(_) =>
          var l := Lock();
          (l.(held := l.held - amount), Ok(()))
    }
  }

  /** A new account: nothing available, nothing held, not locked. */
  function Fresh(client: Client): AccountState {
    AccountState(client, 0.0, 0.0, false)
  }

  /** A new account belongs to its client, is unlocked and has a zero
      total, and it accepts any deposit and refuses any positive withdrawal. */
  lemma FreshIsEmpty(client: Client, t: Transfer)
    ensures Fresh(client).client == client && !Fresh(client).locked && Fresh(client).Total() == 0.0
    ensures Fresh(client).HandleTransfer(t).1.Ok? <==> t.Deposit? || t.Amount() <= 0.0
  {
  }

  /** `locked` never reverts: no operation takes a locked account to an
      unlocked one, and locking twice is locking once. */
  lemma LockIsMonotone(a: AccountState, t: Transfer, m: Mutation, amount: Decimal)
    ensures a.locked ==> a.HandleTransfer(t).0.locked && a.HandleMutation(m, amount).0.locked
    ensures a.Lock().Lock() == a.Lock()
  {
  }

  /** A resolve with the amount of the dispute before it restores the account. */
  lemma DisputeThenResolve(a: AccountState, d: Dispute, r: Resolve, amount: Decimal)
    requires !a.locked
    ensures a.HandleMutation(Mutation.Dispute(d), amount).0.HandleMutation(Mutation.Resolve(r), amount) == (a, Ok(()))
  {
  }

  /** The account object. Its fields are updated in place by the handlers. */
  class Account {
    const client: Client
    var available: Decimal
    var held: Decimal
    var locked: bool

    function View(): AccountState
      reads this
    {
      AccountState(client, available, held, locked)
    }

    constructor (client: Client)
      ensures View() == Fresh(client)
    {
      this.client := client;
      available := 0.0;
      held := 0.0;
      locked := false;
    }

    function Total(): Decimal
      reads this
    {
      View().Total()
    }

    function Locked(): bool
      reads this
    {
      locked
    }

    method Lock()
      modifies this
      ensures View() == old(View()).Lock()
    {
      locked := true;
    }

    method HandleTransfer(t: Transfer) returns (res: Outcome)
      modifies this
      ensures (View(), res) == old(View()).HandleTransfer(t)
    {
      if locked {
        return Err(AccountLocked);
      }
      match t {
        case Deposit(d) =>
          available := available + d.amount;
        case Withdrawal(w) =>
          if available < w.amount {
            return Err(InsufficientFunds);
          }
          available := available - w.amount;
      }
      res := Ok(());
    }

    method HandleMutation(m: Mutation, amount: Decimal) returns (res: Outcome)
      modifies this
      ensures (View(), res) == old(View()).HandleMutation(m, amount)
    {
      if locked {
        return Err(AccountLocked);
      }
      match m {
        case Dispute(_) =>
          available := available - amount;
          held := held + amount;
        case Resolve(_) =>
          held := held - amount;
          available := available + amount;
        case ChargeBack(_) =>
          Lock();
          held := held - amount;
      }
      res := Ok(());
    }
  }
}
