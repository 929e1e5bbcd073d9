/** Transactions, the unit of input to the engine (src/transaction/): the five
    record kinds, the sum types `Transaction`, `Transfer` and `Mutation` that
    wrap them, and the conversion from a raw input row. */
module Transactions {
  import opened Results
  import opened Clients
  import opened TransactionIds

  /** The source uses exact fixed-point decimals; they are modelled as exact reals. */
  type Decimal = real

  /** The `type` column of an input row. */
  datatype TransactionType = Deposit | Withdrawal | Dispute | Resolve | ChargeBack

  // The five records. Only transfers carry an amount; mutations name the
  // transfer they act on by its id.
  datatype Deposit = Deposit(client: Client, tx: TransactionId, amount: Decimal)
  datatype Withdrawal = Withdrawal(client: Client, tx: TransactionId, amount: Decimal)
  datatype Dispute = Dispute(client: Client, tx: TransactionId)
  datatype Resolve = Resolve(client: Client, tx: TransactionId)
  datatype ChargeBack = ChargeBack(client: Client, tx: TransactionId)

  /** Money moving into (deposit) or out of (withdrawal) an account. */
  datatype Transfer = Deposit(deposit: Deposit) | Withdrawal(withdrawal: Withdrawal)
  {
    function TransactionId(): TransactionIds.TransactionId {
      match this
      case Deposit(d) => d.tx
      case Withdrawal(w) => w.tx
    }

    function Amount(): Decimal {
      match this
      case Deposit(d) => d.amount
      case Withdrawal(w) => w.amount
    }
  }

  /** A change to the dispute state of an earlier transfer. */
  datatype Mutation = Dispute(dispute: Dispute) | Resolve(resolve: Resolve) | ChargeBack(chargeBack: ChargeBack)
  {
    function TransactionId(): TransactionIds.TransactionId {
      match this
      case Dispute(d) => d.tx
      case Resolve(r) => r.tx
      case ChargeBack(c) => c.tx
    }
  }

  datatype Transaction = Transfer(transfer: Transfer) | Mutation(mutation: Mutation)
  {
    function Client(): Clients.Client {
      match this
      case Transfer(Deposit(d)) => d.client
      case Transfer(Withdrawal(w)) => w.client
      case Mutation(m) =>
        match m
        case Dispute(d) => d.client
        case Resolve(r) => r.client
        case ChargeBack(c) => c.client
    }

    /** The id the transaction introduces (a transfer) or refers to (a mutation). */
    function Id(): TransactionIds.TransactionId {
      match this
      case Transfer(t) => t.TransactionId()
      case Mutation(m) => m.TransactionId()
    }

    /** The row type this transaction is read from. */
    function Kind(): TransactionType {
      match this
      case Transfer(Deposit(_)) => TransactionType.Deposit
      case Transfer(Withdrawal(_)) => TransactionType.Withdrawal
      case Mutation(Dispute(_)) => TransactionType.Dispute
      case Mutation(Resolve(_)) => TransactionType.Resolve
      case Mutation(ChargeBack(_)) => TransactionType.ChargeBack
    }
  }

  /** One decoded input row: type, client, tx and an optional amount. */
  datatype TransactionRow = TransactionRow(
    transactionType: TransactionType,
    client: Client,
    transactionId: TransactionId,
    amount: Option<Decimal>)

  /** A row that decodes but does not form a transaction. */
  datatype DeserializationError = ParseError(row: TransactionRow)

  /** The row conversion: a deposit or withdrawal needs an amount; a mutation
      ignores whatever amount the row has. */
  function TryFrom(row: TransactionRow): (r: Result<Transaction, DeserializationError>)
    ensures r.Err? <==> row.transactionType in {TransactionType.Deposit, TransactionType.Withdrawal} && row.amount.None?
    ensures r.Err? ==> r.error == ParseError(row)
    ensures r.Ok? ==> r.value.Kind() == row.transactionType
    ensures r.Ok? ==> r.value.Client() == row.client && r.value.Id() == row.transactionId
    ensures r.Ok? && r.value.Transfer? ==> row.amount == Some(r.value.transfer.Amount())
  {
    match (row.transactionType, row.amount)
    case (Deposit, Some(amount)) =>
      Ok(Transaction.Transfer(Transfer.Deposit(Deposit.Deposit(row.client, row.transactionId, amount))))
    case (Withdrawal, Some(amount)) =>
      Ok(Transaction.Transfer(Transfer.Withdrawal(Withdrawal.Withdrawal(row.client, row.transactionId, amount))))
    case (Dispute, _) =>
      Ok(Transaction.Mutation(Mutation.Dispute(Dispute.Dispute(row.client, row.transactionId))))
    case (Resolve, _) =>
      Ok(Transaction.Mutation(Mutation.Resolve(Resolve.Resolve(row.client, row.transactionId))))
    case (ChargeBack, _) =>
      Ok(Transaction.Mutation(Mutation.ChargeBack(ChargeBack.ChargeBack(row.client, row.transactionId))))
    case _ => Err(ParseError(row))
  }

  /** The row a transaction is written as; a mutation's row has no amount.
      This is the inverse that `TryFrom` is checked against. */
  function RowOf(t: Transaction): TransactionRow {
    TransactionRow(t.Kind(), t.Client(), t.Id(), if t.Transfer? then Some(t.transfer.Amount()) else None)
  }

  /** Every transaction survives being written as a row and read back. */
  lemma TryFromRowOf(t: Transaction)
    ensures TryFrom(RowOf(t)) == Ok(t)
  {
  }

  /** A successful conversion loses nothing but a mutation row's amount. */
  lemma RowOfTryFrom(row: TransactionRow)
    requires TryFrom(row).Ok?
    ensures RowOf(TryFrom(row).value) == if TryFrom(row).value.Transfer? then row else row.(amount := None)
  {
  }
}
