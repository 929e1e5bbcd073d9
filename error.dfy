/** The errors the engine reports for a transaction (src/error.rs). */
module Errors {
  import opened Results
  import opened TransactionIds

  datatype TransactionError =
    | AccountLocked
    | InsufficientFunds
    | DisputeError
    | ResolveError
    | ChargeBackError
    | DuplicateTransaction(id: TransactionId)
    | MissingTransaction(id: TransactionId)

  /** `Result<(), TransactionError>`: what every state-changing operation returns. */
  type Outcome = Result<(), TransactionError>
}
