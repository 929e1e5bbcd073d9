/** A ledger entry (src/transaction_record.rs): the transfer that created it
    and its dispute lifecycle, held in two flags. */
module TransactionRecords {
  import opened Results
  import opened Transactions
  import opened Errors

  /** The error a refused mutation of each kind reports. */
  function RefusalFor(m: Mutation): TransactionError {
    match m
    case Dispute(_) => DisputeError
    case Resolve(_) => ResolveError
    case ChargeBack(_) => ChargeBackError
  }

  /** The value of a record's fields. */
  datatype RecordState = RecordState(tx: Transfer, underDispute: bool, chargeBacked: bool)
  {
    /** A charged-back record is no longer under dispute. */
    predicate Valid() {
      chargeBacked ==> !underDispute
    }

    /** The dispute-state transition for one mutation. A dispute is accepted
        unless the record is charged back (an already disputed record is
        accepted again); a resolve needs an open, not charged-back dispute; a
        chargeback needs an open dispute and is final. A refused mutation
        reports the error of its kind and changes nothing; the transfer is
        never changed. */
    function Mutate(m: Mutation): (r: (RecordState, Outcome))
      ensures r.0.tx == tx
      ensures r.1.Err? ==> r.0 == this && r.1.error == RefusalFor(m)
      ensures m.Dispute? ==> (r.1.Ok? <==> !chargeBacked)
      ensures m.Dispute? && r.1.Ok? ==> r.0.underDispute && r.0.chargeBacked == chargeBacked
      ensures m.Resolve? ==> (r.1.Ok? <==> underDispute && !chargeBacked)
      ensures m.Resolve? && r.1.Ok? ==> !r.0.underDispute && !r.0.chargeBacked
      ensures m.ChargeBack? ==> (r.1.Ok? <==> underDispute)
      ensures m.ChargeBack? && r.1.Ok? ==> !r.0.underDispute && r.0.chargeBacked
      ensures chargeBacked ==> r.0.chargeBacked
      ensures Valid() ==> r.0.Valid()
    {
      match m
      case Dispute(_) =>
        if !chargeBacked then (this.(underDispute := true), Ok(()))
        else (this, Err(DisputeError))
      case Resolve(_) =>
        if underDispute && !chargeBacked then (this.(underDispute := false), Ok(()))
        else (this, Err(ResolveError))
      case ChargeBack(_) =>
        if underDispute then (this.(underDispute := false, chargeBacked := true), Ok(()))
        else (this, Err(ChargeBackError))
    }
  }

  /** A new entry for a transfer: neither disputed nor charged back. */
  function NewRecord(tx: Transfer): (r: RecordState)
    ensures r.tx == tx && !r.underDispute && !r.chargeBacked && r.Valid()
  {
    RecordState(tx, false, false)
  }

  /** Once a valid record is charged back, every further mutation is refused. */
  lemma ChargeBackIsFinal(r: RecordState, m: Mutation)
    requires r.Valid() && r.chargeBacked
    ensures r.Mutate(m) == (r, Err(RefusalFor(m)))
  {
  }

  /** The record object; `mutate` flips its flags in place and never touches `tx`. */
  class TransactionRecord {
    const tx: Transfer
    var underDispute: bool
    var chargeBacked: bool

    function View(): RecordState
      reads this
    {
      RecordState(tx, underDispute, chargeBacked)
    }

    constructor (tx: Transfer)
      ensures View() == NewRecord(tx) && View().Valid()
    {
      this.tx := tx;
      underDispute := false;
      chargeBacked := false;
    }

    function Tx(): Transfer {
      tx
    }

    method Mutate(m: Mutation) returns (res: Outcome)
      modifies this
      ensures (View(), res) == old(View()).Mutate(m)
    {
      match m {
        case Dispute(_) =>
          if !chargeBacked {
            underDispute := true;
          } else {
            return Err(DisputeError);
          }
        case Resolve(_) =>
          if underDispute && !chargeBacked {
            underDispute := false;
          } else {
            return Err(ResolveError);
          }
        case ChargeBack(_) =>
          if underDispute {
            underDispute := false;
            chargeBacked := true;
          } else {
            return Err(ChargeBackError);
          }
      }
      res := Ok(());
    }
  }
}
