/** Optional values, and results whose failure carries the reason a statement or request was refused. */
module Results {

  datatype Option<+T> = None | Some(value: T)

  /** Why a request failed. Any of them rolls the surrounding transaction back. */
  datatype Error =
    | NoRows
    | UniqueViolation
    | CheckViolation
    | ForeignKeyViolation
    | OutOfRange
    | Unbalanced
    | IoFault
    | DuplicateEvent
    | MalformedEvent
    | NoOrderId
    | MalformedNote
    | IllegalTransition
    | CampaignNotLive
    | DeadlinePassed
    | CreatorCannotPledge
    | TierMismatch
    | AmountBelowTier
    | TierSoldOut
    | MissingOrder
    | BadSignature
    | ProviderUnavailable
    | PledgeNotFound
    | NotYourPledge
    | OrderMismatch

  datatype Result<+T> = Ok(value: T) | Err(error: Error) {
    predicate IsFailure() { Err? }

    function PropagateFailure<U>(): Result<U>
      requires Err?
    {
      Err(error)
    }

    function Extract(): T
      requires Ok?
    {
      value
    }
  }
}
