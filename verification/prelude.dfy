/** Options, results and the error codes shared by every module. */
module Prelude {

  datatype Option<+T> = None | Some(value: T)

  /** The stable error codes a caller can observe, plus the database's own guards. */
  datatype Error =
    | AccountNotFound
    | AccountFrozen
    | AccountClosed
    | InsufficientFunds
    | InvalidAmount
    | UnbalancedTransaction
    | InvalidTransaction
    | CurrencyMismatch
    | NotFound
    | ConflictSequence
    | DuplicateReference
    | UniqueViolation
    | CheckViolation

  datatype Result<+T> = Ok(value: T) | Err(error: Error)
  {
    predicate IsFailure() { Err? }

    function PropagateFailure<U>(): Result<U>
      requires Err?
    {
      Err(error)
    }

    function Extract(): T
      requires Ok?
    {
      value
    }
  }
}
