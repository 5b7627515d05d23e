/** Result types standing for Go's `(value, error)` returns and nil results. */
module Outcomes {

  datatype Option<+T> = None | Some(value: T)

  /** The sentinel errors of internal/domain/errors.go, and two kinds the database adds. */
  datatype Error =
    | NotFound
    | Duplicate
    | InvalidTransition
    | NoMatchingRule
    | MaxEscalationReached
    | Validation
    | AlreadyCompleted
    | ConcurrentConflict
    | ConstraintViolated  // a PRIMARY KEY, UNIQUE, CHECK, foreign key or trigger refused the row
    | StorageFailure      // anything else that makes a transaction roll back

  datatype Result<+T> = Ok(value: T) | Err(error: Error)
}
