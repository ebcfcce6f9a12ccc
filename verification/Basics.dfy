/** Result types shared by every module, and the constants of the source. */
module Basics {
  datatype Option<+T> = None | Some(value: T)

  /** The exception classes of the storage layer. `InvalidInput` is Python's ValueError, `Unplanned` any undeclared exception. */
  datatype Error = InvalidInput | Conflict | NotFound | LimitExceeded | OutcomeUnknown | Unplanned

  datatype Result<+T> = Ok(value: T) | Err(error: Error)

  /** What a caller hears of its transaction. */
  datatype Reply = Applied | Refused | Lost

  type Id = string

  const CHECKOUT_EXPIRY_SECONDS: nat := 35 * 60
  const RECONCILIATION_GRACE_SECONDS: nat := 5 * 60
  const RECONCILER_INTERVAL_SECONDS: nat := 5 * 60
  const MAX_CHECKOUT_LINES: nat := 20
  const MAX_CHECKOUT_LINE_QUANTITY: nat := 1_000_000
  const MAX_AMOUNT_MINOR: nat := 99_999_999
  const MAX_TRANSACTION_ACTIONS: nat := 100
  const MAX_CLAIM_ATTEMPTS: nat := 5
  const MAX_WINDOW_SECONDS: nat := 720 * 60 * 60
}
