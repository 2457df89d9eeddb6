/** Types shared by every model of the payout service. */
module Base {

  // Identifiers are only ever compared for equality.
  type UserId = nat
  type TxId = nat
  type Token = nat

  datatype Option<+T> = None | Some(value: T) {
    function GetOr(default: T): T { if Some? then value else default }
  }

  datatype Result<+T, +E> = Ok(value: T) | Err(error: E)

  /** The error messages the payout code tells apart; every other exception is `Unexpected`. */
  datatype Failure =
    | TransactionNotFound
    | BalanceNotFound
    | InsufficientBalance
    | UserNotFound
    | UserNotActive
    | InvalidCurrency
    | HighFraudRisk
    | ConcurrentRequest
    | FailedToPublish
    | SpendingLimitExceeded
    | Unexpected

  /** What the caller of a remote operation experiences: a reply, an error although the operation
      never ran, or an error although it did run. */
  datatype Outcome = Replied | Unsent | ReplyLost {
    predicate Ran() { this != Unsent }
  }
}
