/** Records shared by the stores and the service of the points ledger.
    They carry no behaviour; timestamps are integers read from a clock
    that the caller passes in. */
module Domain {

  type PayerId = string

  /** A value that may be absent, standing for a Go pointer that may be nil. */
  datatype Option<+T> = None | Some(value: T)

  /** The value/error pair a Go function returns. */
  datatype Result<+T, +E> = Ok(value: T) | Err(error: E)

  /** A registered paying partner. The source record also declares a
      `Balance` field that nothing reads or writes; it is not modelled. */
  datatype PayerAccount = PayerAccount(id: PayerId, name: string, creationTimestamp: int)

  /** One ledger entry: a signed point delta for one payer at one time. */
  datatype RewardTransaction = RewardTransaction(payer: PayerId, points: int, timestamp: int)

  /** One element of a spend plan: the payer (nil when the id is not
      registered) and the points taken from it, negative for a deduction. */
  datatype RewardsSpendAllocation = RewardsSpendAllocation(payer: Option<PayerAccount>, points: int)

  /** A payer together with its current points total. */
  datatype RewardsAccumulateProgress = RewardsAccumulateProgress(payer: PayerAccount, points: int)

  /** The error the service returns for an id nobody registered. */
  datatype PayerNotFoundError = PayerNotFoundError(payerId: PayerId)

  /** The error the payer store declares for a duplicate id (never produced). */
  datatype AccountExistsError = AccountExistsError(payerId: PayerId)

  /** The payer ids that occur in a sequence of entries. */
  function PayersOf(log: seq<RewardTransaction>): set<PayerId>
  {
    set i | 0 <= i < |log| :: log[i].payer
  }
}
