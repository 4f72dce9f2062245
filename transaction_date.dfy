/** `SKPaymentTransaction.date()`: the transaction's date, defaulting to the epoch. */
module TransactionDate {
  import opened Wrappers
  import opened StoreKit

  /** `Date(timeIntervalSince1970: 0)`. */
  const Epoch: int := 0

  /** The transaction's `transactionDate` when it has one, and the epoch otherwise. */
  function Date(t: Transaction): (d: int)
    ensures t.transactionDate.Some? ==> d == t.transactionDate.value
    ensures t.transactionDate.None? ==> d == Epoch
  {
    t.transactionDate.GetOr(Epoch)
  }
}
