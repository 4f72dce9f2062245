/**
 * `IAPObserver`: the payment-queue observer. It pre-filters each batch of updated
 * transactions the queue delivers, finishes the stale part of a coalesced history
 * and turns the rest into calls on its delegate (the wrapper).
 */
module IAPObserver {
  import opened Wrappers
  import opened StoreKit
  import opened TransactionDate

  /** The calls of `IAPObserverDelegate`, as values. */
  datatype ObserverEvent =
    | RestoreCompletedTransactionsFinished
    | RestoreCompletedTransactionsFailed(error: NSError)
    | TransactionWasCancelled(transaction: Transaction)
    | TransactionFailed(transaction: Transaction, error: NSError)
    | TransactionWasCompletedPurchase(transaction: Transaction)
    | TransactionWasCompletedRestore(transaction: Transaction)
  {
    /** Whether the event is about a single transaction. */
    predicate HasTransaction() {
      !RestoreCompletedTransactionsFinished? && !RestoreCompletedTransactionsFailed?
    }
  }

  /** `paymentQueueRestoreCompletedTransactionsFinished` is forwarded as it is. */
  function ForwardRestoreFinished(): (e: ObserverEvent)
    ensures !e.HasTransaction() && !e.RestoreCompletedTransactionsFailed?
  {
    RestoreCompletedTransactionsFinished
  }

  /** `restoreCompletedTransactionsFailedWithError` is forwarded with the same error. */
  function ForwardRestoreFailed(error: NSError): (e: ObserverEvent)
    ensures e.RestoreCompletedTransactionsFailed? && e.error == error
  {
    RestoreCompletedTransactionsFailed(error)
  }

  // ---------------------------------------------------------------------------
  // Sorting by date

  /** The comparator of `sortedTransactions`, which defaults a missing date to the epoch itself. */
  predicate EarlierThan(a: Transaction, b: Transaction) {
    a.transactionDate.GetOr(Epoch) < b.transactionDate.GetOr(Epoch)
  }

  /** The comparator orders exactly as `date()` does, so batch order and slot order agree. */
  lemma ComparatorAgreesWithDate(a: Transaction, b: Transaction)
    ensures EarlierThan(a, b) <==> Date(a) < Date(b)
  {
  }

  predicate SortedByDate(s: seq<Transaction>) {
    forall i, j :: 0 <= i < j < |s| ==> Date(s[i]) <= Date(s[j])
  }

  /** Inserts `x` before the first element that is not earlier than it. */
  function Insert(x: Transaction, s: seq<Transaction>): (r: seq<Transaction>)
    ensures multiset(r) == multiset(s) + multiset{x}
    ensures |r| == |s| + 1
    ensures forall k :: 0 <= k < |r| ==> r[k] == x || r[k] in s
  {
    if s == [] || !EarlierThan(s[0], x) then
      [x] + s
    else
      assert s == [s[0]] + s[1..];
      [s[0]] + Insert(x, s[1..])
  }

  /** Inserting into a date-ordered sequence keeps it date-ordered. */
  lemma {:induction false} InsertSorted(x: Transaction, s: seq<Transaction>)
    requires SortedByDate(s)
    ensures SortedByDate(Insert(x, s))
  {
    if s != [] && EarlierThan(s[0], x) {
      var rest := Insert(x, s[1..]);
      InsertSorted(x, s[1..]);
      forall k | 0 <= k < |rest|
        ensures Date(s[0]) <= Date(rest[k])
      {
        if rest[k] != x {
          var p :| 0 <= p < |s[1..]| && s[1..][p] == rest[k];
          assert s[p + 1] == rest[k];
        }
      }
      assert Insert(x, s) == [s[0]] + rest;
    }
  }

  /**
   * `sortedTransactions`: the batch in non-decreasing date order, undated transactions
   * counting as the epoch. The sort is stable: equally dated transactions keep their
   * order of arrival.
   */
  function SortedTransactions(ts: seq<Transaction>): (r: seq<Transaction>)
    ensures SortedByDate(r)
    ensures multiset(r) == multiset(ts)
    ensures |r| == |ts|
  {
    if ts == [] then []
    else
      assert ts == [ts[0]] + ts[1..];
      var rest := SortedTransactions(ts[1..]);
      InsertSorted(ts[0], rest);
      Insert(ts[0], rest)
  }

  /** The most recent transaction of a batch: the last one after sorting. */
  function Latest(ts: seq<Transaction>): Transaction
    requires |ts| > 0
  {
    SortedTransactions(ts)[|ts| - 1]
  }

  /** No transaction of the batch is dated later than `Latest`. */
  lemma LatestIsNewest(ts: seq<Transaction>, t: Transaction)
    requires t in ts
    ensures Date(t) <= Date(Latest(ts))
  {
    var s := SortedTransactions(ts);
    assert t in multiset(s);
    var k :| 0 <= k < |s| && s[k] == t;
    if k < |s| - 1 {
      assert Date(s[k]) <= Date(s[|s| - 1]);
    }
  }

  // ---------------------------------------------------------------------------
  // Classification

  /** Whether an error is StoreKit's "payment cancelled". */
  predicate IsCancellation(e: NSError) {
    IsSKError(e) && e.code == RawValue(PaymentCancelled)
  }

  /**
   * `handleTransaction(_:error:)`: which delegate call a transaction and an error
   * make. A StoreKit cancellation cancels, any other StoreKit error fails, an error
   * of another domain makes no call; without an error a purchased transaction
   * completes a purchase and every other state completes a restore.
   */
  function Classify(t: Transaction, error: Option<NSError>): (r: Option<ObserverEvent>)
    ensures r.None? <==> error.Some? && !IsSKError(error.value)
    ensures r.Some? ==> r.value.HasTransaction() && r.value.transaction == t
    ensures (r.Some? && r.value.TransactionWasCancelled?) <==> error.Some? && IsCancellation(error.value)
    ensures (r.Some? && r.value.TransactionFailed?) <==>
              error.Some? && IsSKError(error.value) && !IsCancellation(error.value)
    ensures r.Some? && r.value.TransactionFailed? ==> r.value.error == error.value
    ensures (r.Some? && r.value.TransactionWasCompletedPurchase?) <==> error.None? && t.state == Purchased
    ensures (r.Some? && r.value.TransactionWasCompletedRestore?) <==> error.None? && t.state != Purchased
  {
    match error
    case Some(e) =>
      if IsSKError(e) then
        if e.code != RawValue(PaymentCancelled) then Some(TransactionFailed(t, e))
        else Some(TransactionWasCancelled(t))
      else None
    case None =>
      if t.state == Purchased then Some(TransactionWasCompletedPurchase(t))
      else Some(TransactionWasCompletedRestore(t))
  }

  // ---------------------------------------------------------------------------
  // paymentQueue(_:updatedTransactions:)

  /** The coalesced-history path: more than one transaction, the first restored or purchased. */
  predicate IsBatch(ts: seq<Transaction>) {
    |ts| > 1 && (ts[0].state == Restored || ts[0].state == Purchased)
  }

  /**
   * The per-transaction switch of the ordinary path: `purchased` is classified with
   * no error whatever the transaction carries, `failed` and `restored` with the
   * transaction's own error, `purchasing` and `deferred` make no call.
   */
  function StateEvent(t: Transaction): Option<ObserverEvent> {
    match t.state
    case Purchasing => None
    case Purchased => Classify(t, None)
    case Failed => Classify(t, t.error)
    case Restored => Classify(t, t.error)
    case Deferred => None
  }

  /** The delegate calls of the ordinary path, in queue order. */
  function StateEvents(ts: seq<Transaction>): seq<ObserverEvent> {
    if ts == [] then []
    else StateEvents(ts[..|ts| - 1]) + OptionToSeq(StateEvent(ts[|ts| - 1]))
  }

  /** The transactions the observer finishes itself. */
  function Finished(ts: seq<Transaction>): seq<Transaction> {
    if IsBatch(ts) then SortedTransactions(ts)[..|ts| - 1] else []
  }

  /** A transaction the store has not decided yet; the ordinary path says nothing about it. */
  predicate Pending(t: Transaction) {
    t.state == Purchasing || t.state == Deferred
  }

  /** The decided transactions of an update, in queue order. */
  function Settled(ts: seq<Transaction>): (r: seq<Transaction>)
    ensures forall k :: 0 <= k < |r| ==> r[k] in ts && !Pending(r[k])
  {
    if ts == [] then []
    else if Pending(ts[|ts| - 1]) then Settled(ts[..|ts| - 1])
    else Settled(ts[..|ts| - 1]) + [ts[|ts| - 1]]
  }

  /**
   * The transactions an update acts on: every one of a purchase or restore batch,
   * which are finished or reported whatever their state, and otherwise the decided ones.
   */
  function Handled(ts: seq<Transaction>): seq<Transaction> {
    if IsBatch(ts) then ts else Settled(ts)
  }

  /** The delegate calls the observer makes, in order. */
  function Dispatched(ts: seq<Transaction>): seq<ObserverEvent> {
    if IsBatch(ts) then OptionToSeq(Classify(Latest(ts), Latest(ts).error)) else StateEvents(ts)
  }

  /**
   * `paymentQueue(_:updatedTransactions:)`. On the batch path it sorts the batch,
   * finishes every transaction but the newest and dispatches only the newest; on
   * the ordinary path it dispatches each transaction by its state. The finished
   * transactions and the delegate calls are returned in the order they happen.
   */
  method UpdatedTransactions(ts: seq<Transaction>) returns (finished: seq<Transaction>, events: seq<ObserverEvent>)
    ensures finished == Finished(ts)
    ensures events == Dispatched(ts)
  {
    if IsBatch(ts) {
      var sorted := SortedTransactions(ts);
      var recent := sorted[|sorted| - 1];
      finished := sorted[..|sorted| - 1];
      events := OptionToSeq(Classify(recent, recent.error));
      return;
    }
    finished := [];
    events := EachStateEvent(ts);
  }

  /** The per-transaction path of `UpdatedTransactions`: one delegate call per state. */
  method EachStateEvent(ts: seq<Transaction>) returns (events: seq<ObserverEvent>)
    ensures events == StateEvents(ts)
  {
    events := [];
    for i := 0 to |ts|
      invariant events == StateEvents(ts[..i])
    {
      assert ts[..i + 1][..i] == ts[..i];
      match ts[i].state {
        case Purchasing =>
        case Purchased =>
          events := events + OptionToSeq(Classify(ts[i], None));
        case Failed =>
          events := events + OptionToSeq(Classify(ts[i], ts[i].error));
        case Restored =>
          events := events + OptionToSeq(Classify(ts[i], ts[i].error));
        case Deferred =>
      }
    }
    assert ts[..|ts|] == ts;
  }

  // ---------------------------------------------------------------------------
  // Properties of the two paths

  /** The observer finishes something itself exactly on the batch path. */
  lemma FinishesOnlyBatches(ts: seq<Transaction>)
    ensures Finished(ts) != [] <==> |ts| > 1 && (ts[0].state == Restored || ts[0].state == Purchased)
  {
  }

  /**
   * On the batch path every transaction is handled exactly once: the finished ones
   * together with the newest make up the batch, and none finished is newer than
   * the one dispatched.
   */
  lemma BatchPartition(ts: seq<Transaction>)
    requires IsBatch(ts)
    ensures multiset(Finished(ts)) + multiset{Latest(ts)} == multiset(ts)
    ensures forall k :: 0 <= k < |Finished(ts)| ==> Date(Finished(ts)[k]) <= Date(Latest(ts))
    ensures |Dispatched(ts)| <= 1
    ensures Dispatched(ts) != [] ==> Dispatched(ts)[0].transaction == Latest(ts)
  {
    var s := SortedTransactions(ts);
    assert s == s[..|ts| - 1] + [s[|ts| - 1]];
  }

  /** On the ordinary path, `purchasing` and `deferred` transactions make no call. */
  lemma {:induction false} PendingMakeNoEvents(ts: seq<Transaction>)
    requires forall k :: 0 <= k < |ts| ==> ts[k].state == Purchasing || ts[k].state == Deferred
    ensures StateEvents(ts) == []
  {
    if ts != [] {
      PendingMakeNoEvents(ts[..|ts| - 1]);
    }
  }

  /** The ordinary path completes a purchased transaction even when it carries an error. */
  lemma PurchasedIgnoresError(t: Transaction)
    requires t.state == Purchased
    ensures StateEvent(t) == Some(TransactionWasCompletedPurchase(t))
  {
  }

  /** Failed and restored transactions are classified with their own error. */
  lemma FailedAndRestoredUseOwnError(t: Transaction)
    requires t.state == Failed || t.state == Restored
    ensures StateEvent(t) == Classify(t, t.error)
  {
  }

  /**
   * Each call of the ordinary path is about a transaction of the batch that is
   * neither purchasing nor deferred, and there are at most as many calls as
   * transactions.
   */
  lemma {:induction false} StateEventsFromBatch(ts: seq<Transaction>)
    ensures |StateEvents(ts)| <= |ts|
    ensures forall k :: 0 <= k < |StateEvents(ts)| ==>
              StateEvents(ts)[k].HasTransaction() && StateEvents(ts)[k].transaction in ts &&
              StateEvents(ts)[k].transaction.state != Purchasing &&
              StateEvents(ts)[k].transaction.state != Deferred
  {
    if ts != [] {
      var init := ts[..|ts| - 1];
      StateEventsFromBatch(init);
      assert forall t :: t in init ==> t in ts;
    }
  }
}
