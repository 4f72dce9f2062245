/**
 * What the arbiter promises: how a delivered transaction is decided, how the waiter
 * slots behave, and that no transaction is finished twice, provided no two queue
 * updates act on the same transaction (reports of purchasing or deferred
 * transactions do not count).
 */
module StoreKitWrapperProperties {
  import opened Wrappers
  import opened StoreKit
  import opened SKErrors
  import opened TransactionDate
  import Obs = IAPObserver
  import opened StoreKitWrapper

  // ---------------------------------------------------------------------------
  // Deciding a delivered transaction

  /**
   * With a purchase waiter registered, the transaction takes the slot, the waiter is
   * cleared and called exactly once (success exactly when the transaction has no
   * error), and nothing is finished.
   */
  lemma PurchaseWaiterResolves<P, V>(w: State<P, V>, t: Transaction, waiter: V)
    requires w.onPurchaseHandler == Some(waiter)
    ensures var w' := w.HandleTransaction(t);
      && w'.ongoingTransaction == Some(t)
      && w'.onPurchaseHandler.None?
      && w'.acks == w.acks
      && w'.requests == w.requests
      && |w'.fired| == |w.fired| + 1 && w'.fired[..|w.fired|] == w.fired
      && w'.fired[|w.fired|].Completion? && w'.fired[|w.fired|].handler == waiter
      && (w'.fired[|w.fired|].outcome.Success? <==> t.error.None?)
  {
  }

  /**
   * Without a purchase waiter the slot keeps the newest transaction: the occupant
   * date becomes the larger of the old occupant date and the newcomer's, the slot
   * changes only for a strictly later newcomer (so an equal date keeps the
   * occupant), and exactly the loser is finished (nothing when the newcomer wins
   * an empty slot). The loser is never newer than the transaction kept.
   */
  lemma AmbientKeepsNewest<P, V>(w: State<P, V>, t: Transaction)
    requires w.onPurchaseHandler.None?
    ensures var w' := w.HandleTransaction(t);
      && w'.OccupantDate() == (if w.OccupantDate() < Date(t) then Date(t) else w.OccupantDate())
      && (w'.ongoingTransaction == Some(t) && w.ongoingTransaction != Some(t) ==> w.OccupantDate() < Date(t))
      && (w.OccupantDate() < Date(t) ==> w'.ongoingTransaction == Some(t))
      && (Date(t) <= w.OccupantDate() ==> w'.ongoingTransaction == w.ongoingTransaction)
      && w'.acks == w.acks + (if w.OccupantDate() < Date(t) then Ids(OptionToSeq(w.ongoingTransaction)) else [t.id])
      && (w.OccupantDate() < Date(t) && w.ongoingTransaction.Some? ==> Date(w.ongoingTransaction.value) < Date(t))
      && w'.onPurchaseHandler == w.onPurchaseHandler && w'.onRestoreHandler == w.onRestoreHandler
      && w'.onRefreshReceiptHandler == w.onRefreshReceiptHandler
      && w'.onReceiveProductsHandler == w.onReceiveProductsHandler
      && w'.products == w.products && w'.requests == w.requests
  {
  }

  /**
   * The ongoing-transaction notification is raised exactly when an ambient delivery
   * replaced the slot and no restore waiter is registered; nothing else is fired.
   */
  lemma AmbientNotice<P, V>(w: State<P, V>, t: Transaction)
    requires w.onPurchaseHandler.None?
    ensures var w' := w.HandleTransaction(t);
      w'.fired == w.fired + (if w.OccupantDate() < Date(t) && w.onRestoreHandler.None?
                             then [OngoingTransactionNotice] else [])
  {
  }

  /** An undated transaction delivered ambiently to an empty slot is finished, not adopted. */
  lemma UndatedAtEmptySlotIsFinished<P, V>(w: State<P, V>, t: Transaction)
    requires w.onPurchaseHandler.None? && w.ongoingTransaction.None? && t.transactionDate.None?
    ensures w.HandleTransaction(t).ongoingTransaction.None?
    ensures w.HandleTransaction(t).acks == w.acks + [t.id]
    ensures w.HandleTransaction(t).fired == w.fired
  {
  }

  /** Ambient deliveries one at a time, in order. */
  function HandleEach<P, V>(w: State<P, V>, ts: seq<Transaction>): State<P, V> {
    if ts == [] then w else HandleEach(w, ts[..|ts| - 1]).HandleTransaction(ts[|ts| - 1])
  }

  predicate StrictlyLater(ts: seq<Transaction>) {
    forall i, j :: 0 <= i < j < |ts| ==> Date(ts[i]) < Date(ts[j])
  }

  /**
   * Delivering transactions with strictly increasing dates, all later than the
   * occupant, with no purchase waiter: the slot ends up holding the last one, and
   * the old occupant and every other delivered transaction are finished, in order.
   */
  lemma {:induction false} IncreasingDeliveriesKeepLast<P, V>(w: State<P, V>, ts: seq<Transaction>)
    requires w.onPurchaseHandler.None?
    requires StrictlyLater(ts)
    requires forall k :: 0 <= k < |ts| ==> w.OccupantDate() < Date(ts[k])
    requires ts != []
    ensures HandleEach(w, ts).ongoingTransaction == Some(ts[|ts| - 1])
    ensures HandleEach(w, ts).acks == w.acks + Ids(OptionToSeq(w.ongoingTransaction)) + Ids(ts[..|ts| - 1])
    ensures HandleEach(w, ts).onPurchaseHandler.None?
  {
    var n := |ts|;
    if n == 1 {
      assert HandleEach(w, ts) == HandleEach(w, []).HandleTransaction(ts[0]);
      assert ts[..0] == [];
    } else {
      var init := ts[..n - 1];
      assert forall k :: 0 <= k < |init| ==> init[k] == ts[k];
      IncreasingDeliveriesKeepLast(w, init);
      var mid := HandleEach(w, init);
      assert mid.ongoingTransaction == Some(ts[n - 2]);
      assert mid.OccupantDate() < Date(ts[n - 1]);
      var last := mid.HandleTransaction(ts[n - 1]);
      assert HandleEach(w, ts) == last;
      assert last.acks == mid.acks + [ts[n - 2].id] && last.ongoingTransaction == Some(ts[n - 1]);
      assert init[..|init| - 1] == ts[..n - 2];
      assert Ids(ts[..n - 1]) == Ids(ts[..n - 2]) + [ts[n - 2].id];
    }
  }

  /** `transactionFailed` finishes the transaction, leaves the slot alone and keeps the purchase waiter. */
  lemma FailedTransactionLeavesSlot<P, V>(w: State<P, V>, t: Transaction, e: NSError)
    ensures var w' := w.TransactionFailed(t, e);
      && w'.ongoingTransaction == w.ongoingTransaction
      && w'.onPurchaseHandler == w.onPurchaseHandler
      && w'.acks == w.acks + [t.id]
      && w'.fired == w.fired + (if w.onPurchaseHandler.Some? then [Completion(w.onPurchaseHandler.value, Failure(e))] else [])
  {
  }

  /**
   * A restored transaction without a restore waiter is ignored and NOT finished;
   * with one, the waiter is told of success, stays registered, and the transaction
   * is finished.
   */
  lemma CompletedRestoreNeedsWaiter<P, V>(w: State<P, V>, t: Transaction)
    ensures w.onRestoreHandler.None? ==> w.TransactionWasCompletedRestore(t) == w
    ensures w.onRestoreHandler.Some? ==>
      var w' := w.TransactionWasCompletedRestore(t);
      && w'.onRestoreHandler == w.onRestoreHandler
      && w'.acks == w.acks + [t.id]
      && w'.fired == w.fired + [Completion(w.onRestoreHandler.value, Success(()))]
      && w'.ongoingTransaction == w.ongoingTransaction
  {
  }

  // ---------------------------------------------------------------------------
  // Waiters and requests

  /**
   * Calling an operation while its waiter is set replaces the waiter and does
   * nothing else: no request is started and nothing is fired, so the earlier
   * caller is never answered.
   */
  lemma SecondCallOverwritesWaiter<P, V>(w: State<P, V>, productId: string, ids: set<string>, p: P, v: V)
    ensures w.onPurchaseHandler.Some? ==> w.Purchase(productId, v) == w.(onPurchaseHandler := Some(v))
    ensures w.onRestoreHandler.Some? ==> w.RestorePurchase(v) == w.(onRestoreHandler := Some(v))
    ensures w.onRefreshReceiptHandler.Some? ==> w.RefreshReceipt(v) == w.(onRefreshReceiptHandler := Some(v))
    ensures w.onReceiveProductsHandler.Some? ==>
              w.RequestProduct(ids, p, true) == w.(onReceiveProductsHandler := Some(p))
  {
  }

  /** A first call registers its waiter and starts exactly its platform request. */
  lemma FirstCallStartsRequest<P, V>(w: State<P, V>, v: V)
    ensures w.onRestoreHandler.None? ==>
              w.RestorePurchase(v) == w.(onRestoreHandler := Some(v), requests := w.requests + [RestoreCompletedTransactions])
    ensures w.onRefreshReceiptHandler.None? ==>
              w.RefreshReceipt(v) == w.(onRefreshReceiptHandler := Some(v), requests := w.requests + [StartReceiptRefresh])
  {
  }

  /**
   * Purchasing an identifier that is not among the cached products fails at once
   * with "product not available", registers no waiter and enqueues no payment; a
   * cached one registers the waiter and enqueues exactly that payment.
   */
  lemma PurchaseNeedsCachedProduct<P, V>(w: State<P, V>, productId: string, v: V)
    requires w.onPurchaseHandler.None?
    ensures var w' := w.Purchase(productId, v);
      && ((forall k :: 0 <= k < |w.products| ==> w.products[k].productIdentifier != productId) ==>
            && w'.onPurchaseHandler.None?
            && w'.requests == w.requests
            && |w'.fired| == |w.fired| + 1
            && w'.fired[|w.fired|].Completion? && w'.fired[|w.fired|].handler == v
            && w'.fired[|w.fired|].outcome.Failure?
            && w'.fired[|w.fired|].outcome.error.code == RawValue(StoreProductNotAvailable))
      && (Product(productId) in w.products ==>
            && w'.onPurchaseHandler == Some(v)
            && w'.requests == w.requests + [AddPayment(productId)]
            && w'.fired == w.fired)
  {
    if Product(productId) in w.products {
      var k :| 0 <= k < |w.products| && w.products[k] == Product(productId);
      assert w.products[k].productIdentifier == productId;
    }
  }

  /**
   * `requestProduct` checks in this order: payments not allowed fails first, whatever
   * else holds; a pending request only takes the waiter over; a non-empty cache is
   * returned without a request; otherwise exactly one products request starts.
   */
  lemma RequestProductOrder<P, V>(w: State<P, V>, ids: set<string>, p: P, canMakePayments: bool)
    ensures var w' := w.RequestProduct(ids, p, canMakePayments);
      && (!canMakePayments ==>
            && w'.fired == w.fired + [ProductsCompletion(p, Failure(MakeError(PaymentNotAllowed)))]
            && w'.onReceiveProductsHandler == w.onReceiveProductsHandler
            && w'.requests == w.requests)
      && (w'.requests != w.requests <==>
            canMakePayments && w.onReceiveProductsHandler.None? && w.products == [])
      && (canMakePayments && w.onReceiveProductsHandler.None? && w.products != [] ==>
            w'.fired == w.fired + [ProductsCompletion(p, Success(w.products))])
  {
  }

  /**
   * A products response is cached; the waiter, if any, is cleared and told: failure
   * with "product not available" for an empty response, the products otherwise.
   */
  lemma ProductsResponseAnswersWaiter<P, V>(w: State<P, V>, response: seq<Product>, p: P)
    requires w.onReceiveProductsHandler == Some(p)
    ensures var w' := w.ProductsReceived(response);
      && w'.products == response
      && w'.onReceiveProductsHandler.None?
      && |w'.fired| == |w.fired| + 1 && w'.fired[|w.fired|].ProductsCompletion?
      && w'.fired[|w.fired|].productsHandler == p
      && (w'.fired[|w.fired|].products.Failure? <==> response == [])
      && (response == [] ==> w'.fired[|w.fired|].products.error.code == RawValue(StoreProductNotAvailable))
  {
  }

  /** `finishPurchase` does nothing on an empty slot and otherwise finishes exactly the occupant. */
  lemma FinishPurchaseFinishesOccupant<P, V>(w: State<P, V>)
    ensures w.ongoingTransaction.None? ==> w.FinishPurchase() == w
    ensures w.ongoingTransaction.Some? ==>
              w.FinishPurchase() == w.(ongoingTransaction := None, acks := w.acks + [w.ongoingTransaction.value.id])
    ensures !w.FinishPurchase().HasOngoingPurchase()
  {
  }

  /** Restore-finished clears the restore waiter and reports failure exactly when the slot is empty. */
  lemma RestoreFinishedReports<P, V>(w: State<P, V>, v: V)
    requires w.onRestoreHandler == Some(v)
    ensures var w' := w.RestoreFinished();
      && w'.onRestoreHandler.None?
      && |w'.fired| == |w.fired| + 1 && w'.fired[|w.fired|].Completion? && w'.fired[|w.fired|].handler == v
      && (w'.fired[|w.fired|].outcome.Failure? <==> w.ongoingTransaction.None?)
      && w'.ongoingTransaction == w.ongoingTransaction && w'.acks == w.acks
  {
  }

  /**
   * Restore-failed clears the restore waiter and hands it the error, changing nothing
   * else; with no restore waiter it changes nothing at all.
   */
  lemma RestoreFailedReports<P, V>(w: State<P, V>, error: NSError)
    ensures w.onRestoreHandler.None? ==> w.RestoreFailed(error) == w
    ensures w.onRestoreHandler.Some? ==>
              var w' := w.RestoreFailed(error);
              && w'.onRestoreHandler.None?
              && w'.fired == w.fired + [Completion(w.onRestoreHandler.value, Failure(error))]
              && w'.ongoingTransaction == w.ongoingTransaction && w'.acks == w.acks && w'.requests == w.requests
              && w'.products == w.products && w'.onPurchaseHandler == w.onPurchaseHandler
              && w'.onRefreshReceiptHandler == w.onRefreshReceiptHandler
              && w'.onReceiveProductsHandler == w.onReceiveProductsHandler
  {
  }

  /**
   * A failed request answers the products waiter if there is one (even when it was
   * a receipt refresh that failed), else the refresh waiter; a finished request
   * answers the refresh waiter, else raises the notification.
   */
  lemma RequestEndings<P, V>(w: State<P, V>, e: NSError)
    ensures w.onReceiveProductsHandler.Some? ==>
              w.RequestFailed(e).onReceiveProductsHandler.None? &&
              w.RequestFailed(e).onRefreshReceiptHandler == w.onRefreshReceiptHandler &&
              w.RequestFailed(e).fired == w.fired + [ProductsCompletion(w.onReceiveProductsHandler.value, Failure(e))]
    ensures w.onReceiveProductsHandler.None? && w.onRefreshReceiptHandler.Some? ==>
              w.RequestFailed(e).fired == w.fired + [Completion(w.onRefreshReceiptHandler.value, Failure(e))] &&
              w.RequestFailed(e).onRefreshReceiptHandler.None?
    ensures w.onReceiveProductsHandler.None? && w.onRefreshReceiptHandler.None? ==> w.RequestFailed(e) == w
    ensures w.onRefreshReceiptHandler.None? ==>
              w.RequestDidFinish() == w.(fired := w.fired + [OngoingTransactionNotice])
    ensures w.onRefreshReceiptHandler.Some? ==>
              w.RequestDidFinish() == w.(onRefreshReceiptHandler := None,
                                         fired := w.fired + [Completion(w.onRefreshReceiptHandler.value, Success(()))])
  {
  }

  // ---------------------------------------------------------------------------
  // Batches

  lemma {:induction false} FinishAllAppends<P, V>(w: State<P, V>, ts: seq<Transaction>)
    ensures w.FinishAll(ts) == w.(acks := w.acks + Ids(ts))
  {
    if ts != [] {
      FinishAllAppends(w, ts[..|ts| - 1]);
    }
  }

  lemma {:induction false} DispatchAllConcat<P, V>(w: State<P, V>, a: seq<Obs.ObserverEvent>, b: seq<Obs.ObserverEvent>)
    ensures w.DispatchAll(a + b) == w.DispatchAll(a).DispatchAll(b)
  {
    if b == [] {
      assert a + b == a;
    } else {
      var n := |b|;
      assert (a + b)[..|a + b| - 1] == a + b[..n - 1];
      assert (a + b)[|a + b| - 1] == b[n - 1];
      DispatchAllConcat(w, a, b[..n - 1]);
    }
  }

  /** A single transaction is already sorted. */
  lemma SortOne(t: Transaction)
    ensures Obs.SortedTransactions([t]) == [t]
  {
    assert [t][1..] == [];
  }

  /** Two purchased transactions dated 1 and 5 sort to the older first, whatever order they came in. */
  lemma SortTwo(t1: Transaction, t2: Transaction, ts: seq<Transaction>)
    requires t1.transactionDate == Some(1) && t2.transactionDate == Some(5)
    requires ts == [t1, t2] || ts == [t2, t1]
    ensures Obs.SortedTransactions(ts) == [t1, t2]
  {
    assert !Obs.EarlierThan(t2, t1) && Obs.EarlierThan(t1, t2);
    if ts == [t1, t2] {
      assert ts[1..] == [t2];
      SortOne(t2);
      assert Obs.Insert(t1, [t2]) == [t1, t2];
    } else {
      assert ts[1..] == [t1];
      SortOne(t1);
      assert Obs.Insert(t2, []) == [t2];
      assert Obs.Insert(t2, [t1]) == [t1] + Obs.Insert(t2, [t1][1..]);
      assert [t1][1..] == [];
    }
  }

  /**
   * The example of a coalesced history: two purchased transactions dated 1 and 5,
   * in either order, with no waiter and an empty slot. The older is finished, the
   * newer takes the slot, and the notification fires exactly once.
   */
  lemma BatchOfTwo<P, V>(w: State<P, V>, t1: Transaction, t2: Transaction, ts: seq<Transaction>)
    requires w.onPurchaseHandler.None? && w.onRestoreHandler.None? && w.ongoingTransaction.None?
    requires t1.state == Purchased && t1.transactionDate == Some(1) && t1.error.None?
    requires t2.state == Purchased && t2.transactionDate == Some(5) && t2.error.None?
    requires ts == [t1, t2] || ts == [t2, t1]
    ensures w.PaymentQueueUpdated(ts) ==
              w.(ongoingTransaction := Some(t2), acks := w.acks + [t1.id], fired := w.fired + [OngoingTransactionNotice])
  {
    var e := Obs.TransactionWasCompletedPurchase(t2);
    ObserveTwo(t1, t2, ts);
    var mid := w.FinishAll([t1]);
    assert mid == w.(acks := w.acks + [t1.id]) by {
      assert [t1][..0] == [];
      assert w.FinishAll([]) == w;
    }
    assert mid.DispatchAll([e]) == mid.Dispatch(e) by {
      assert [e][..0] == [];
    }
    assert mid.OccupantDate() < Date(t2);
  }

  /**
   * An update made only of undecided transactions changes nothing: nothing is
   * finished, no delegate call is made.
   */
  lemma PendingUpdateChangesNothing<P, V>(w: State<P, V>, ts: seq<Transaction>)
    requires forall k :: 0 <= k < |ts| ==> Obs.Pending(ts[k])
    ensures w.PaymentQueueUpdated(ts) == w
    ensures Obs.Handled(ts) == []
  {
    assert !Obs.IsBatch(ts);
    Obs.PendingMakeNoEvents(ts);
    assert w.FinishAll([]) == w;
    NothingSettled(ts);
  }

  lemma {:induction false} NothingSettled(ts: seq<Transaction>)
    requires forall k :: 0 <= k < |ts| ==> Obs.Pending(ts[k])
    ensures Obs.Settled(ts) == []
  {
    if ts != [] {
      NothingSettled(ts[..|ts| - 1]);
    }
  }

  /** What the observer makes of the batch in `BatchOfTwo`. */
  lemma ObserveTwo(t1: Transaction, t2: Transaction, ts: seq<Transaction>)
    requires t1.state == Purchased && t1.transactionDate == Some(1) && t1.error.None?
    requires t2.state == Purchased && t2.transactionDate == Some(5) && t2.error.None?
    requires ts == [t1, t2] || ts == [t2, t1]
    ensures Obs.Finished(ts) == [t1]
    ensures Obs.Dispatched(ts) == [Obs.TransactionWasCompletedPurchase(t2)]
  {
    assert Obs.IsBatch(ts);
    SortTwo(t1, t2, ts);
    assert Obs.Finished(ts) == [t1];
    assert Obs.Latest(ts) == t2;
  }

  // ---------------------------------------------------------------------------
  // No transaction is finished twice

  predicate NoDuplicates(s: seq<nat>) {
    forall i, j :: 0 <= i < j < |s| ==> s[i] != s[j]
  }

  /**
   * The finishing history is sound with respect to the identifiers delivered so far
   * (`seen`): no identifier was finished twice, every finished one was delivered,
   * and the occupant was delivered and not finished.
   */
  predicate AckedOnce<P, V>(w: State<P, V>, seen: set<nat>) {
    && NoDuplicates(w.acks)
    && (forall i :: 0 <= i < |w.acks| ==> w.acks[i] in seen)
    && (w.ongoingTransaction.Some? ==>
          w.ongoingTransaction.value.id in seen && w.ongoingTransaction.value.id !in w.acks)
  }

  predicate DistinctIds(ts: seq<Transaction>) {
    forall i, j :: 0 <= i < j < |ts| ==> ts[i].id != ts[j].id
  }

  /**
   * The condition the invariant rests on: the transactions are new and have no
   * repeated identifiers. It is applied to the transactions an update acts on
   * (`Obs.Handled`), so a `purchasing` report followed by the `purchased` one of
   * the same transaction meets it.
   */
  predicate FreshBatch(seen: set<nat>, ts: seq<Transaction>) {
    DistinctIds(ts) && forall k :: 0 <= k < |ts| ==> ts[k].id !in seen
  }

  function IdSet(ts: seq<Transaction>): set<nat> {
    set t | t in ts :: t.id
  }

  lemma AckedOnceMonotone<P, V>(w: State<P, V>, seen: set<nat>, more: set<nat>)
    requires AckedOnce(w, seen)
    ensures AckedOnce(w, seen + more)
  {
  }

  lemma AckFresh<P, V>(w: State<P, V>, seen: set<nat>, x: nat)
    requires AckedOnce(w, seen) && x !in seen
    ensures AckedOnce(w.(acks := w.acks + [x]), seen + {x})
  {
    assert x !in w.acks;
  }

  /** Splitting a fresh batch into its front and its last transaction. */
  lemma FreshSplit(seen: set<nat>, ts: seq<Transaction>)
    requires FreshBatch(seen, ts) && ts != []
    ensures FreshBatch(seen, ts[..|ts| - 1])
    ensures ts[|ts| - 1].id !in seen + IdSet(ts[..|ts| - 1])
    ensures IdSet(ts) == IdSet(ts[..|ts| - 1]) + {ts[|ts| - 1].id}
  {
    var n := |ts|;
    var init := ts[..n - 1];
    assert ts == init + [ts[n - 1]];
    forall t | t in init ensures t.id != ts[n - 1].id {
      var k :| 0 <= k < |init| && init[k] == t;
      assert ts[k] == t;
    }
  }

  /** Deciding a new transaction never finishes anything twice. */
  lemma HandleTransactionAcksOnce<P, V>(w: State<P, V>, seen: set<nat>, t: Transaction)
    requires AckedOnce(w, seen) && t.id !in seen
    ensures AckedOnce(w.HandleTransaction(t), seen + {t.id})
  {
    if w.onPurchaseHandler.None? {
      if w.OccupantDate() < Date(t) {
        if w.ongoingTransaction.Some? {
          var o := w.ongoingTransaction.value.id;
          assert NoDuplicates(w.acks + [o]);
          assert t.id !in w.acks + [o];
        }
      } else {
        AckFresh(w, seen, t.id);
      }
    }
  }

  /** `finishPurchase` never finishes anything twice. */
  lemma FinishPurchaseAcksOnce<P, V>(w: State<P, V>, seen: set<nat>)
    requires AckedOnce(w, seen)
    ensures AckedOnce(w.FinishPurchase(), seen)
  {
    if w.ongoingTransaction.Some? {
      var o := w.ongoingTransaction.value.id;
      assert NoDuplicates(w.acks + [o]);
    }
  }

  /** No delegate call about a new transaction finishes anything twice. */
  lemma DispatchAcksOnce<P, V>(w: State<P, V>, seen: set<nat>, e: Obs.ObserverEvent)
    requires AckedOnce(w, seen)
    requires e.HasTransaction() ==> e.transaction.id !in seen
    ensures AckedOnce(w.Dispatch(e), if e.HasTransaction() then seen + {e.transaction.id} else seen)
  {
    match e
    case RestoreCompletedTransactionsFinished =>
    case RestoreCompletedTransactionsFailed(_) =>
    case TransactionWasCancelled(t) => HandleTransactionAcksOnce(w, seen, t);
    case TransactionFailed(t, error) => AckFresh(w.(fired := w.TransactionFailed(t, error).fired), seen, t.id);
    case TransactionWasCompletedPurchase(t) => HandleTransactionAcksOnce(w, seen, t);
    case TransactionWasCompletedRestore(t) =>
      if w.onRestoreHandler.Some? {
        AckFresh(w.(fired := w.TransactionWasCompletedRestore(t).fired), seen, t.id);
      } else {
        AckedOnceMonotone(w, seen, {t.id});
      }
  }

  /** At most one delegate call about `t`, a new transaction. */
  lemma DispatchOptionAcksOnce<P, V>(w: State<P, V>, seen: set<nat>, t: Transaction, o: Option<Obs.ObserverEvent>)
    requires AckedOnce(w, seen) && t.id !in seen
    requires o.Some? ==> o.value.HasTransaction() && o.value.transaction == t
    ensures AckedOnce(w.DispatchAll(OptionToSeq(o)), seen + {t.id})
  {
    match o
    case None =>
      AckedOnceMonotone(w, seen, {t.id});
    case Some(e) =>
      DispatchAllConcat(w, [], [e]);
      DispatchAcksOnce(w, seen, e);
  }

  lemma {:induction false} FinishAllAcksOnce<P, V>(w: State<P, V>, seen: set<nat>, ts: seq<Transaction>)
    requires AckedOnce(w, seen) && FreshBatch(seen, ts)
    ensures AckedOnce(w.FinishAll(ts), seen + IdSet(ts))
  {
    if ts != [] {
      var n := |ts|;
      FreshSplit(seen, ts);
      FinishAllAcksOnce(w, seen, ts[..n - 1]);
      AckFresh(w.FinishAll(ts[..n - 1]), seen + IdSet(ts[..n - 1]), ts[n - 1].id);
    }
  }

  /** Two copies of one value count twice. */
  lemma TwiceCounted(s: seq<Transaction>, i: int, j: int)
    requires 0 <= i < j < |s| && s[i] == s[j]
    ensures multiset(s)[s[i]] >= 2
  {
    assert s == s[..j] + s[j..];
    assert s[i] in s[..j];
    assert s[j] in s[j..];
    assert multiset(s) == multiset(s[..j]) + multiset(s[j..]);
  }

  /** Without repeated identifiers, nothing occurs twice. */
  lemma {:induction false} OnceCounted(s: seq<Transaction>, x: Transaction)
    requires DistinctIds(s)
    ensures multiset(s)[x] <= 1
  {
    if s != [] {
      var n := |s|;
      OnceCounted(s[..n - 1], x);
      assert s == s[..n - 1] + [s[n - 1]];
      if s[n - 1] == x {
        forall k | 0 <= k < n - 1 ensures s[k] != x {
          assert s[k].id != s[n - 1].id;
        }
        assert x !in s[..n - 1];
      }
    }
  }

  /** Reordering a batch keeps it fresh, with the same identifiers. */
  lemma FreshPermutation(seen: set<nat>, a: seq<Transaction>, b: seq<Transaction>)
    requires multiset(a) == multiset(b) && FreshBatch(seen, a)
    ensures FreshBatch(seen, b)
    ensures IdSet(a) == IdSet(b)
  {
    forall i, j | 0 <= i < j < |b| ensures b[i].id != b[j].id {
      assert b[i] in multiset(a) && b[j] in multiset(a);
      var p :| 0 <= p < |a| && a[p] == b[i];
      var q :| 0 <= q < |a| && a[q] == b[j];
      if p == q {
        TwiceCounted(b, i, j);
        OnceCounted(a, b[i]);
        assert false;
      } else if p < q {
        assert a[p].id != a[q].id;
      } else {
        assert a[q].id != a[p].id;
      }
    }
    forall k | 0 <= k < |b| ensures b[k].id !in seen {
      assert b[k] in multiset(a);
    }
    forall t ensures t in a <==> t in b {
      assert t in multiset(a) <==> t in multiset(b);
    }
  }

  /** The ordinary path needs only its decided transactions to be new and distinct. */
  lemma {:induction false} StateEventsAcksOnce<P, V>(w: State<P, V>, seen: set<nat>, ts: seq<Transaction>)
    requires AckedOnce(w, seen) && FreshBatch(seen, Obs.Settled(ts))
    ensures AckedOnce(w.DispatchAll(Obs.StateEvents(ts)), seen + IdSet(Obs.Settled(ts)))
  {
    if ts != [] {
      var init := ts[..|ts| - 1];
      var last := ts[|ts| - 1];
      SettledSplit(seen, ts);
      StateEventsAcksOnce(w, seen, init);
      if !Obs.Pending(last) {
        var before := Obs.StateEvents(init);
        var o := Obs.StateEvent(last);
        DispatchAllConcat(w, before, OptionToSeq(o));
        DispatchOptionAcksOnce(w.DispatchAll(before), seen + IdSet(Obs.Settled(init)), last, o);
      }
    }
  }

  /** Splitting the ordinary path into its front and its last transaction. */
  lemma SettledSplit(seen: set<nat>, ts: seq<Transaction>)
    requires ts != [] && FreshBatch(seen, Obs.Settled(ts))
    ensures var init := ts[..|ts| - 1]; var last := ts[|ts| - 1];
      && FreshBatch(seen, Obs.Settled(init))
      && (Obs.Pending(last) ==>
            Obs.Settled(ts) == Obs.Settled(init) && Obs.StateEvents(ts) == Obs.StateEvents(init))
      && (!Obs.Pending(last) ==>
            && last.id !in seen + IdSet(Obs.Settled(init))
            && IdSet(Obs.Settled(ts)) == IdSet(Obs.Settled(init)) + {last.id}
            && Obs.StateEvents(ts) == Obs.StateEvents(init) + OptionToSeq(Obs.StateEvent(last)))
  {
    if Obs.Pending(ts[|ts| - 1]) {
      SkipPending(ts);
    } else {
      KeepDecided(seen, ts);
    }
  }

  lemma SkipPending(ts: seq<Transaction>)
    requires ts != [] && Obs.Pending(ts[|ts| - 1])
    ensures Obs.Settled(ts) == Obs.Settled(ts[..|ts| - 1])
    ensures Obs.StateEvents(ts) == Obs.StateEvents(ts[..|ts| - 1])
  {
    var init := ts[..|ts| - 1];
    var before := Obs.StateEvents(init);
    assert Obs.StateEvent(ts[|ts| - 1]).None?;
    assert Obs.StateEvents(ts) == before + [];
    assert before + [] == before;
  }

  lemma KeepDecided(seen: set<nat>, ts: seq<Transaction>)
    requires ts != [] && !Obs.Pending(ts[|ts| - 1]) && FreshBatch(seen, Obs.Settled(ts))
    ensures FreshBatch(seen, Obs.Settled(ts[..|ts| - 1]))
    ensures ts[|ts| - 1].id !in seen + IdSet(Obs.Settled(ts[..|ts| - 1]))
    ensures IdSet(Obs.Settled(ts)) == IdSet(Obs.Settled(ts[..|ts| - 1])) + {ts[|ts| - 1].id}
    ensures Obs.StateEvents(ts) == Obs.StateEvents(ts[..|ts| - 1]) + OptionToSeq(Obs.StateEvent(ts[|ts| - 1]))
  {
    var last := ts[|ts| - 1];
    var before := Obs.Settled(ts[..|ts| - 1]);
    var settled := Obs.Settled(ts);
    assert settled == before + [last];
    assert settled[..|settled| - 1] == before;
    FreshSplit(seen, settled);
  }

  /**
   * A whole update from the queue, through the observer and the delegate calls,
   * finishes nothing twice, provided the transactions it acts on are new and distinct.
   */
  lemma PaymentQueueUpdatedAcksOnce<P, V>(w: State<P, V>, seen: set<nat>, ts: seq<Transaction>)
    requires AckedOnce(w, seen) && FreshBatch(seen, Obs.Handled(ts))
    ensures AckedOnce(w.PaymentQueueUpdated(ts), seen + IdSet(Obs.Handled(ts)))
  {
    if Obs.IsBatch(ts) {
      var s := Obs.SortedTransactions(ts);
      var n := |ts|;
      FreshPermutation(seen, ts, s);
      FreshSplit(seen, s);
      var older := s[..n - 1];
      var latest := s[n - 1];
      assert Obs.Finished(ts) == older;
      assert Obs.Latest(ts) == latest;
      FinishAllAcksOnce(w, seen, older);
      DispatchOptionAcksOnce(w.FinishAll(older), seen + IdSet(older), latest, Obs.Classify(latest, latest.error));
    } else {
      assert Obs.Finished(ts) == [];
      StateEventsAcksOnce(w, seen, ts);
    }
  }

  // ---------------------------------------------------------------------------
  // Where exactly-once does not hold

  /**
   * The invariant needs new transactions: if the queue delivers the occupant again
   * (as it does for every unfinished transaction when observation restarts), the
   * equal date finishes it as stale while it stays in the slot, and the next
   * `finishPurchase` finishes it a second time.
   */
  lemma RedeliveryFinishesTwice<P, V>(w: State<P, V>, t: Transaction)
    requires w.onPurchaseHandler.None? && w.ongoingTransaction == Some(t)
    ensures w.HandleTransaction(t).FinishPurchase().acks == w.acks + [t.id, t.id]
  {
  }

  /**
   * With a purchase waiter registered, a delivered transaction replaces the
   * occupant without finishing it: the former occupant is never finished by this step.
   */
  lemma PurchaseWaiterDropsOccupant<P, V>(w: State<P, V>, t: Transaction, v: V)
    requires w.onPurchaseHandler == Some(v) && w.ongoingTransaction.Some? && w.ongoingTransaction.value != t
    ensures w.HandleTransaction(t).ongoingTransaction == Some(t)
    ensures w.HandleTransaction(t).acks == w.acks
  {
  }
}
