/**
 * `StoreKitWrapper`: the transaction arbiter. It owns one "ongoing transaction" slot,
 * four single-shot waiter slots (products, restore, purchase, receipt refresh) and a
 * product cache, and decides for every transaction the queue delivers whether it
 * resolves the waiting purchase, replaces the slot or is finished as stale.
 *
 * `State` is the specification: one member function per operation, giving the new
 * state. The class `StoreKitWrapper` holds the same data in fields and each of its
 * methods is proved to produce exactly that new state.
 *
 * Effects on the platform are logs: `acks` holds the identifiers passed to the
 * queue's `finishTransaction`, in order; `requests` the requests started; `fired`
 * the handlers invoked (with what) and the ongoing-transaction notifications.
 * `P` stands for a products completion and `V` for a completion without a value.
 */
module StoreKitWrapper {
  import opened Wrappers
  import opened StoreKit
  import opened SKErrors
  import opened TransactionDate
  import Obs = IAPObserver

  /** A request started on the platform. */
  datatype PlatformRequest =
    | AddPayment(productIdentifier: string)
    | StartProductsRequest(identifiers: set<string>)
    | StartReceiptRefresh
    | RestoreCompletedTransactions

  /** Something the wrapper hands to the code above it. */
  datatype Fired<P, V> =
    | ProductsCompletion(productsHandler: P, products: Result<seq<Product>, NSError>)
    | Completion(handler: V, outcome: Result<(), NSError>)
    | OngoingTransactionNotice

  /** The identifiers of a sequence of transactions, in order. */
  function Ids(ts: seq<Transaction>): (r: seq<nat>)
    ensures |r| == |ts|
    ensures forall k :: 0 <= k < |ts| ==> r[k] == ts[k].id
  {
    if ts == [] then [] else Ids(ts[..|ts| - 1]) + [ts[|ts| - 1].id]
  }

  /** `products.first(where:)` on the product identifier. */
  function FirstProduct(products: seq<Product>, productId: string): (r: Option<Product>)
    ensures r.None? <==> forall k :: 0 <= k < |products| ==> products[k].productIdentifier != productId
    ensures r.Some? ==> r.value in products && r.value.productIdentifier == productId
    ensures r.Some? ==> exists k :: 0 <= k < |products| && products[k] == r.value &&
                                    forall j :: 0 <= j < k ==> products[j].productIdentifier != productId
  {
    if products == [] then None
    else if products[0].productIdentifier == productId then Some(products[0])
    else
      var r := FirstProduct(products[1..], productId);
      FirstProductShift(products, productId, r);
      r
  }

  /** A first match in the tail, after a head that does not match, is a first match of the whole. */
  lemma FirstProductShift(products: seq<Product>, productId: string, r: Option<Product>)
    requires products != [] && products[0].productIdentifier != productId
    requires r.Some? ==> exists k :: 0 <= k < |products[1..]| && products[1..][k] == r.value &&
                                     forall j :: 0 <= j < k ==> products[1..][j].productIdentifier != productId
    ensures r.Some? ==> exists k :: 0 <= k < |products| && products[k] == r.value &&
                                    forall j :: 0 <= j < k ==> products[j].productIdentifier != productId
  {
    if r.Some? {
      var k :| 0 <= k < |products[1..]| && products[1..][k] == r.value &&
               forall j :: 0 <= j < k ==> products[1..][j].productIdentifier != productId;
      assert products[k + 1] == r.value;
      forall j | 0 <= j < k + 1 ensures products[j].productIdentifier != productId {
        if j > 0 { assert products[j] == products[1..][j - 1]; }
      }
    }
  }

  /**
   * What the purchase waiter is told about a transaction: success exactly when it has
   * no error; its own error when that is a StoreKit error, and an "unknown" error
   * otherwise.
   */
  function PurchaseOutcome(t: Transaction): (r: Result<(), NSError>)
    ensures r.Success? <==> t.error.None?
    ensures r.Failure? && IsSKError(t.error.value) ==> r.error == t.error.value
    ensures r.Failure? && !IsSKError(t.error.value) ==> r.error == MakeError(Unknown)
  {
    match t.error
    case None => Success(())
    case Some(e) => if IsSKError(e) then Failure(e) else Failure(MakeError(Unknown))
  }

  const ProductNotFound: string := " not found"
  const NoProductsReturned: string := "product request returned no products"
  const NothingToRestore: string := "Found no payment to be restore"

  datatype State<P, V> = State(
    products: seq<Product>,
    ongoingTransaction: Option<Transaction>,
    onReceiveProductsHandler: Option<P>,
    onRestoreHandler: Option<V>,
    onPurchaseHandler: Option<V>,
    onRefreshReceiptHandler: Option<V>,
    acks: seq<nat>,
    requests: seq<PlatformRequest>,
    fired: seq<Fired<P, V>>)
  {
    /** The date the slot's occupant is compared by; an empty slot counts as the epoch. */
    function OccupantDate(): int {
      if ongoingTransaction.Some? then Date(ongoingTransaction.value) else Epoch
    }

    /** `hasOngoingPurchase`. */
    predicate HasOngoingPurchase() {
      ongoingTransaction.Some?
    }

    /** `requestProduct` (behind `fetchProducts`). */
    function RequestProduct(identifiers: set<string>, completion: P, canMakePayments: bool): State<P, V> {
      if !canMakePayments then
        this.(fired := fired + [ProductsCompletion(completion, Failure(MakeError(PaymentNotAllowed)))])
      else if onReceiveProductsHandler.Some? then
        this.(onReceiveProductsHandler := Some(completion))
      else if products != [] then
        this.(fired := fired + [ProductsCompletion(completion, Success(products))])
      else
        this.(onReceiveProductsHandler := Some(completion),
              requests := requests + [StartProductsRequest(identifiers)])
    }

    /** `purchase(productId:completion:)`. */
    function Purchase(productId: string, completion: V): State<P, V> {
      if onPurchaseHandler.Some? then
        this.(onPurchaseHandler := Some(completion))
      else
        match FirstProduct(products, productId)
        case None =>
          var e := MakeError(StoreProductNotAvailable, Some("product with identifier: " + productId + ProductNotFound));
          this.(fired := fired + [Completion(completion, Failure(e))])
        case Some(product) =>
          this.(onPurchaseHandler := Some(completion),
                requests := requests + [AddPayment(product.productIdentifier)])
    }

    /** `finishPurchase`. */
    function FinishPurchase(): State<P, V> {
      match ongoingTransaction
      case None => this
      case Some(t) => this.(ongoingTransaction := None, acks := acks + [t.id])
    }

    /** `refreshReceipt(completion:)`. */
    function RefreshReceipt(completion: V): State<P, V> {
      if onRefreshReceiptHandler.Some? then
        this.(onRefreshReceiptHandler := Some(completion))
      else
        this.(onRefreshReceiptHandler := Some(completion), requests := requests + [StartReceiptRefresh])
    }

    /** `restorePurchase(completion:)`. */
    function RestorePurchase(completion: V): State<P, V> {
      if onRestoreHandler.Some? then
        this.(onRestoreHandler := Some(completion))
      else
        this.(onRestoreHandler := Some(completion), requests := requests + [RestoreCompletedTransactions])
    }

    /** `handleTransaction`: resolve the purchase waiter, or arbitrate by date. */
    function HandleTransaction(t: Transaction): State<P, V> {
      match onPurchaseHandler
      case None =>
        if OccupantDate() < Date(t) then
          var acked := if ongoingTransaction.Some? then acks + [ongoingTransaction.value.id] else acks;
          var notified := if onRestoreHandler.None? then fired + [OngoingTransactionNotice] else fired;
          this.(ongoingTransaction := Some(t), acks := acked, fired := notified)
        else
          this.(acks := acks + [t.id])
      case Some(completion) =>
        this.(ongoingTransaction := Some(t), onPurchaseHandler := None,
              fired := fired + [Completion(completion, PurchaseOutcome(t))])
    }

    /** `productsRequest(_:didReceive:)`. */
    function ProductsReceived(response: seq<Product>): State<P, V> {
      match onReceiveProductsHandler
      case None => this.(products := response)
      case Some(completion) =>
        var result := if response == [] then Failure(MakeError(StoreProductNotAvailable, Some(NoProductsReturned)))
                      else Success(response);
        this.(products := response, onReceiveProductsHandler := None,
              fired := fired + [ProductsCompletion(completion, result)])
    }

    /** `requestDidFinish`: the refresh waiter succeeds, or the notification is raised. */
    function RequestDidFinish(): State<P, V> {
      match onRefreshReceiptHandler
      case None => this.(fired := fired + [OngoingTransactionNotice])
      case Some(completion) =>
        this.(onRefreshReceiptHandler := None, fired := fired + [Completion(completion, Success(()))])
    }

    /** `request(_:didFailWithError:)`: the products waiter first, then the refresh waiter. */
    function RequestFailed(error: NSError): State<P, V> {
      match onReceiveProductsHandler
      case Some(completion) =>
        this.(onReceiveProductsHandler := None, fired := fired + [ProductsCompletion(completion, Failure(error))])
      case None =>
        match onRefreshReceiptHandler
        case None => this
        case Some(completion) =>
          this.(onRefreshReceiptHandler := None, fired := fired + [Completion(completion, Failure(error))])
    }

    /** `paymentQueueRestoreCompletedTransactionsFinished` as the delegate receives it. */
    function RestoreFinished(): State<P, V> {
      match onRestoreHandler
      case None => this
      case Some(completion) =>
        var outcome := if ongoingTransaction.None? then Failure(MakeError(Unknown, Some(NothingToRestore)))
                       else Success(());
        this.(onRestoreHandler := None, fired := fired + [Completion(completion, outcome)])
    }

    /** `restoreCompletedTransactionsFailedWithError` as the delegate receives it. */
    function RestoreFailed(error: NSError): State<P, V> {
      match onRestoreHandler
      case None => this
      case Some(completion) =>
        this.(onRestoreHandler := None, fired := fired + [Completion(completion, Failure(error))])
    }

    /** `transactionFailed`: the purchase waiter, if any, is told and kept; the transaction is finished. */
    function TransactionFailed(t: Transaction, error: NSError): State<P, V> {
      var notified := if onPurchaseHandler.Some? then fired + [Completion(onPurchaseHandler.value, Failure(error))]
                      else fired;
      this.(fired := notified, acks := acks + [t.id])
    }

    /** `transactionWasCompletedRestore`: only with a restore waiter, which is told and kept. */
    function TransactionWasCompletedRestore(t: Transaction): State<P, V> {
      match onRestoreHandler
      case None => this
      case Some(completion) =>
        this.(fired := fired + [Completion(completion, Success(()))], acks := acks + [t.id])
    }

    /** The delegate method an observer event calls. */
    function Dispatch(e: Obs.ObserverEvent): State<P, V> {
      match e
      case RestoreCompletedTransactionsFinished => RestoreFinished()
      case RestoreCompletedTransactionsFailed(error) => RestoreFailed(error)
      case TransactionWasCancelled(t) => HandleTransaction(t)
      case TransactionFailed(t, error) => TransactionFailed(t, error)
      case TransactionWasCompletedPurchase(t) => HandleTransaction(t)
      case TransactionWasCompletedRestore(t) => TransactionWasCompletedRestore(t)
    }

    /** The observer's own `finishTransaction` calls, in order. */
    function FinishAll(ts: seq<Transaction>): State<P, V> {
      if ts == [] then this
      else
        var s := FinishAll(ts[..|ts| - 1]);
        s.(acks := s.acks + [ts[|ts| - 1].id])
    }

    /** Delegate calls, in order. */
    function DispatchAll(es: seq<Obs.ObserverEvent>): State<P, V> {
      if es == [] then this else DispatchAll(es[..|es| - 1]).Dispatch(es[|es| - 1])
    }

    /** A batch from `paymentQueue(_:updatedTransactions:)`, through the observer. */
    function PaymentQueueUpdated(ts: seq<Transaction>): State<P, V> {
      FinishAll(Obs.Finished(ts)).DispatchAll(Obs.Dispatched(ts))
    }
  }

  /** The state of a fresh wrapper. */
  function Initial<P, V>(): State<P, V> {
    State([], None, None, None, None, None, [], [], [])
  }

  class StoreKitWrapper<P, V> {
    var products: seq<Product>
    var ongoingTransaction: Option<Transaction>
    var onReceiveProductsHandler: Option<P>
    var onRestoreHandler: Option<V>
    var onPurchaseHandler: Option<V>
    var onRefreshReceiptHandler: Option<V>
    var acks: seq<nat>
    var requests: seq<PlatformRequest>
    var fired: seq<Fired<P, V>>

    /** The wrapper's fields as a `State`. */
    ghost function Model(): State<P, V>
      reads this
    {
      State(products, ongoingTransaction, onReceiveProductsHandler, onRestoreHandler, onPurchaseHandler,
            onRefreshReceiptHandler, acks, requests, fired)
    }

    constructor ()
      ensures Model() == Initial()
    {
      products := [];
      ongoingTransaction := None;
      onReceiveProductsHandler := None;
      onRestoreHandler := None;
      onPurchaseHandler := None;
      onRefreshReceiptHandler := None;
      acks := [];
      requests := [];
      fired := [];
    }

    method FetchProducts(identifiers: set<string>, completion: P, canMakePayments: bool)
      modifies this
      ensures Model() == old(Model()).RequestProduct(identifiers, completion, canMakePayments)
    {
      if !canMakePayments {
        fired := fired + [ProductsCompletion(completion, Failure(MakeError(PaymentNotAllowed)))];
        return;
      }
      if onReceiveProductsHandler.Some? {
        onReceiveProductsHandler := Some(completion);
        return;
      }
      if products != [] {
        fired := fired + [ProductsCompletion(completion, Success(products))];
        return;
      }
      onReceiveProductsHandler := Some(completion);
      requests := requests + [StartProductsRequest(identifiers)];
    }

    method Purchase(productId: string, completion: V)
      modifies this
      ensures Model() == old(Model()).Purchase(productId, completion)
    {
      if onPurchaseHandler.Some? {
        onPurchaseHandler := Some(completion);
        return;
      }
      var product := FirstProduct(products, productId);
      if product.None? {
        var e := MakeError(StoreProductNotAvailable, Some("product with identifier: " + productId + ProductNotFound));
        fired := fired + [Completion(completion, Failure(e))];
        return;
      }
      onPurchaseHandler := Some(completion);
      requests := requests + [AddPayment(product.value.productIdentifier)];
    }

    method FinishPurchase()
      modifies this
      ensures Model() == old(Model()).FinishPurchase()
    {
      if ongoingTransaction.None? {
        return;
      }
      var value := ongoingTransaction.value;
      ongoingTransaction := None;
      acks := acks + [value.id];
    }

    method HasOngoingPurchase() returns (r: bool)
      ensures r <==> Model().HasOngoingPurchase()
    {
      r := ongoingTransaction.Some?;
    }

    method RefreshReceipt(completion: V)
      modifies this
      ensures Model() == old(Model()).RefreshReceipt(completion)
    {
      if onRefreshReceiptHandler.Some? {
        onRefreshReceiptHandler := Some(completion);
        return;
      }
      onRefreshReceiptHandler := Some(completion);
      requests := requests + [StartReceiptRefresh];
    }

    method RestorePurchase(completion: V)
      modifies this
      ensures Model() == old(Model()).RestorePurchase(completion)
    {
      if onRestoreHandler.Some? {
        onRestoreHandler := Some(completion);
        return;
      }
      onRestoreHandler := Some(completion);
      requests := requests + [RestoreCompletedTransactions];
    }

    method HandleTransaction(t: Transaction)
      modifies this
      ensures Model() == old(Model()).HandleTransaction(t)
    {
      var closure := onPurchaseHandler;
      if closure.None? {
        var previous := ongoingTransaction;
        var previousTransactionDate := if previous.Some? then Date(previous.value) else Epoch;
        if previousTransactionDate < Date(t) {
          ongoingTransaction := Some(t);
          if previous.Some? {
            acks := acks + [previous.value.id];
          }
          if onRestoreHandler.None? {
            fired := fired + [OngoingTransactionNotice];
          }
        } else {
          acks := acks + [t.id];
        }
        return;
      }
      ongoingTransaction := Some(t);
      onPurchaseHandler := None;
      fired := fired + [Completion(closure.value, PurchaseOutcome(t))];
    }

    method ProductsReceived(response: seq<Product>)
      modifies this
      ensures Model() == old(Model()).ProductsReceived(response)
    {
      products := response;
      var handler := onReceiveProductsHandler;
      if handler.None? {
        return;
      }
      onReceiveProductsHandler := None;
      if products == [] {
        fired := fired + [ProductsCompletion(handler.value,
                                             Failure(MakeError(StoreProductNotAvailable, Some(NoProductsReturned))))];
      } else {
        fired := fired + [ProductsCompletion(handler.value, Success(products))];
      }
    }

    method RequestDidFinish()
      modifies this
      ensures Model() == old(Model()).RequestDidFinish()
    {
      var handler := onRefreshReceiptHandler;
      if handler.None? {
        fired := fired + [OngoingTransactionNotice];
        return;
      }
      onRefreshReceiptHandler := None;
      fired := fired + [Completion(handler.value, Success(()))];
    }

    method RequestFailed(error: NSError)
      modifies this
      ensures Model() == old(Model()).RequestFailed(error)
    {
      var productsHandler := onReceiveProductsHandler;
      if productsHandler.None? {
        var refreshReceiptHandler := onRefreshReceiptHandler;
        if refreshReceiptHandler.None? {
          return;
        }
        onRefreshReceiptHandler := None;
        fired := fired + [Completion(refreshReceiptHandler.value, Failure(error))];
        return;
      }
      onReceiveProductsHandler := None;
      fired := fired + [ProductsCompletion(productsHandler.value, Failure(error))];
    }

    method RestoreFinished()
      modifies this
      ensures Model() == old(Model()).RestoreFinished()
    {
      var restoreHandler := onRestoreHandler;
      if restoreHandler.None? {
        return;
      }
      onRestoreHandler := None;
      if ongoingTransaction.None? {
        fired := fired + [Completion(restoreHandler.value, Failure(MakeError(Unknown, Some(NothingToRestore))))];
      } else {
        fired := fired + [Completion(restoreHandler.value, Success(()))];
      }
    }

    method RestoreFailed(error: NSError)
      modifies this
      ensures Model() == old(Model()).RestoreFailed(error)
    {
      var restoreHandler := onRestoreHandler;
      if restoreHandler.None? {
        return;
      }
      onRestoreHandler := None;
      fired := fired + [Completion(restoreHandler.value, Failure(error))];
    }

    method TransactionWasCancelled(t: Transaction)
      modifies this
      ensures Model() == old(Model()).HandleTransaction(t)
    {
      HandleTransaction(t);
    }

    method TransactionFailed(t: Transaction, error: NSError)
      modifies this
      ensures Model() == old(Model()).TransactionFailed(t, error)
    {
      if onPurchaseHandler.Some? {
        fired := fired + [Completion(onPurchaseHandler.value, Failure(error))];
      }
      acks := acks + [t.id];
    }

    method TransactionWasCompletedPurchase(t: Transaction)
      modifies this
      ensures Model() == old(Model()).HandleTransaction(t)
    {
      HandleTransaction(t);
    }

    method TransactionWasCompletedRestore(t: Transaction)
      modifies this
      ensures Model() == old(Model()).TransactionWasCompletedRestore(t)
    {
      var restoreHandler := onRestoreHandler;
      if restoreHandler.None? {
        return;
      }
      fired := fired + [Completion(restoreHandler.value, Success(()))];
      acks := acks + [t.id];
    }

    /** The observer calling its delegate. */
    method Dispatch(e: Obs.ObserverEvent)
      modifies this
      ensures Model() == old(Model()).Dispatch(e)
    {
      match e {
        case RestoreCompletedTransactionsFinished => RestoreFinished();
        case RestoreCompletedTransactionsFailed(error) => RestoreFailed(error);
        case TransactionWasCancelled(t) => TransactionWasCancelled(t);
        case TransactionFailed(t, error) => TransactionFailed(t, error);
        case TransactionWasCompletedPurchase(t) => TransactionWasCompletedPurchase(t);
        case TransactionWasCompletedRestore(t) => TransactionWasCompletedRestore(t);
      }
    }

    /**
     * The queue delivering a batch: the observer finishes what it finishes itself,
     * then calls the delegate for the rest, in order.
     */
    method PaymentQueueUpdated(ts: seq<Transaction>)
      modifies this
      ensures Model() == old(Model()).PaymentQueueUpdated(ts)
    {
      var finished, events := Obs.UpdatedTransactions(ts);
      FinishEach(finished);
      DispatchEach(events);
    }

    /** The observer's `finishTransaction` calls, one at a time. */
    method FinishEach(finished: seq<Transaction>)
      modifies this
      ensures Model() == old(Model()).FinishAll(finished)
    {
      ghost var start := Model();
      for i := 0 to |finished|
        invariant Model() == start.FinishAll(finished[..i])
      {
        assert finished[..i + 1][..i] == finished[..i];
        acks := acks + [finished[i].id];
      }
      assert finished[..|finished|] == finished;
    }

    /** The delegate calls, one at a time. */
    method DispatchEach(events: seq<Obs.ObserverEvent>)
      modifies this
      ensures Model() == old(Model()).DispatchAll(events)
    {
      ghost var start := Model();
      for i := 0 to |events|
        invariant Model() == start.DispatchAll(events[..i])
      {
        assert events[..i + 1][..i] == events[..i];
        Dispatch(events[i]);
      }
      assert events[..|events|] == events;
    }
  }
}
