/**
 * `PaymentService`: the layer that turns the wrapper's answers into receipts for its
 * callers. Its closures are data (`Continuation`): the wrapper stores them in its
 * waiter slots and hands them back when it invokes them, and the service then runs
 * each one. Every path that ends a purchase goes through `finishOngoingTransaction`,
 * which reads the receipt on disk (a parameter here), refreshes it at most once, and
 * finishes the wrapper's ongoing-transaction slot.
 */
module PaymentService {
  import opened Wrappers
  import opened StoreKit
  import opened SKErrors
  import opened StoreKitWrapper
  import Obs = IAPObserver
  import Props = StoreKitWrapperProperties

  const ReceiptNotFound: string := "Receipt not found"

  /** Where a receipt result goes: a caller's completion, or a closure that only logs. */
  datatype Sink = Caller(id: nat) | Discard

  /** The products completion `refreshProducts` passes: it forwards to the caller, when there is one. */
  datatype ProductsSink = ProductsSink(caller: Option<nat>)

  /** The completions without a value that the service hands to the wrapper. */
  datatype Continuation =
    | AfterBuy(caller: nat)            // the purchase completion of `buy`
    | AfterRestore(sink: Sink)         // the restore completion of `restoreTransaction`
    | AfterReceiptRefresh              // the completion of the public `refreshReceipt`
    | RetryAfterRefresh(sink: Sink)    // the refresh completion inside `finishOngoingTransaction`

  type Wrapper = State<ProductsSink, Continuation>

  /** What a caller of the service receives. */
  datatype Delivery =
    | ReceiptResult(caller: nat, result: Result<string, NSError>)
    | ProductsResult(caller: nat, products: Result<seq<Product>, NSError>)

  /** The wrapper together with everything delivered to callers so far, in order. */
  datatype World = World(storeKit: Wrapper, delivered: seq<Delivery>)

  function Deliver(sink: Sink, result: Result<string, NSError>): seq<Delivery> {
    match sink
    case Caller(id) => [ReceiptResult(id, result)]
    case Discard => []
  }

  /** The error a reconciliation without a receipt ends with. */
  function NoReceiptError(): (e: NSError)
    ensures e.code == RawValue(Unknown) && IsSKError(e)
    ensures e.userInfo == map[NSLocalizedDescriptionKey := "Unknown error" + DescriptionSeparator + ReceiptNotFound]
  {
    MakeError(Unknown, Some(ReceiptNotFound))
  }

  // ---------------------------------------------------------------------------
  // finishOngoingTransaction

  /**
   * One reconciliation: with a receipt, finish the slot and succeed with it; without
   * one, either ask for a refresh whose completion retries with refresh disallowed,
   * or finish the slot and fail with "Receipt not found". The result's `delivered`
   * holds only what this call delivers.
   */
  function Reconcile(w: Wrapper, canRefreshReceipt: bool, sink: Sink, receipt: Option<string>): World {
    match receipt
    case Some(r) => World(w.FinishPurchase(), Deliver(sink, Success(r)))
    case None =>
      if canRefreshReceipt then World(w.RefreshReceipt(RetryAfterRefresh(sink)), [])
      else World(w.FinishPurchase(), Deliver(sink, Failure(NoReceiptError())))
  }

  /** `finishOngoingTransaction(canRefreshReceipt:completion:)`, on the wrapper object. */
  method FinishOngoingTransaction(storeKit: StoreKitWrapper<ProductsSink, Continuation>, canRefreshReceipt: bool,
                                  sink: Sink, receipt: Option<string>)
    returns (delivered: seq<Delivery>)
    modifies storeKit
    ensures World(storeKit.Model(), delivered) == Reconcile(old(storeKit.Model()), canRefreshReceipt, sink, receipt)
  {
    if receipt.None? {
      if canRefreshReceipt {
        storeKit.RefreshReceipt(RetryAfterRefresh(sink));
        delivered := [];
      } else {
        storeKit.FinishPurchase();
        delivered := Deliver(sink, Failure(NoReceiptError()));
      }
      return;
    }
    storeKit.FinishPurchase();
    delivered := Deliver(sink, Success(receipt.value));
  }

  // ---------------------------------------------------------------------------
  // Routing

  /** What a continuation does once the wrapper calls it. */
  datatype Action =
    | Reconciles(canRefreshReceipt: bool, sink: Sink)
    | FinishesAndFails(sink: Sink, error: NSError)

  /**
   * The bodies of the service's closures: `buy` reconciles without refresh on
   * success, finishes and fails on a cancellation, and reconciles with refresh on
   * any other failure; `restoreTransaction` reconciles with refresh whatever the
   * result; the public `refreshReceipt` reconciles without refresh for nobody; the
   * retry inside a reconciliation reconciles without refresh, or finishes and fails
   * with the refresh error.
   */
  function Route(c: Continuation, outcome: Result<(), NSError>): Action {
    match c
    case AfterBuy(caller) =>
      (match outcome
       case Success(_) => Reconciles(false, Caller(caller))
       case Failure(e) =>
         if e.code == RawValue(PaymentCancelled) then FinishesAndFails(Caller(caller), e)
         else Reconciles(true, Caller(caller)))
    case AfterRestore(sink) => Reconciles(true, sink)
    case AfterReceiptRefresh => Reconciles(false, Discard)
    case RetryAfterRefresh(sink) =>
      match outcome
      case Success(_) => Reconciles(false, sink)
      case Failure(e) => FinishesAndFails(sink, e)
  }

  /** `handleOngoingTransaction`, the service's ongoing-transaction handler. */
  const OngoingTransactionAction: Action := Reconciles(true, Discard)

  function Act(w: Wrapper, a: Action, receipt: Option<string>): World {
    match a
    case Reconciles(canRefresh, sink) => Reconcile(w, canRefresh, sink, receipt)
    case FinishesAndFails(sink, e) => World(w.FinishPurchase(), Deliver(sink, Failure(e)))
  }

  /** Running one handler the wrapper invoked. */
  function Perform(w: World, f: Fired<ProductsSink, Continuation>, receipt: Option<string>): World {
    match f
    case ProductsCompletion(sink, result) =>
      World(w.storeKit, w.delivered + if sink.caller.Some? then [ProductsResult(sink.caller.value, result)] else [])
    case Completion(c, outcome) =>
      var o := Act(w.storeKit, Route(c, outcome), receipt);
      World(o.storeKit, w.delivered + o.delivered)
    case OngoingTransactionNotice =>
      var o := Act(w.storeKit, OngoingTransactionAction, receipt);
      World(o.storeKit, w.delivered + o.delivered)
  }

  /** `Perform` on the wrapper object. */
  method Continue(storeKit: StoreKitWrapper<ProductsSink, Continuation>, f: Fired<ProductsSink, Continuation>,
                  receipt: Option<string>)
    returns (delivered: seq<Delivery>)
    modifies storeKit
    ensures World(storeKit.Model(), delivered) == Perform(World(old(storeKit.Model()), []), f, receipt)
  {
    match f {
      case ProductsCompletion(sink, result) =>
        delivered := if sink.caller.Some? then [ProductsResult(sink.caller.value, result)] else [];
      case Completion(c, outcome) =>
        var a := Route(c, outcome);
        match a {
          case Reconciles(canRefresh, sink) =>
            delivered := FinishOngoingTransaction(storeKit, canRefresh, sink, receipt);
          case FinishesAndFails(sink, e) =>
            storeKit.FinishPurchase();
            delivered := Deliver(sink, Failure(e));
        }
      case OngoingTransactionNotice =>
        delivered := FinishOngoingTransaction(storeKit, true, Discard, receipt);
    }
  }

  function PerformAll(w: World, fs: seq<Fired<ProductsSink, Continuation>>, receipt: Option<string>): World {
    if fs == [] then w else Perform(PerformAll(w, fs[..|fs| - 1], receipt), fs[|fs| - 1], receipt)
  }

  /** The handlers the wrapper invoked during a step are taken from it and run in order. */
  function Settle(w: World, receipt: Option<string>): World {
    PerformAll(World(w.storeKit.(fired := []), w.delivered), w.storeKit.fired, receipt)
  }

  // ---------------------------------------------------------------------------
  // The service's entry points and the platform's replies

  datatype Call =
    | Buy(productId: string, caller: nat)
    | RestoreTransaction(caller: nat)
    | RefreshReceipt
    | RefreshProducts(identifiers: set<string>, productsCaller: Option<nat>, canMakePayments: bool)
    | CancelTransaction
    | QueueUpdated(transactions: seq<Transaction>)
    | ProductsResponse(response: seq<Product>)
    | RequestFinished
    | RequestFailedWith(error: NSError)
    | RestoreCompleted
    | RestoreFailedWith(error: NSError)

  /** What each call does to the wrapper before any handler runs. */
  function WrapperStep(w: Wrapper, c: Call): Wrapper {
    match c
    case Buy(productId, caller) => w.Purchase(productId, AfterBuy(caller))
    case RestoreTransaction(caller) => w.RestorePurchase(AfterRestore(Caller(caller)))
    case RefreshReceipt => w.RefreshReceipt(AfterReceiptRefresh)
    case RefreshProducts(ids, caller, canPay) => w.RequestProduct(ids, ProductsSink(caller), canPay)
    case CancelTransaction => w.FinishPurchase()
    case QueueUpdated(ts) => w.PaymentQueueUpdated(ts)
    case ProductsResponse(response) => w.ProductsReceived(response)
    case RequestFinished => w.RequestDidFinish()
    case RequestFailedWith(e) => w.RequestFailed(e)
    case RestoreCompleted => w.Dispatch(Obs.ForwardRestoreFinished())
    case RestoreFailedWith(e) => w.Dispatch(Obs.ForwardRestoreFailed(e))
  }

  /** A call, then the handlers it made the wrapper invoke; `receipt` is the receipt on disk meanwhile. */
  function Step(w: World, c: Call, receipt: Option<string>): World {
    Settle(w.(storeKit := WrapperStep(w.storeKit, c)), receipt)
  }

  function Start(): World {
    World(Initial(), [])
  }

  // ---------------------------------------------------------------------------
  // Properties of a reconciliation

  /**
   * With a receipt on disk, a reconciliation asks for no refresh, finishes exactly the
   * slot's occupant and then succeeds with that receipt.
   */
  lemma ReceiptPresentFinishes(w: Wrapper, canRefreshReceipt: bool, sink: Sink, r: string)
    ensures var o := Reconcile(w, canRefreshReceipt, sink, Some(r));
      && o.storeKit.requests == w.requests
      && o.storeKit.onRefreshReceiptHandler == w.onRefreshReceiptHandler
      && o.storeKit.ongoingTransaction.None?
      && o.storeKit.acks == w.acks + Ids(OptionToSeq(w.ongoingTransaction))
      && (sink.Caller? ==> o.delivered == [ReceiptResult(sink.id, Success(r))])
      && (sink.Discard? ==> o.delivered == [])
  {
  }

  /**
   * Without a receipt and with refresh allowed, nothing is finished or delivered yet;
   * the refresh waiter becomes the retry for the same sink, and one refresh is
   * requested unless one is already pending.
   */
  lemma AbsentReceiptRefreshes(w: Wrapper, sink: Sink)
    ensures var o := Reconcile(w, true, sink, None);
      && o.delivered == []
      && o.storeKit.ongoingTransaction == w.ongoingTransaction && o.storeKit.acks == w.acks
      && o.storeKit.onRefreshReceiptHandler == Some(RetryAfterRefresh(sink))
      && o.storeKit.requests == w.requests + (if w.onRefreshReceiptHandler.None? then [StartReceiptRefresh] else [])
  {
  }

  /**
   * Without a receipt and with refresh disallowed, the slot is finished and the sink
   * fails with `unknown` / "Receipt not found".
   */
  lemma AbsentReceiptFails(w: Wrapper, sink: Sink)
    ensures var o := Reconcile(w, false, sink, None);
      && o.storeKit == w.FinishPurchase()
      && (sink.Caller? ==> |o.delivered| == 1 && o.delivered[0].result.Failure? &&
                           o.delivered[0].result.error.code == RawValue(Unknown) &&
                           o.delivered[0].result.error.userInfo[NSLocalizedDescriptionKey] ==
                             "Unknown error. Description: Receipt not found")
  {
    NoReceiptMessage();
  }

  /** The description the missing-receipt error carries, spelled out. */
  lemma NoReceiptMessage()
    ensures NoReceiptError().userInfo[NSLocalizedDescriptionKey] == "Unknown error. Description: Receipt not found"
  {
    NoReceiptText();
  }

  /** The pieces of the missing-receipt description, joined. */
  lemma NoReceiptText()
    ensures "Unknown error" + DescriptionSeparator + ReceiptNotFound == "Unknown error. Description: Receipt not found"
  {
  }

  /**
   * Every reconciliation that ends (a receipt, or no refresh allowed) has finished
   * the slot exactly once, with nothing else changed; one that delivers anything has
   * finished first; one that asks for a refresh has finished nothing and delivered
   * nothing.
   */
  lemma ReconcileEndsWithFinish(w: Wrapper, canRefreshReceipt: bool, sink: Sink, receipt: Option<string>)
    ensures var o := Reconcile(w, canRefreshReceipt, sink, receipt);
      && (receipt.Some? || !canRefreshReceipt ==> o.storeKit == w.FinishPurchase())
      && (o.delivered != [] ==> o.storeKit == w.FinishPurchase())
      && (receipt.None? && canRefreshReceipt ==>
            o.delivered == [] && o.storeKit.acks == w.acks && o.storeKit.ongoingTransaction == w.ongoingTransaction)
  {
  }

  /**
   * The retry a refresh leads to never refreshes again, whatever the refresh outcome
   * and the receipt: it finishes the slot and delivers exactly one result to its sink;
   * a failed refresh delivers the refresh error.
   */
  lemma RetryNeverRefreshes(w: Wrapper, sink: Sink, outcome: Result<(), NSError>, receipt: Option<string>)
    ensures var o := Act(w, Route(RetryAfterRefresh(sink), outcome), receipt);
      && o.storeKit == w.FinishPurchase()
      && o.storeKit.requests == w.requests
      && (sink.Caller? ==> |o.delivered| == 1 && o.delivered[0].caller == sink.id)
      && (outcome.Failure? ==> o.delivered == Deliver(sink, Failure(outcome.error)))
  {
  }

  // ---------------------------------------------------------------------------
  // Properties of the routing

  /**
   * `buy`: a cancellation finishes the slot and fails with the cancellation without
   * reading the receipt; a success reconciles without refresh, so it never asks for
   * one; any other failure reconciles with refresh allowed.
   */
  lemma BuyRouting(w: Wrapper, caller: nat, outcome: Result<(), NSError>, receipt: Option<string>, other: Option<string>)
    ensures outcome.Failure? && outcome.error.code == RawValue(PaymentCancelled) ==>
              && Act(w, Route(AfterBuy(caller), outcome), receipt) == Act(w, Route(AfterBuy(caller), outcome), other)
              && Act(w, Route(AfterBuy(caller), outcome), receipt) ==
                   World(w.FinishPurchase(), [ReceiptResult(caller, Failure(outcome.error))])
    ensures outcome.Success? ==>
              Act(w, Route(AfterBuy(caller), outcome), receipt) == Reconcile(w, false, Caller(caller), receipt) &&
              Act(w, Route(AfterBuy(caller), outcome), receipt).storeKit.requests == w.requests
    ensures outcome.Failure? && outcome.error.code != RawValue(PaymentCancelled) ==>
              Act(w, Route(AfterBuy(caller), outcome), receipt) == Reconcile(w, true, Caller(caller), receipt)
  {
  }

  /** `restoreTransaction` ignores the restore result and always reconciles with refresh allowed. */
  lemma RestoreIgnoresResult(sink: Sink, outcome: Result<(), NSError>, other: Result<(), NSError>)
    ensures Route(AfterRestore(sink), outcome) == Route(AfterRestore(sink), other) == Reconciles(true, sink)
  {
  }

  /**
   * The public `refreshReceipt` and the ongoing-transaction handler deliver nothing to
   * any caller; only the latter may ask for a refresh.
   */
  lemma BackgroundReconciliationsDeliverNothing(w: Wrapper, outcome: Result<(), NSError>, receipt: Option<string>)
    ensures Act(w, Route(AfterReceiptRefresh, outcome), receipt) == World(w.FinishPurchase(), [])
    ensures Act(w, OngoingTransactionAction, receipt).delivered == []
  {
  }

  // ---------------------------------------------------------------------------
  // The service settles every step

  /** Running handlers never invokes new ones. */
  lemma {:induction false} PerformAllKeepsFired(w: World, fs: seq<Fired<ProductsSink, Continuation>>, receipt: Option<string>)
    ensures PerformAll(w, fs, receipt).storeKit.fired == w.storeKit.fired
    ensures |PerformAll(w, fs, receipt).delivered| >= |w.delivered|
    ensures PerformAll(w, fs, receipt).delivered[..|w.delivered|] == w.delivered
  {
    if fs != [] {
      PerformAllKeepsFired(w, fs[..|fs| - 1], receipt);
    }
  }

  /**
   * After every step no invoked handler is left waiting to run, and what callers had
   * received before is kept as it was.
   */
  lemma StepSettles(w: World, c: Call, receipt: Option<string>)
    ensures Step(w, c, receipt).storeKit.fired == []
    ensures |Step(w, c, receipt).delivered| >= |w.delivered|
    ensures Step(w, c, receipt).delivered[..|w.delivered|] == w.delivered
  {
    var next := WrapperStep(w.storeKit, c);
    PerformAllKeepsFired(World(next.(fired := []), w.delivered), next.fired, receipt);
  }

  /** A step that invokes no handler changes the wrapper only, and delivers nothing. */
  lemma QuietStep(w: World, c: Call, receipt: Option<string>)
    requires WrapperStep(w.storeKit, c).fired == []
    ensures Step(w, c, receipt) == World(WrapperStep(w.storeKit, c), w.delivered)
  {
    var next := WrapperStep(w.storeKit, c);
    assert next.(fired := []) == next;
  }

  /** `cancelTransaction` finishes the slot's occupant, if any, and delivers nothing. */
  lemma CancelFinishesSlot(w: World, receipt: Option<string>)
    requires w.storeKit.fired == []
    ensures Step(w, CancelTransaction, receipt).storeKit.ongoingTransaction.None?
    ensures Step(w, CancelTransaction, receipt).storeKit.acks == w.storeKit.acks + Ids(OptionToSeq(w.storeKit.ongoingTransaction))
    ensures Step(w, CancelTransaction, receipt).delivered == w.delivered
  {
    QuietStep(w, CancelTransaction, receipt);
  }

  // ---------------------------------------------------------------------------
  // Whole flows

  lemma PerformOne(w: World, f: Fired<ProductsSink, Continuation>, receipt: Option<string>)
    requires w.storeKit.fired == [f]
    ensures Settle(w, receipt) == Perform(World(w.storeKit.(fired := []), w.delivered), f, receipt)
  {
    var start := World(w.storeKit.(fired := []), w.delivered);
    assert [f][..0] == [];
    assert Settle(w, receipt) == PerformAll(start, [f], receipt);
    assert PerformAll(start, [f], receipt) == Perform(PerformAll(start, [], receipt), f, receipt);
  }

  /**
   * A purchase the user cancels: the payment is enqueued, the queue reports the
   * transaction failed with `paymentCancelled`, and the buyer is told of the
   * cancellation while the transaction is finished and the slot ends empty.
   */
  lemma CancelledPurchase(productId: string, caller: nat, t: Transaction, e: NSError, receipt: Option<string>)
    requires t.productIdentifier == productId && t.state == Failed && t.error == Some(e)
    requires IsSKError(e) && e.code == RawValue(PaymentCancelled)
    ensures var w0 := Start().(storeKit := Start().storeKit.(products := [Product(productId)]));
      var w1 := Step(w0, Buy(productId, caller), receipt);
      var w2 := Step(w1, QueueUpdated([t]), receipt);
      && w1.storeKit.requests == [AddPayment(productId)]
      && w1.storeKit.onPurchaseHandler == Some(AfterBuy(caller))
      && w2.storeKit.ongoingTransaction.None?
      && w2.storeKit.onPurchaseHandler.None?
      && w2.storeKit.acks == [t.id]
      && w2.delivered == [ReceiptResult(caller, Failure(e))]
  {
    var s1 := CancelledBuyStep(productId, caller, receipt);
    var s2 := CancelReachesWaiter(s1, caller, t, e);
    CancelSettles(s2, caller, e, receipt);
  }

  /** The buy step of `CancelledPurchase`: the cached product is paid for and the buyer waits. */
  lemma CancelledBuyStep(productId: string, caller: nat, receipt: Option<string>) returns (s1: Wrapper)
    ensures s1 == Initial().(products := [Product(productId)], onPurchaseHandler := Some(AfterBuy(caller)),
                             requests := [AddPayment(productId)])
    ensures Step(Start().(storeKit := Start().storeKit.(products := [Product(productId)])), Buy(productId, caller), receipt)
            == World(s1, [])
  {
    var w0 := Start().(storeKit := Start().storeKit.(products := [Product(productId)]));
    s1 := Initial().(products := [Product(productId)], onPurchaseHandler := Some(AfterBuy(caller)),
                     requests := [AddPayment(productId)]);
    assert WrapperStep(w0.storeKit, Buy(productId, caller)) == s1;
    QuietStep(w0, Buy(productId, caller), receipt);
  }

  /** A cancelled transaction reaches the waiting buyer and takes the slot. */
  lemma CancelReachesWaiter(s1: Wrapper, caller: nat, t: Transaction, e: NSError) returns (s2: Wrapper)
    requires s1.onPurchaseHandler == Some(AfterBuy(caller)) && s1.fired == []
    requires t.state == Failed && t.error == Some(e) && IsSKError(e) && e.code == RawValue(PaymentCancelled)
    ensures s2 == s1.PaymentQueueUpdated([t])
    ensures s2 == s1.(ongoingTransaction := Some(t), onPurchaseHandler := None,
                      fired := [Completion(AfterBuy(caller), Failure(e))])
  {
    var ev := Obs.TransactionWasCancelled(t);
    assert Obs.StateEvents([t]) == [ev] by {
      assert [t][..0] == [];
    }
    assert Obs.Dispatched([t]) == [ev];
    assert Obs.Finished([t]) == [];
    s2 := s1.PaymentQueueUpdated([t]);
    assert s2 == s1.DispatchAll([]).Dispatch(ev);
  }

  /** The buyer's completion for a cancellation finishes the slot and fails the buyer. */
  lemma CancelSettles(s2: Wrapper, caller: nat, e: NSError, receipt: Option<string>)
    requires s2.fired == [Completion(AfterBuy(caller), Failure(e))] && e.code == RawValue(PaymentCancelled)
    ensures Settle(World(s2, []), receipt) == World(s2.(fired := []).FinishPurchase(), [ReceiptResult(caller, Failure(e))])
  {
    PerformOne(World(s2, []), Completion(AfterBuy(caller), Failure(e)), receipt);
  }

  /**
   * A restore with no receipt on disk: the restore completion reconciles with refresh
   * allowed, which asks for exactly one refresh; when the refresh finishes the retry
   * reconciles with the receipt then on disk and never asks again. The caller gets
   * exactly one result, and the slot has been finished.
   */
  lemma RestoreWithoutReceiptRefreshesOnce(w: World, caller: nat, later: Option<string>)
    requires w.storeKit.fired == [] && w.storeKit.onRestoreHandler.None?
    requires w.storeKit.onRefreshReceiptHandler.None? && w.storeKit.onReceiveProductsHandler.None?
    ensures var w1 := Step(w, RestoreTransaction(caller), None);
      var w2 := Step(w1, RestoreCompleted, None);
      var w3 := Step(w2, RequestFinished, later);
      && w3.storeKit.requests == w.storeKit.requests + [RestoreCompletedTransactions, StartReceiptRefresh]
      && w3.storeKit.onRefreshReceiptHandler.None? && w3.storeKit.onRestoreHandler.None?
      && w3.storeKit.ongoingTransaction.None?
      && w3.delivered == w.delivered + [ReceiptResult(caller, if later.Some? then Success(later.value)
                                                              else Failure(NoReceiptError()))]
  {
    var w1 := RestoreRegisters(w, caller);
    var w2 := RestoreEndsInRefresh(w1, caller);
    RefreshEndsInRetry(w2, caller, later);
  }

  lemma RestoreRegisters(w: World, caller: nat) returns (w1: World)
    requires w.storeKit.fired == [] && w.storeKit.onRestoreHandler.None?
    ensures w1 == Step(w, RestoreTransaction(caller), None)
    ensures w1 == World(w.storeKit.(onRestoreHandler := Some(AfterRestore(Caller(caller))),
                                    requests := w.storeKit.requests + [RestoreCompletedTransactions]), w.delivered)
  {
    w1 := Step(w, RestoreTransaction(caller), None);
    QuietStep(w, RestoreTransaction(caller), None);
  }

  lemma RestoreEndsInRefresh(w1: World, caller: nat) returns (w2: World)
    requires w1.storeKit.fired == [] && w1.storeKit.onRestoreHandler == Some(AfterRestore(Caller(caller)))
    requires w1.storeKit.onRefreshReceiptHandler.None?
    ensures w2 == Step(w1, RestoreCompleted, None)
    ensures w2 == World(w1.storeKit.(onRestoreHandler := None,
                                     onRefreshReceiptHandler := Some(RetryAfterRefresh(Caller(caller))),
                                     requests := w1.storeKit.requests + [StartReceiptRefresh]), w1.delivered)
  {
    w2 := Step(w1, RestoreCompleted, None);
    var s2 := w1.storeKit.RestoreFinished();
    var outcome := if w1.storeKit.ongoingTransaction.None? then Failure(MakeError(Unknown, Some(NothingToRestore)))
                   else Success(());
    var f2 := Completion(AfterRestore(Caller(caller)), outcome);
    assert s2 == w1.storeKit.(onRestoreHandler := None, fired := [f2]);
    assert WrapperStep(w1.storeKit, RestoreCompleted) == s2 by {
      assert Obs.ForwardRestoreFinished() == Obs.RestoreCompletedTransactionsFinished;
    }
    assert w2 == Settle(w1.(storeKit := s2), None);
    PerformOne(w1.(storeKit := s2), f2, None);
    var cleared := w1.storeKit.(onRestoreHandler := None);
    assert s2.(fired := []) == cleared;
    assert Route(AfterRestore(Caller(caller)), outcome) == Reconciles(true, Caller(caller));
    assert Act(cleared, Reconciles(true, Caller(caller)), None) ==
           World(cleared.RefreshReceipt(RetryAfterRefresh(Caller(caller))), []);
  }

  lemma RefreshEndsInRetry(w2: World, caller: nat, later: Option<string>)
    requires w2.storeKit.fired == [] && w2.storeKit.onRefreshReceiptHandler == Some(RetryAfterRefresh(Caller(caller)))
    ensures var w3 := Step(w2, RequestFinished, later);
      && w3.storeKit == w2.storeKit.(onRefreshReceiptHandler := None).FinishPurchase()
      && w3.delivered == w2.delivered + [ReceiptResult(caller, if later.Some? then Success(later.value) else Failure(NoReceiptError()))]
  {
    var s3 := w2.storeKit.RequestDidFinish();
    var f3 := Completion(RetryAfterRefresh(Caller(caller)), Success(()));
    var cleared := w2.storeKit.(onRefreshReceiptHandler := None);
    assert s3 == cleared.(fired := [f3]);
    PerformOne(w2.(storeKit := s3), f3, later);
    assert s3.(fired := []) == cleared;
    assert Route(RetryAfterRefresh(Caller(caller)), Success(())) == Reconciles(false, Caller(caller));
    var result := if later.Some? then Success(later.value) else Failure(NoReceiptError());
    assert Reconcile(cleared, false, Caller(caller), later) == World(cleared.FinishPurchase(), [ReceiptResult(caller, result)]);
  }

  /**
   * Buying an identifier that is not among the cached products: the wrapper fails
   * with "product not available", which is not a cancellation, so `buy` reconciles
   * with refresh allowed. With a receipt on disk the slot's occupant is finished and
   * the buyer is told of success, carrying that receipt.
   */
  lemma UnknownProductReconciles(w: World, productId: string, caller: nat, r: string)
    requires w.storeKit.fired == [] && w.storeKit.onPurchaseHandler.None?
    requires forall k :: 0 <= k < |w.storeKit.products| ==> w.storeKit.products[k].productIdentifier != productId
    ensures var w1 := Step(w, Buy(productId, caller), Some(r));
      && w1.storeKit == w.storeKit.FinishPurchase()
      && w1.delivered == w.delivered + [ReceiptResult(caller, Success(r))]
  {
    var s1 := WrapperStep(w.storeKit, Buy(productId, caller));
    var e := MakeError(StoreProductNotAvailable, Some("product with identifier: " + productId + ProductNotFound));
    var f := Completion(AfterBuy(caller), Failure(e));
    assert FirstProduct(w.storeKit.products, productId).None?;
    assert s1 == w.storeKit.(fired := [f]);
    assert e.code != RawValue(PaymentCancelled);
    assert Route(AfterBuy(caller), Failure(e)) == Reconciles(true, Caller(caller));
    PerformOne(w.(storeKit := s1), f, Some(r));
    assert s1.(fired := []) == w.storeKit;
  }

  /**
   * The platform reports every finished request, products requests included; with no
   * refresh pending that raises the ongoing-transaction handler, which, with a
   * receipt on disk, finishes the slot's occupant.
   */
  lemma FinishedRequestReconciles(w: World, r: string)
    requires w.storeKit.fired == [] && w.storeKit.onRefreshReceiptHandler.None?
    ensures Step(w, RequestFinished, Some(r)) == World(w.storeKit.FinishPurchase(), w.delivered)
  {
    PerformOne(w.(storeKit := w.storeKit.RequestDidFinish()), OngoingTransactionNotice, Some(r));
  }

  // ---------------------------------------------------------------------------
  // No transaction is finished twice, across the service's calls

  /** The identifiers of the transactions a call acts on: those a queue update handles, and none otherwise. */
  function DeliveredIds(c: Call): set<nat> {
    if c.QueueUpdated? then Props.IdSet(Obs.Handled(c.transactions)) else {}
  }

  /** What a call does to the wrapper keeps the finishing history sound. */
  lemma WrapperStepAcksOnce(w: Wrapper, c: Call, seen: set<nat>)
    requires Props.AckedOnce(w, seen)
    requires c.QueueUpdated? ==> Props.FreshBatch(seen, Obs.Handled(c.transactions))
    ensures Props.AckedOnce(WrapperStep(w, c), seen + DeliveredIds(c))
  {
    assert seen + {} == seen;
    match c
    case QueueUpdated(ts) => Props.PaymentQueueUpdatedAcksOnce(w, seen, ts);
    case CancelTransaction => Props.FinishPurchaseAcksOnce(w, seen);
    case RestoreCompleted => Props.DispatchAcksOnce(w, seen, Obs.ForwardRestoreFinished());
    case RestoreFailedWith(e) => Props.DispatchAcksOnce(w, seen, Obs.ForwardRestoreFailed(e));
    case _ =>
  }

  /** Running one invoked handler finishes at most the occupant, which was not finished before. */
  lemma PerformAcksOnce(w: World, f: Fired<ProductsSink, Continuation>, receipt: Option<string>, seen: set<nat>)
    requires Props.AckedOnce(w.storeKit, seen)
    ensures Props.AckedOnce(Perform(w, f, receipt).storeKit, seen)
  {
    Props.FinishPurchaseAcksOnce(w.storeKit, seen);
  }

  lemma {:induction false} PerformAllAcksOnce(w: World, fs: seq<Fired<ProductsSink, Continuation>>,
                                              receipt: Option<string>, seen: set<nat>)
    requires Props.AckedOnce(w.storeKit, seen)
    ensures Props.AckedOnce(PerformAll(w, fs, receipt).storeKit, seen)
  {
    if fs != [] {
      PerformAllAcksOnce(w, fs[..|fs| - 1], receipt, seen);
      PerformAcksOnce(PerformAll(w, fs[..|fs| - 1], receipt), fs[|fs| - 1], receipt, seen);
    }
  }

  /**
   * One call of the service or reply of the platform, with the handlers it invokes,
   * finishes no transaction twice, provided the transactions a queue update acts on
   * are new and distinct.
   */
  lemma StepAcksOnce(w: World, c: Call, receipt: Option<string>, seen: set<nat>)
    requires Props.AckedOnce(w.storeKit, seen)
    requires c.QueueUpdated? ==> Props.FreshBatch(seen, Obs.Handled(c.transactions))
    ensures Props.AckedOnce(Step(w, c, receipt).storeKit, seen + DeliveredIds(c))
  {
    var next := WrapperStep(w.storeKit, c);
    WrapperStepAcksOnce(w.storeKit, c, seen);
    PerformAllAcksOnce(World(next.(fired := []), w.delivered), next.fired, receipt, seen + DeliveredIds(c));
  }

  /** A call together with the receipt on disk while it runs. */
  datatype Turn = Turn(call: Call, receipt: Option<string>)

  /** The world after a sequence of turns, in order. */
  function Run(w: World, turns: seq<Turn>): World {
    if turns == [] then w
    else Step(Run(w, turns[..|turns| - 1]), turns[|turns| - 1].call, turns[|turns| - 1].receipt)
  }

  /** The identifiers the turns deliver. */
  function RunIds(turns: seq<Turn>): set<nat> {
    if turns == [] then {} else RunIds(turns[..|turns| - 1]) + DeliveredIds(turns[|turns| - 1].call)
  }

  /**
   * The condition over a whole run: each queue update acts only on transactions no
   * earlier update acted on. Reports of undecided transactions do not count, so the
   * usual `purchasing` then `purchased` sequence meets it (`PurchaseFlowIsFresh`).
   */
  predicate FreshRun(seen: set<nat>, turns: seq<Turn>) {
    turns == [] ||
    (FreshRun(seen, turns[..|turns| - 1]) &&
     (turns[|turns| - 1].call.QueueUpdated? ==>
        Props.FreshBatch(seen + RunIds(turns[..|turns| - 1]), Obs.Handled(turns[|turns| - 1].call.transactions))))
  }

  /** A whole run keeps the finishing history sound. */
  lemma {:induction false} RunAcksOnce(w: World, turns: seq<Turn>, seen: set<nat>)
    requires Props.AckedOnce(w.storeKit, seen) && FreshRun(seen, turns)
    ensures Props.AckedOnce(Run(w, turns).storeKit, seen + RunIds(turns))
  {
    if turns != [] {
      var n := |turns|;
      RunAcksOnce(w, turns[..n - 1], seen);
      StepAcksOnce(Run(w, turns[..n - 1]), turns[n - 1].call, turns[n - 1].receipt, seen + RunIds(turns[..n - 1]));
      assert seen + RunIds(turns[..n - 1]) + DeliveredIds(turns[n - 1].call) == seen + RunIds(turns);
    }
  }

  /**
   * From a fresh service, any run in which no two queue updates act on the same
   * transaction finishes no transaction twice, and finishes only transactions an
   * update acted on.
   */
  lemma RunFromStartAcksOnce(turns: seq<Turn>)
    requires FreshRun({}, turns)
    ensures Props.NoDuplicates(Run(Start(), turns).storeKit.acks)
    ensures forall i :: 0 <= i < |Run(Start(), turns).storeKit.acks| ==>
              Run(Start(), turns).storeKit.acks[i] in RunIds(turns)
  {
    RunAcksOnce(Start(), turns, {});
    assert {} + RunIds(turns) == RunIds(turns);
  }

  /**
   * A purchase reported first as `purchasing` and then as `purchased`, with the same
   * identifier, in two queue updates, meets the run condition.
   */
  lemma PurchaseFlowIsFresh(tp: Transaction, tq: Transaction, r1: Option<string>, r2: Option<string>)
    requires tp.id == tq.id && tp.state == Purchasing && tq.state == Purchased
    ensures FreshRun({}, [Turn(QueueUpdated([tp]), r1), Turn(QueueUpdated([tq]), r2)])
  {
    var turns := [Turn(QueueUpdated([tp]), r1), Turn(QueueUpdated([tq]), r2)];
    var first := turns[..1];
    assert first[..0] == [];
    assert Obs.Handled([tp]) == [] by {
      assert [tp][..0] == [];
    }
    assert RunIds(first) == {} by {
      assert RunIds(first[..0]) == {};
    }
    assert Obs.Handled([tq]) == [tq] by {
      assert [tq][..0] == [];
    }
    assert turns[..|turns| - 1] == first;
    assert first[|first| - 1].call.transactions == [tp];
    assert FreshRun({}, first[..0]);
    assert Props.FreshBatch({}, Obs.Handled([tp]));
    assert FreshRun({}, first);
    assert Props.FreshBatch({} + RunIds(first), [tq]);
  }
}
