/**
 * The StoreKit platform values the wrapper observes and produces. The core never
 * constructs a transaction; it receives them from the payment queue.
 */
module StoreKit {
  import opened Wrappers

  /** `SKPaymentTransactionState`. */
  datatype TransactionState = Purchasing | Purchased | Failed | Restored | Deferred

  /**
   * An error as Foundation's `NSError` carries it: a domain, a numeric code and the
   * `userInfo` dictionary (only string values occur here).
   */
  datatype NSError = NSError(domain: string, code: int, userInfo: map<string, string>)

  const SKErrorDomain: string := "SKErrorDomain"

  /** `error as? SKError` succeeds exactly for errors of StoreKit's domain. */
  predicate IsSKError(e: NSError) {
    e.domain == SKErrorDomain
  }

  /**
   * `SKPaymentTransaction`: the queue's identity for the transaction, the product it
   * pays for, the optional `transactionDate` (seconds since 1970), its state and its
   * optional error.
   */
  datatype Transaction = Transaction(
    id: nat,
    productIdentifier: string,
    transactionDate: Option<int>,
    state: TransactionState,
    error: Option<NSError>)

  /** `SKProduct`, of which the wrapper only uses the identifier. */
  datatype Product = Product(productIdentifier: string)

  /** `SKError.Code`. */
  datatype Code =
    | Unknown
    | ClientInvalid
    | PaymentCancelled
    | PaymentInvalid
    | PaymentNotAllowed
    | StoreProductNotAvailable
    | CloudServicePermissionDenied
    | CloudServiceNetworkConnectionFailed
    | CloudServiceRevoked
    | PrivacyAcknowledgementRequired
    | UnauthorizedRequestData
    | InvalidOfferIdentifier
    | InvalidSignature
    | MissingOfferParams
    | InvalidOfferPrice
    | OverlayCancelled
    | OverlayInvalidConfiguration
    | OverlayTimeout
    | IneligibleForOffer
    | UnsupportedPlatform
    | OverlayPresentedInBackgroundScene

  /** `SKError.Code.rawValue`. */
  function RawValue(c: Code): (n: nat)
    ensures n <= 20
  {
    match c
    case Unknown => 0
    case ClientInvalid => 1
    case PaymentCancelled => 2
    case PaymentInvalid => 3
    case PaymentNotAllowed => 4
    case StoreProductNotAvailable => 5
    case CloudServicePermissionDenied => 6
    case CloudServiceNetworkConnectionFailed => 7
    case CloudServiceRevoked => 8
    case PrivacyAcknowledgementRequired => 9
    case UnauthorizedRequestData => 10
    case InvalidOfferIdentifier => 11
    case InvalidSignature => 12
    case MissingOfferParams => 13
    case InvalidOfferPrice => 14
    case OverlayCancelled => 15
    case OverlayInvalidConfiguration => 16
    case OverlayTimeout => 17
    case IneligibleForOffer => 18
    case UnsupportedPlatform => 19
    case OverlayPresentedInBackgroundScene => 20
  }

  /** Distinct codes have distinct raw values, so an error's numeric code names its case. */
  lemma RawValueInjective(c: Code, d: Code)
    requires RawValue(c) == RawValue(d)
    ensures c == d
  {
  }
}
