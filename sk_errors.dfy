/**
 * How the wrapper builds its own `SKError`s: a fixed message table for four codes,
 * the message optionally followed by a caller's description, stored under the
 * localized-description key of an error in StoreKit's domain.
 */
module SKErrors {
  import opened Wrappers
  import opened StoreKit

  /** The value of Foundation's `NSLocalizedDescriptionKey`. */
  const NSLocalizedDescriptionKey: string := "NSLocalizedDescription"

  /** What stands between the table message and a caller's description. */
  const DescriptionSeparator: string := ". Description: "

  /** The codes the message table has an entry for. */
  predicate InTable(code: Code) {
    code == Unknown || code == PaymentCancelled || code == PaymentNotAllowed || code == StoreProductNotAvailable
  }

  /** The message table; it is never modified. */
  function Message(code: Code): Option<string> {
    match code
    case Unknown => Some("Unknown error")
    case PaymentCancelled => Some("Payment cancelled")
    case PaymentNotAllowed => Some("Payment not allowed")
    case StoreProductNotAvailable => Some("Products not available")
    case _ => None
  }

  /** The table has an entry for exactly the four codes of `InTable`. */
  lemma MessageTableKeys(code: Code)
    ensures Message(code).Some? <==> InTable(code)
  {
  }

  /** The four table messages are pairwise different. */
  lemma MessagesDistinct(c: Code, d: Code)
    requires InTable(c) && InTable(d) && c != d
    ensures Message(c) != Message(d)
  {
    assert "Unknown error"[0] == 'U' && "Payment cancelled"[8] == 'c' && "Payment not allowed"[8] == 'n';
    assert "Products not available"[1] == 'r' && "Payment cancelled"[1] == 'a';
  }

  /**
   * `infoDescription(code:description:)`: the table message, followed by the
   * separator and the description when one is given; nothing for a code the table
   * lacks, whatever the description.
   */
  function InfoDescription(code: Code, description: Option<string>): (r: Option<string>)
    ensures r.Some? <==> InTable(code)
    ensures r.Some? ==> Message(code).value <= r.value
    ensures description.None? ==> r == Message(code)
    ensures r.Some? && description.Some? ==>
              r.value == Message(code).value + DescriptionSeparator + description.value
  {
    match Message(code)
    case Some(info) =>
      (match description
       case Some(d) => Some(info + DescriptionSeparator + d)
       case None => Some(info))
    case None => None
  }

  /**
   * Reads back the caller's description from a text `InfoDescription` produced for
   * `code`: what follows the table message and the separator when the text starts
   * with both, and nothing otherwise.
   */
  function DescriptionOf(code: Code, text: string): Option<string>
    requires InTable(code)
  {
    var prefix := Message(code).value + DescriptionSeparator;
    if prefix <= text then Some(text[|prefix|..]) else None
  }

  /** The description is recoverable from the text: `InfoDescription` loses nothing. */
  lemma {:induction false} InfoDescriptionRoundTrip(code: Code, description: Option<string>)
    requires InTable(code)
    ensures DescriptionOf(code, InfoDescription(code, description).value) == description
  {
    var info := Message(code).value;
    var prefix := info + DescriptionSeparator;
    match description
    case None =>
      assert |InfoDescription(code, description).value| == |info| < |prefix|;
    case Some(d) =>
      var text := prefix + d;
      assert InfoDescription(code, description).value == text;
      assert prefix <= text && text[|prefix|..] == d;
  }

  /**
   * `userInfo(code:description:)`: a one-entry dictionary under the localized
   * description key exactly when `InfoDescription` has a text, and nothing otherwise.
   */
  function UserInfo(code: Code, description: Option<string>): (r: Option<map<string, string>>)
    ensures r.Some? <==> InfoDescription(code, description).Some?
    ensures r.Some? ==> r.value.Keys == {NSLocalizedDescriptionKey}
    ensures r.Some? ==> r.value[NSLocalizedDescriptionKey] == InfoDescription(code, description).value
  {
    match InfoDescription(code, description)
    case Some(info) => Some(map[NSLocalizedDescriptionKey := info])
    case None => None
  }

  /**
   * `error(code:description:)`: an error of StoreKit's domain whose numeric code is
   * the code's raw value. A missing `userInfo` reads as the empty dictionary, as
   * `NSError` reports it.
   */
  function MakeError(code: Code, description: Option<string> := None): (e: NSError)
    ensures IsSKError(e)
    ensures e.code == RawValue(code)
    ensures e.userInfo.Keys == if InTable(code) then {NSLocalizedDescriptionKey} else {}
    ensures InTable(code) ==> e.userInfo[NSLocalizedDescriptionKey] == InfoDescription(code, description).value
  {
    NSError(SKErrorDomain, RawValue(code), UserInfo(code, description).GetOr(map[]))
  }
}
