/**
 * Interfaces: three payment classes behind one `PaymentMethod` interface,
 * each with its own `validatePayment`, and the `Loggable` prefix that the
 * secure processor puts before every message it logs.
 */
module Interfaces {
  import opened Wrappers
  import Text
  import Logging

  const INDEX_OUT_OF_BOUNDS := "StringIndexOutOfBoundsException"

  /** An implementation of the interface, with its constructor's field. */
  datatype InterfacePayment =
    | CreditCardPayment(cardNumber: string)
    | PayPalPayment(email: string)
    | SecurePaymentProcessor(processorId: string)

  /** `validatePayment()`: a 16-character card number, an e-mail with '@', or always for the secure processor. */
  predicate ValidatePayment(p: InterfacePayment)
    ensures p.SecurePaymentProcessor? ==> ValidatePayment(p)
    ensures ValidatePayment(p) && p.CreditCardPayment? ==> |p.cardNumber| == 16
    ensures ValidatePayment(p) && p.PayPalPayment? ==> |p.email| > 0
  {
    match p
    case CreditCardPayment(cardNumber) => |cardNumber| == 16
    case PayPalPayment(email) => Text.Contains(email, "@")
    case SecurePaymentProcessor(_) => true
  }

  /** PayPal validation is membership of '@' in the e-mail address. */
  lemma PayPalNeedsAt(email: string)
    ensures ValidatePayment(PayPalPayment(email)) <==> '@' in email
  {
    Text.ContainsChar(email, '@');
  }

  /** `Loggable.getLogPrefix()`. */
  function GetLogPrefix(): (prefix: string)
    ensures prefix == Logging.Tag("LOG")
  {
    "[LOG]"
  }

  /** The line `logTransaction(message)` prints: the prefix, a space, the message. */
  function LogLine(message: string): (line: string)
    ensures |line| == |GetLogPrefix()| + 1 + |message|
    ensures line[..|GetLogPrefix()|] == GetLogPrefix() && line[|GetLogPrefix()|] == ' '
    ensures line[|GetLogPrefix()| + 1..] == message
  {
    GetLogPrefix() + " " + message
  }

  /** The card ending `CreditCardPayment.pay` shows: its last four characters; `substring` throws on fewer. */
  function CardEnding(cardNumber: string): (r: Result<string, string>)
    ensures r.Success? <==> |cardNumber| >= 4
    ensures r.Success? ==> |r.value| == 4 && cardNumber == cardNumber[..|cardNumber| - 4] + r.value
  {
    match Text.LastFour(cardNumber)
    case Some(tail) => Success(tail)
    case None => Failure(INDEX_OUT_OF_BOUNDS)
  }

  /** A card number that validates can always be paid with, and shows its last four digits. */
  lemma ValidCardShowsEnding(cardNumber: string)
    requires ValidatePayment(CreditCardPayment(cardNumber))
    ensures CardEnding(cardNumber) == Success(cardNumber[12..])
  {
  }

  /** The demo's three payments all validate. */
  lemma DemoValidations()
    ensures ValidatePayment(CreditCardPayment("1234567890123456"))
    ensures ValidatePayment(PayPalPayment("user@example.com"))
    ensures ValidatePayment(SecurePaymentProcessor("SP-001"))
  {
    Text.ContainsInfix("user", "@", "example.com");
    assert "user" + "@" + "example.com" == "user@example.com";
  }
}
