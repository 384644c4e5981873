/**
 * The Adapter pattern: `BankAPIAdapter` offers the modern `PaymentProcessor`
 * operations on top of a legacy bank API that only knows rupees and its own
 * status codes. The legacy API is a stub: it records the transfer it is
 * asked to make, always reports "COMPLETED" and always reverses.
 */
module Adapter {
  const INR := "INR"
  const INR_PER_UNIT: real := 83.0
  const LEGACY_COMPLETED := "COMPLETED"
  const SUCCESS := "SUCCESS"

  /** The `makeTransaction(fromAccount, toAccount, amt)` call the adapter makes on the legacy API. */
  datatype LegacyTransfer = LegacyTransfer(fromAccount: string, toAccount: string, amt: real)

  /** The adapter: the legacy bank it wraps and the merchant account fixed at construction. */
  datatype BankAPIAdapter = BankAPIAdapter(bankName: string, merchantAccount: string)

  /** `LegacyBankAPI.checkTransactionStatus`: always "COMPLETED". */
  function LegacyStatus(transactionId: string): string
  {
    LEGACY_COMPLETED
  }

  /** `LegacyBankAPI.reverseTransaction`: always succeeds. */
  function LegacyReverse(transactionId: string): bool
  {
    true
  }

  /**
   * The amount in rupees: unchanged for exactly "INR" (the comparison is
   * case-sensitive), otherwise multiplied by 83 whatever the currency.
   */
  function ToInr(amount: real, currency: string): (inr: real)
    ensures currency == INR ==> inr == amount
    ensures currency != INR ==> inr == amount * INR_PER_UNIT
    ensures amount >= 0.0 ==> inr >= amount
  {
    if currency != INR then amount * INR_PER_UNIT else amount
  }

  /**
   * `processPayment(accountId, amount, currency)`: always true; the legacy
   * transfer goes from the customer to the adapter's merchant account, in rupees.
   */
  function ProcessPayment(adapter: BankAPIAdapter, accountId: string, amount: real, currency: string)
    : (r: (bool, LegacyTransfer))
    ensures r.0
    ensures r.1.fromAccount == accountId && r.1.toAccount == adapter.merchantAccount
    ensures r.1.amt == ToInr(amount, currency)
  {
    (true, LegacyTransfer(accountId, adapter.merchantAccount, ToInr(amount, currency)))
  }

  /** The legacy "COMPLETED" becomes "SUCCESS"; every other code passes through. */
  function MapStatus(legacyStatus: string): (status: string)
    ensures legacyStatus == LEGACY_COMPLETED ==> status == SUCCESS
    ensures legacyStatus != LEGACY_COMPLETED ==> status == legacyStatus
    ensures status != LEGACY_COMPLETED
  {
    if legacyStatus == LEGACY_COMPLETED then SUCCESS else legacyStatus
  }

  /** `getTransactionStatus`: since the legacy API always answers "COMPLETED", always "SUCCESS". */
  function GetTransactionStatus(adapter: BankAPIAdapter, transactionId: string): (status: string)
    ensures status == SUCCESS
  {
    MapStatus(LegacyStatus(transactionId))
  }

  /** `refundPayment`: the legacy reversal's answer, which is always true. */
  function RefundPayment(adapter: BankAPIAdapter, transactionId: string): (refunded: bool)
    ensures refunded == LegacyReverse(transactionId)
    ensures refunded
  {
    LegacyReverse(transactionId)
  }

  /** Mapping a mapped status again changes nothing. */
  lemma MapStatusIdempotent(legacyStatus: string)
    ensures MapStatus(MapStatus(legacyStatus)) == MapStatus(legacyStatus)
  {
  }

  /** The conversion demo: 100 USD reaches the legacy bank as 8300; 3000 INR as 3000; a lower-case "inr" is converted. */
  lemma ConversionScenario()
    ensures ProcessPayment(BankAPIAdapter("ICICI Bank", "MERCHANT100"), "INTL987654", 100.0, "USD").1
            == LegacyTransfer("INTL987654", "MERCHANT100", 8300.0)
    ensures ProcessPayment(BankAPIAdapter("HDFC Bank", "MERCHANT789"), "CUST456789", 3000.0, "INR").1
            == LegacyTransfer("CUST456789", "MERCHANT789", 3000.0)
    ensures ToInr(10.0, "inr") == 830.0
  {
    assert "inr" != INR by { assert "inr"[0] != INR[0]; }
  }
}
