/**
 * The Strategy pattern: a `PaymentContext` holds one replaceable payment
 * strategy and delegates each payment to it. The strategies only mask the
 * account they print and answer true; the masking is where they can throw.
 */
module Strategy {
  import opened Wrappers
  import Text

  const NULL_POINTER := "NullPointerException"
  const INDEX_OUT_OF_BOUNDS := "StringIndexOutOfBoundsException"

  /** A payment strategy with the fields its constructor received. */
  datatype PaymentStrategy =
    | UpiPayment(upiId: Option<string>)
    | CardPayment(cardNumber: Option<string>, cardHolderName: Option<string>, cvv: Option<string>, expiryDate: Option<string>)
    | NetBankingPayment(bankName: Option<string>, accountNumber: Option<string>, ifscCode: Option<string>)

  /** `getPaymentMethodName()`. */
  function PaymentMethodName(s: PaymentStrategy): (name: string)
    ensures name in {"UPI", "Credit/Debit Card", "Net Banking"}
  {
    match s
    case UpiPayment(_) => "UPI"
    case CardPayment(_, _, _, _) => "Credit/Debit Card"
    case NetBankingPayment(_, _, _) => "Net Banking"
  }

  /** The last four characters behind a fixed mask, or the exception `substring` throws on `null` or on fewer than four. */
  function MaskLastFour(mask: string, number: Option<string>): (r: Result<string, string>)
    ensures number.None? ==> r == Failure(NULL_POINTER)
    ensures number.Some? && |number.value| < 4 ==> r == Failure(INDEX_OUT_OF_BOUNDS)
    ensures number.Some? && |number.value| >= 4 ==>
      r.Success? && |r.value| == |mask| + 4 && r.value[..|mask|] == mask
      && number.value == number.value[..|number.value| - 4] + r.value[|mask|..]
  {
    if number.None? then Failure(NULL_POINTER)
    else match Text.LastFour(number.value)
      case None => Failure(INDEX_OUT_OF_BOUNDS)
      case Some(tail) => Success(mask + tail)
  }

  /** The card shown as "**** **** **** " and its last four digits. */
  function MaskedCard(cardNumber: Option<string>): (r: Result<string, string>)
    ensures r.Success? <==> cardNumber.Some? && |cardNumber.value| >= 4
    ensures r.Success? ==> r.value == "**** **** **** " + cardNumber.value[|cardNumber.value| - 4..]
  {
    MaskLastFour("**** **** **** ", cardNumber)
  }

  /** The account shown as "XXXX" and its last four digits. */
  function MaskedAccount(accountNumber: Option<string>): (r: Result<string, string>)
    ensures r.Success? <==> accountNumber.Some? && |accountNumber.value| >= 4
    ensures r.Success? ==> r.value == "XXXX" + accountNumber.value[|accountNumber.value| - 4..]
  {
    MaskLastFour("XXXX", accountNumber)
  }

  /** The CVV check `CardPayment.pay` prints: non-null with three characters. */
  predicate CvvValid(cvv: Option<string>)
    ensures CvvValid(cvv) ==> cvv.Some? && |cvv.value| == 3
    ensures cvv.None? ==> !CvvValid(cvv)
  {
    cvv.Some? && |cvv.value| == 3
  }

  /**
   * `pay(amount)`: true, unless masking the card or account throws. The CVV
   * check only changes a printed line, so it does not enter the result.
   */
  function Pay(s: PaymentStrategy, amount: real): (r: Result<bool, string>)
    ensures r.Success? ==> r.value
    ensures s.UpiPayment? ==> r == Success(true)
    ensures s.CardPayment? ==> (r.Success? <==> MaskedCard(s.cardNumber).Success?)
    ensures s.NetBankingPayment? ==> (r.Success? <==> MaskedAccount(s.accountNumber).Success?)
  {
    match s
    case UpiPayment(_) => Success(true)
    case CardPayment(cardNumber, _, _, _) =>
      (match MaskedCard(cardNumber)
       case Failure(e) => Failure(e)
       case Success(_) => Success(true))
    case NetBankingPayment(_, accountNumber, _) =>
      (match MaskedAccount(accountNumber)
       case Failure(e) => Failure(e)
       case Success(_) => Success(true))
  }

  /** A card payment succeeds whatever its amount and whatever its CVV, valid or not. */
  lemma CardPayIgnoresCvvAndAmount(cardNumber: Option<string>, holder: Option<string>, expiry: Option<string>,
                                   cvv1: Option<string>, cvv2: Option<string>, amount1: real, amount2: real)
    requires cardNumber.Some? && |cardNumber.value| >= 4
    ensures Pay(CardPayment(cardNumber, holder, cvv1, expiry), amount1) == Success(true)
    ensures Pay(CardPayment(cardNumber, holder, cvv1, expiry), amount1)
         == Pay(CardPayment(cardNumber, holder, cvv2, expiry), amount2)
  {
  }

  /** `PaymentContext`. */
  class PaymentContext {
    var paymentStrategy: Option<PaymentStrategy>

    constructor(paymentStrategy: Option<PaymentStrategy>)
      ensures this.paymentStrategy == paymentStrategy
    {
      this.paymentStrategy := paymentStrategy;
    }

    /**
     * `setPaymentStrategy`: the slot is replaced first; a `null` strategy
     * then throws when its name is read for the message.
     */
    method SetPaymentStrategy(paymentStrategy: Option<PaymentStrategy>) returns (r: Result<(), string>)
      modifies this
      ensures this.paymentStrategy == paymentStrategy
      ensures r.Failure? <==> paymentStrategy.None?
      ensures r.Failure? ==> r.error == NULL_POINTER
    {
      this.paymentStrategy := paymentStrategy;
      if paymentStrategy.None? {
        return Failure(NULL_POINTER);
      }
      r := Success(());
    }

    /** `executePayment(amount)`: false without a strategy, otherwise exactly what the strategy's `pay` gives. */
    method ExecutePayment(amount: real) returns (r: Result<bool, string>)
      ensures paymentStrategy.None? ==> r == Success(false)
      ensures paymentStrategy.Some? ==> r == Pay(paymentStrategy.value, amount)
      ensures r == Success(true) ==> paymentStrategy.Some?
    {
      if paymentStrategy.None? {
        return Success(false);
      }
      r := Pay(paymentStrategy.value, amount);
    }

    /** `getCurrentPaymentMethod()`: the strategy's name, or "None" when the slot is empty. */
    function GetCurrentPaymentMethod(): (name: string)
      reads this
      ensures paymentStrategy.None? ==> name == "None"
      ensures paymentStrategy.Some? ==> name == PaymentMethodName(paymentStrategy.value)
    {
      if paymentStrategy.None? then "None" else PaymentMethodName(paymentStrategy.value)
    }
  }

  /** Switching strategies at run time: each payment goes to the strategy set last, and each succeeds. */
  method SwitchingScenario() returns (ctx: PaymentContext, results: seq<Result<bool, string>>)
    ensures results == [Success(true), Success(true), Success(true), Success(true), Success(true)]
    ensures ctx.GetCurrentPaymentMethod() == "Credit/Debit Card"
  {
    ctx := new PaymentContext(Some(UpiPayment(Some("customer@paytm"))));
    var r1 := ctx.ExecutePayment(1500.0);
    var s := ctx.SetPaymentStrategy(Some(CardPayment(Some("1234567812345678"), Some("John Doe"), Some("123"), Some("12/25"))));
    var r2 := ctx.ExecutePayment(2500.0);
    s := ctx.SetPaymentStrategy(Some(NetBankingPayment(Some("HDFC Bank"), Some("123456789012"), Some("HDFC0001234"))));
    var r3 := ctx.ExecutePayment(5000.0);
    s := ctx.SetPaymentStrategy(Some(UpiPayment(Some("merchant@gpay"))));
    var r4 := ctx.ExecutePayment(500.0);
    s := ctx.SetPaymentStrategy(Some(CardPayment(Some("9876543298765432"), Some("Jane Smith"), Some("456"), Some("06/26"))));
    var r5 := ctx.ExecutePayment(750.0);
    results := [r1, r2, r3, r4, r5];
  }

  /** An empty slot refuses to pay and reports "None". */
  method EmptyContextScenario() returns (ctx: PaymentContext, r: Result<bool, string>)
    ensures r == Success(false) && ctx.GetCurrentPaymentMethod() == "None"
  {
    ctx := new PaymentContext(None);
    r := ctx.ExecutePayment(100.0);
  }
}
