/**
 * The Factory pattern: `PaymentMethodFactory.createPaymentMethod` picks a
 * product from an upper-cased type name and fills it from a details map;
 * the four products validate their details, charge a fixed fee rate and
 * report a payment result. The wallet's balance is the one piece of state a
 * product changes, so the wallet is also a class.
 *
 * A `get` on a details map answers `null` for a missing key; a `null`
 * argument or field is `None` here, and a Java exception is a `Failure`
 * carrying the exception's name.
 */
module Factory {
  import opened Wrappers
  import opened Numbers
  import Text

  const NULL_POINTER := "NullPointerException"
  const INDEX_OUT_OF_BOUNDS := "StringIndexOutOfBoundsException"
  const NUMBER_FORMAT := "NumberFormatException"

  const CARD_FEE_RATE: real := 0.02
  const NET_BANKING_FEE_RATE: real := 0.01
  const WALLET_FEE_RATE: real := 0.005

  /** A product of the factory, holding the fields its constructor received. */
  datatype PaymentMethod =
    | Upi(upiId: Option<string>)
    | Card(cardNumber: Option<string>, cardHolderName: Option<string>, expiryDate: Option<string>, cvv: Option<string>)
    | NetBanking(bankName: Option<string>, accountNumber: Option<string>, ifscCode: Option<string>)
    | Wallet(walletProvider: Option<string>, phoneNumber: Option<string>, walletBalance: real)

  /** A string field that is non-null and has exactly `n` characters. */
  predicate HasLength(s: Option<string>, n: nat)
  {
    s.Some? && |s.value| == n
  }

  /** A string field that is non-null and non-empty. */
  predicate NonEmpty(s: Option<string>)
  {
    s.Some? && s.value != ""
  }

  /** `validate()` of each product. Card expiry and holder name, and the account number, are never checked. */
  predicate Validate(m: PaymentMethod)
    ensures Validate(m) && m.Upi? ==> m.upiId.Some? && |m.upiId.value| > 0
    ensures Validate(m) && m.Card? ==> m.cardNumber.Some? && MaskCard(m.cardNumber.value).Some?
    ensures Validate(m) && m.NetBanking? ==> m.bankName.Some? && m.ifscCode.Some? && |m.ifscCode.value| == 11
    ensures Validate(m) && m.Wallet? ==> m.walletProvider.Some? && m.phoneNumber.Some? && |m.phoneNumber.value| == 10
  {
    match m
    case Upi(upiId) => upiId.Some? && Text.Contains(upiId.value, "@")
    case Card(cardNumber, _, _, cvv) => HasLength(cardNumber, 16) && HasLength(cvv, 3)
    case NetBanking(bankName, _, ifscCode) => NonEmpty(bankName) && HasLength(ifscCode, 11)
    case Wallet(walletProvider, phoneNumber, _) => NonEmpty(walletProvider) && HasLength(phoneNumber, 10)
  }

  /**
   * What each `validate()` looks at: the '@' of a UPI id; for cards only the
   * number and the CVV, never the holder or the expiry date; for net banking
   * never the account number; for wallets never the balance.
   */
  lemma ValidationRules(m: PaymentMethod, other: Option<string>, balance: real)
    ensures m.Upi? ==> (Validate(m) <==> m.upiId.Some? && '@' in m.upiId.value)
    ensures m.Card? ==> Validate(m) == Validate(m.(cardHolderName := other, expiryDate := other))
    ensures m.Card? && !HasLength(m.cardNumber, 16) ==> !Validate(m)
    ensures m.NetBanking? ==> Validate(m) == Validate(m.(accountNumber := other))
    ensures m.Wallet? ==> Validate(m) == Validate(m.(walletBalance := balance))
  {
    if m.Upi? && m.upiId.Some? {
      Text.ContainsChar(m.upiId.value, '@');
    }
  }

  /** `getPaymentType()`. */
  function PaymentType(m: PaymentMethod): (name: string)
    ensures name in {"UPI", "CARD", "NET_BANKING", "WALLET"}
  {
    match m
    case Upi(_) => "UPI"
    case Card(_, _, _, _) => "CARD"
    case NetBanking(_, _, _) => "NET_BANKING"
    case Wallet(_, _, _) => "WALLET"
  }

  /** `getTransactionFee(amount)`: nothing for UPI, 2% by card, 1% by net banking, 0.5% from a wallet. */
  function TransactionFee(m: PaymentMethod, amount: real): (fee: real)
    ensures m.Upi? ==> fee == 0.0
    ensures m.Card? ==> fee == amount * CARD_FEE_RATE
    ensures m.NetBanking? ==> fee == amount * NET_BANKING_FEE_RATE
    ensures m.Wallet? ==> fee == amount * WALLET_FEE_RATE
    ensures amount >= 0.0 ==> 0.0 <= fee <= amount * CARD_FEE_RATE
  {
    match m
    case Upi(_) => 0.0
    case Card(_, _, _, _) => amount * CARD_FEE_RATE
    case NetBanking(_, _, _) => amount * NET_BANKING_FEE_RATE
    case Wallet(_, _, _) => amount * WALLET_FEE_RATE
  }

  /** The masked card, "**** **** **** " and the digits from index 12 on; `substring(12)` throws on a shorter number. */
  function MaskCard(cardNumber: string): (r: Option<string>)
    ensures r.Some? <==> |cardNumber| >= 12
    ensures r.Some? ==> r.value == "**** **** **** " + cardNumber[12..]
  {
    if |cardNumber| >= 12 then Some("**** **** **** " + cardNumber[12..]) else None
  }

  /** The masked account, "XXXX" and its last four characters. */
  function MaskAccount(accountNumber: string): (r: Option<string>)
    ensures r.Some? <==> |accountNumber| >= 4
    ensures r.Some? ==> |r.value| == 8 && r.value[..4] == "XXXX"
                        && accountNumber == accountNumber[..|accountNumber| - 4] + r.value[4..]
  {
    match Text.LastFour(accountNumber)
    case Some(tail) => Some("XXXX" + tail)
    case None => None
  }

  /**
   * The value `processPayment(amount)` returns, or the exception it throws.
   * Details that fail `validate()` give `false`. A valid net-banking account
   * is masked, which throws on a `null` account or one shorter than four
   * characters. A valid wallet pays when its balance covers the amount plus
   * the fee; the debit itself is `WalletPaymentMethod.ProcessPayment`.
   */
  function PaymentResult(m: PaymentMethod, amount: real): (r: Result<bool, string>)
    ensures r == Success(true) ==> Validate(m)
    ensures r.Failure? ==> m.NetBanking? && Validate(m)
    ensures m.Wallet? && r == Success(true) ==> m.walletBalance >= amount + TransactionFee(m, amount)
  {
    if !Validate(m) then Success(false)
    else match m
      case Upi(_) => Success(true)
      case Card(_, _, _, _) => Success(true)
      case NetBanking(_, accountNumber, _) =>
        if accountNumber.None? then Failure(NULL_POINTER)
        else if MaskAccount(accountNumber.value).None? then Failure(INDEX_OUT_OF_BOUNDS)
        else Success(true)
      case Wallet(_, _, walletBalance) => Success(walletBalance >= amount + TransactionFee(m, amount))
  }

  /** Which products pay: UPI and cards exactly when valid; net banking also needs four account characters; wallets also need the funds. */
  lemma PaymentOutcome(m: PaymentMethod, amount: real)
    ensures (m.Upi? || m.Card?) ==> PaymentResult(m, amount) == Success(Validate(m))
    ensures m.NetBanking? ==>
      (PaymentResult(m, amount) == Success(true) <==>
        Validate(m) && m.accountNumber.Some? && |m.accountNumber.value| >= 4)
    ensures m.NetBanking? && Validate(m) && m.accountNumber.Some? && |m.accountNumber.value| < 4
            ==> PaymentResult(m, amount) == Failure(INDEX_OUT_OF_BOUNDS)
    ensures m.Wallet? ==>
      PaymentResult(m, amount) == Success(Validate(m) && m.walletBalance >= amount * (1.0 + WALLET_FEE_RATE))
  {
  }

  /** `details.get(key)`: `null` for a missing key. */
  function Get(details: map<string, string>, key: string): (v: Option<string>)
    ensures v.Some? <==> key in details
    ensures v.Some? ==> v.value == details[key]
  {
    if key in details then Some(details[key]) else None
  }

  /** The product a recognised type name selects, filled from the details map. */
  function FromDetails(kind: string, details: map<string, string>): (r: Result<Option<PaymentMethod>, string>)
    ensures r.Success? ==> r.value.Some?
    ensures kind in {"UPI", "CARD", "NET_BANKING", "NETBANKING"} ==> r.Success?
    ensures r.Failure? ==>
      r.error == NUMBER_FORMAT && ParseDecimal(if "walletBalance" in details then details["walletBalance"] else "0").None?
  {
    if kind == "UPI" then Success(Some(Upi(Get(details, "upiId"))))
    else if kind == "CARD" then
      Success(Some(Card(Get(details, "cardNumber"), Get(details, "cardHolderName"),
                        Get(details, "expiryDate"), Get(details, "cvv"))))
    else if kind == "NET_BANKING" || kind == "NETBANKING" then
      Success(Some(NetBanking(Get(details, "bankName"), Get(details, "accountNumber"), Get(details, "ifscCode"))))
    else
      var balanceText := if "walletBalance" in details then details["walletBalance"] else "0";
      match ParseDecimal(balanceText)
      case None => Failure(NUMBER_FORMAT)
      case Some(balance) =>
        Success(Some(Wallet(Get(details, "walletProvider"), Get(details, "phoneNumber"), balance)))
  }

  /** The type names the factory recognises, once upper-cased. */
  predicate Known(kind: string)
  {
    kind in {"UPI", "CARD", "NET_BANKING", "NETBANKING", "WALLET"}
  }

  /**
   * `createPaymentMethod(type, details)`: `Success(None)` is the `null` of an
   * unknown type, for which the details are never read; a `null` map for a
   * known type throws.
   */
  function CreatePaymentMethod(kind: string, details: Option<map<string, string>>): (r: Result<Option<PaymentMethod>, string>)
    ensures !Known(Text.ToUpper(kind)) ==> r == Success(None)
    ensures Known(Text.ToUpper(kind)) && details.None? ==> r == Failure(NULL_POINTER)
    ensures r.Success? && r.value.Some? ==> Known(Text.ToUpper(kind))
  {
    var upper := Text.ToUpper(kind);
    if !Known(upper) then Success(None)
    else if details.None? then Failure(NULL_POINTER)
    else FromDetails(upper, details.value)
  }

  /** The product chosen for a type name is the same in any letter case. */
  lemma CaseInsensitive(kind: string, details: Option<map<string, string>>)
    ensures CreatePaymentMethod(kind, details) == CreatePaymentMethod(Text.ToUpper(kind), details)
  {
    Text.ToUpperIdempotent(kind);
  }

  /** The dispatch table: each recognised name gives its own product, and nothing else does. */
  lemma DispatchTable(kind: string, details: map<string, string>)
    ensures var r := CreatePaymentMethod(kind, Some(details));
            var upper := Text.ToUpper(kind);
            && (upper == "UPI" ==> r.Success? && r.value.Some? && r.value.value.Upi?)
            && (upper == "CARD" ==> r.Success? && r.value.Some? && r.value.value.Card?)
            && (upper in {"NET_BANKING", "NETBANKING"} ==> r.Success? && r.value.Some? && r.value.value.NetBanking?)
            && (upper == "WALLET" ==> r.Failure? || (r.value.Some? && r.value.value.Wallet?))
            && (r.Success? && r.value.Some? ==> PaymentType(r.value.value) == (if upper == "NETBANKING" then "NET_BANKING" else upper))
  {
  }

  /** A type name the factory does not know, such as "CRYPTOCURRENCY", gives `null` even when the details are `null`. */
  lemma UnknownTypeScenario()
    ensures CreatePaymentMethod("CRYPTOCURRENCY", None) == Success(None)
  {
  }

  /** Missing keys become `null` fields, and a wallet without a balance entry starts at 0. */
  lemma MissingDetails()
    ensures CreatePaymentMethod("upi", Some(map[])) == Success(Some(Upi(None)))
    ensures CreatePaymentMethod("wallet", Some(map[])) == Success(Some(Wallet(None, None, 0.0)))
  {
    assert Text.ToUpper("upi") == "UPI";
    assert Text.ToUpper("wallet") == "WALLET";
  }

  /** A balance text that does not parse as a number makes the factory throw. */
  lemma UnparsableBalance(details: map<string, string>)
    requires "walletBalance" in details && ParseDecimal(details["walletBalance"]).None?
    ensures CreatePaymentMethod("WALLET", Some(details)) == Failure(NUMBER_FORMAT)
  {
    Text.ToUpperFixed("WALLET");
  }

  /** The details map a convenience creator builds: only the non-null arguments are stored, which `get` cannot tell apart. */
  function Put(details: map<string, string>, key: string, value: Option<string>): (r: map<string, string>)
    ensures Get(r, key) == value
    ensures forall k :: k != key ==> Get(r, k) == Get(details, k)
  {
    if value.Some? then details[key := value.value] else details - {key}
  }

  /** `createUpiPayment(upiId)`: its argument reaches the product unchanged. */
  function CreateUpiPayment(upiId: Option<string>): (r: Result<Option<PaymentMethod>, string>)
    ensures r == Success(Some(Upi(upiId)))
  {
    Text.ToUpperFixed("UPI");
    CreatePaymentMethod("UPI", Some(Put(map[], "upiId", upiId)))
  }

  /** `createCardPayment(...)`: its arguments reach the product unchanged. */
  function CreateCardPayment(cardNumber: Option<string>, cardHolderName: Option<string>,
                             expiryDate: Option<string>, cvv: Option<string>): (r: Result<Option<PaymentMethod>, string>)
    ensures r == Success(Some(Card(cardNumber, cardHolderName, expiryDate, cvv)))
  {
    Text.ToUpperFixed("CARD");
    var details := Put(Put(Put(Put(map[], "cardNumber", cardNumber), "cardHolderName", cardHolderName),
                           "expiryDate", expiryDate), "cvv", cvv);
    CreatePaymentMethod("CARD", Some(details))
  }

  /** `createNetBankingPayment(...)`: its arguments reach the product unchanged. */
  function CreateNetBankingPayment(bankName: Option<string>, accountNumber: Option<string>,
                                   ifscCode: Option<string>): (r: Result<Option<PaymentMethod>, string>)
    ensures r == Success(Some(NetBanking(bankName, accountNumber, ifscCode)))
  {
    Text.ToUpperFixed("NET_BANKING");
    var details := Put(Put(Put(map[], "bankName", bankName), "accountNumber", accountNumber), "ifscCode", ifscCode);
    CreatePaymentMethod("NET_BANKING", Some(details))
  }

  /**
   * `createWalletPayment(...)`: the wallet product with the given fields.
   * The balance's trip through `String.valueOf` and `Double.parseDouble`
   * is taken as the identity; `WalletCreatorAgrees` relates it to the factory.
   */
  function CreateWalletPayment(walletProvider: Option<string>, phoneNumber: Option<string>,
                               walletBalance: real): Result<Option<PaymentMethod>, string>
  {
    Success(Some(Wallet(walletProvider, phoneNumber, walletBalance)))
  }

  /** For any balance text that parses back to the balance, the factory builds the same wallet as the convenience creator. */
  lemma WalletCreatorAgrees(walletProvider: Option<string>, phoneNumber: Option<string>,
                            walletBalance: real, balanceText: string)
    requires ParseDecimal(balanceText) == Some(walletBalance)
    ensures CreatePaymentMethod("WALLET", Some(Put(Put(map[], "walletProvider", walletProvider), "phoneNumber", phoneNumber)
                                                 ["walletBalance" := balanceText]))
            == CreateWalletPayment(walletProvider, phoneNumber, walletBalance)
  {
    var details := Put(Put(map[], "walletProvider", walletProvider), "phoneNumber", phoneNumber)["walletBalance" := balanceText];
    WalletDispatch(details);
    WalletFromDetails(walletProvider, phoneNumber, walletBalance, balanceText);
  }

  /** "WALLET" is already upper case and selects the wallet branch. */
  lemma WalletDispatch(details: map<string, string>)
    ensures CreatePaymentMethod("WALLET", Some(details)) == FromDetails("WALLET", details)
  {
    Text.ToUpperFixed("WALLET");
  }

  /** The wallet branch reads the provider and phone back and parses the balance text. */
  lemma WalletFromDetails(walletProvider: Option<string>, phoneNumber: Option<string>,
                          walletBalance: real, balanceText: string)
    requires ParseDecimal(balanceText) == Some(walletBalance)
    ensures FromDetails("WALLET", Put(Put(map[], "walletProvider", walletProvider), "phoneNumber", phoneNumber)
                                    ["walletBalance" := balanceText])
            == Success(Some(Wallet(walletProvider, phoneNumber, walletBalance)))
  {
    var named := Put(Put(map[], "walletProvider", walletProvider), "phoneNumber", phoneNumber);
    var details := named["walletBalance" := balanceText];
    assert Get(named, "walletProvider") == walletProvider && Get(named, "phoneNumber") == phoneNumber;
    assert Get(details, "walletProvider") == walletProvider && Get(details, "phoneNumber") == phoneNumber;
    assert "walletBalance" in details && details["walletBalance"] == balanceText;
  }

  /** The fee comparison for 10000: 0, 200, 100 and 50. */
  lemma FeeComparison()
    ensures TransactionFee(Upi(Some("user@gpay")), 10000.0) == 0.0
    ensures TransactionFee(Card(Some("1111222233334444"), Some("Jane"), Some("06/26"), Some("456")), 10000.0) == 200.0
    ensures TransactionFee(NetBanking(Some("SBI"), Some("987654321098"), Some("SBIN0001234")), 10000.0) == 100.0
    ensures TransactionFee(Wallet(Some("Amazon Pay"), Some("8877665544"), 15000.0), 10000.0) == 50.0
  {
  }

  /** `WalletPaymentMethod`: the one product whose state a payment changes. */
  class WalletPaymentMethod {
    const walletProvider: Option<string>
    const phoneNumber: Option<string>
    var walletBalance: real

    /** The product value this wallet currently equals. */
    function Current(): PaymentMethod
      reads this
    {
      Wallet(walletProvider, phoneNumber, walletBalance)
    }

    constructor(walletProvider: Option<string>, phoneNumber: Option<string>, walletBalance: real)
      ensures Current() == Wallet(walletProvider, phoneNumber, walletBalance)
    {
      this.walletProvider := walletProvider;
      this.phoneNumber := phoneNumber;
      this.walletBalance := walletBalance;
    }

    /**
     * `processPayment(amount)`: with valid details and a balance covering the
     * amount plus the 0.5% fee, debits exactly that total and answers true;
     * otherwise answers false and leaves the balance alone.
     */
    method ProcessPayment(amount: real) returns (paid: bool)
      modifies this
      ensures Success(paid) == PaymentResult(old(Current()), amount)
      ensures paid ==> walletBalance == old(walletBalance) - (amount + TransactionFee(old(Current()), amount))
      ensures paid ==> walletBalance >= 0.0
      ensures !paid ==> walletBalance == old(walletBalance)
    {
      if !Validate(Current()) {
        return false;
      }
      var totalAmount := amount + TransactionFee(Current(), amount);
      if walletBalance < totalAmount {
        return false;
      }
      walletBalance := walletBalance - totalAmount;
      paid := true;
    }
  }

  /** A wallet holding 500 cannot pay 1000; one holding 10000 pays 3000 and keeps 6985. */
  method WalletScenarios() returns (low: WalletPaymentMethod, funded: WalletPaymentMethod)
    ensures low.walletBalance == 500.0 && funded.walletBalance == 6985.0
  {
    low := new WalletPaymentMethod(Some("PhonePe"), Some("9988776655"), 500.0);
    var lowPaid := low.ProcessPayment(1000.0);
    assert !lowPaid;
    funded := new WalletPaymentMethod(Some("Paytm"), Some("9876543210"), 10000.0);
    var fundedPaid := funded.ProcessPayment(3000.0);
    assert fundedPaid;
  }
}
