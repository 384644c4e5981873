/**
 * The Builder pattern's immutable `Transaction` and its fluent `Builder`.
 *
 * The builder holds five required fields fixed at construction and eight
 * optional fields with defaults that the fluent setters overwrite one at a
 * time; `build()` runs an ordered list of checks and either reports the
 * first failure or copies every builder field into a `Transaction`.
 */
module Builder {
  import opened Wrappers
  import Text

  /** A `LocalDateTime`; the clock is a parameter of this model. */
  type Timestamp = int

  /** A built transaction: every field as the builder held it, and no setters. */
  datatype Transaction = Transaction(
    transactionId: Option<string>,
    amount: real,
    currency: Option<string>,
    senderId: Option<string>,
    receiverId: Option<string>,
    timestamp: Timestamp,
    paymentMethod: string,
    status: string,
    note: string,
    location: string,
    isRefundable: bool,
    conversionRate: real,
    category: string)

  const ID_REQUIRED := "Transaction ID is required"
  const AMOUNT_NOT_POSITIVE := "Amount must be positive"
  const CURRENCY_REQUIRED := "Currency is required"
  const SENDER_REQUIRED := "Sender ID is required"
  const RECEIVER_REQUIRED := "Receiver ID is required"
  const SAME_PARTIES := "Sender and Receiver cannot be the same"

  /** A `String` field that is neither `null` nor empty. */
  predicate Present(s: Option<string>)
  {
    s.Some? && s.value != ""
  }

  /** The conditions a buildable transaction meets, in no particular order. */
  predicate Acceptable(t: Transaction)
  {
    && Present(t.transactionId)
    && t.amount > 0.0
    && Present(t.currency)
    && Present(t.senderId)
    && Present(t.receiverId)
    && t.senderId != t.receiverId
  }

  /**
   * `Builder.validate()`: the checks in source order; the message of the
   * first one that fails, or `None` when all pass.
   */
  function Validate(t: Transaction): (err: Option<string>)
    ensures err.None? <==> Acceptable(t)
    ensures err.Some? ==> err.value in {ID_REQUIRED, AMOUNT_NOT_POSITIVE, CURRENCY_REQUIRED,
                                        SENDER_REQUIRED, RECEIVER_REQUIRED, SAME_PARTIES}
  {
    if !Present(t.transactionId) then Some(ID_REQUIRED)
    else if t.amount <= 0.0 then Some(AMOUNT_NOT_POSITIVE)
    else if !Present(t.currency) then Some(CURRENCY_REQUIRED)
    else if !Present(t.senderId) then Some(SENDER_REQUIRED)
    else if !Present(t.receiverId) then Some(RECEIVER_REQUIRED)
    else if t.senderId == t.receiverId then Some(SAME_PARTIES)
    else None
  }

  /** An earlier failing check hides every later one: a missing id is reported even when the amount is bad too. */
  lemma FirstFailureWins(t: Transaction)
    ensures !Present(t.transactionId) ==> Validate(t) == Some(ID_REQUIRED)
    ensures Present(t.transactionId) && t.amount <= 0.0 ==> Validate(t) == Some(AMOUNT_NOT_POSITIVE)
    ensures Present(t.transactionId) && t.amount > 0.0 && Present(t.currency)
            && Present(t.senderId) && Present(t.receiverId) && t.senderId == t.receiverId
            ==> Validate(t) == Some(SAME_PARTIES)
  {
  }

  /** `getConvertedAmount()`: the amount under the conversion rate; the default rate keeps it. */
  function ConvertedAmount(t: Transaction): (r: real)
    ensures t.conversionRate == 1.0 ==> r == t.amount
    ensures t.conversionRate >= 0.0 && t.amount >= 0.0 ==> r >= 0.0
  {
    t.amount * t.conversionRate
  }

  /**
   * `Transaction.padRight`: `null` shows as "N/A"; the result is always
   * exactly `width` characters.
   */
  function PadRightOrNA(text: Option<string>, width: nat): (r: string)
    ensures |r| == width
    ensures text.None? ==> r == Text.PadRight("N/A", width)
    ensures text.Some? ==> r == Text.PadRight(text.value, width)
  {
    Text.PadRight(if text.None? then "N/A" else text.value, width)
  }

  /** `Transaction.Builder`. */
  class TransactionBuilder {
    // required
    const transactionId: Option<string>
    const amount: real
    const currency: Option<string>
    const senderId: Option<string>
    const receiverId: Option<string>
    // optional, with defaults
    var timestamp: Timestamp
    var paymentMethod: string
    var status: string
    var note: string
    var location: string
    var isRefundable: bool
    var conversionRate: real
    var category: string

    /** What `build()` would copy into the transaction. */
    function Fields(): Transaction
      reads this
    {
      Transaction(transactionId, amount, currency, senderId, receiverId, timestamp,
                  paymentMethod, status, note, location, isRefundable, conversionRate, category)
    }

    /** The required fields as given; every optional field at its default; `now` is the clock's reading. */
    constructor(transactionId: Option<string>, amount: real, currency: Option<string>,
                senderId: Option<string>, receiverId: Option<string>, now: Timestamp)
      ensures Fields() == Transaction(transactionId, amount, currency, senderId, receiverId, now,
                                      "UNKNOWN", "PENDING", "", "", true, 1.0, "GENERAL")
    {
      this.transactionId := transactionId;
      this.amount := amount;
      this.currency := currency;
      this.senderId := senderId;
      this.receiverId := receiverId;
      timestamp := now;
      paymentMethod := "UNKNOWN";
      status := "PENDING";
      note := "";
      location := "";
      isRefundable := true;
      conversionRate := 1.0;
      category := "GENERAL";
    }

    method PaymentMethod(paymentMethod: string) returns (self: TransactionBuilder)
      modifies this
      ensures self == this
      ensures Fields() == old(Fields()).(paymentMethod := paymentMethod)
    {
      this.paymentMethod := paymentMethod;
      self := this;
    }

    method Status(status: string) returns (self: TransactionBuilder)
      modifies this
      ensures self == this
      ensures Fields() == old(Fields()).(status := status)
    {
      this.status := status;
      self := this;
    }

    method Timestamp(timestamp: Timestamp) returns (self: TransactionBuilder)
      modifies this
      ensures self == this
      ensures Fields() == old(Fields()).(timestamp := timestamp)
    {
      this.timestamp := timestamp;
      self := this;
    }

    method Note(note: string) returns (self: TransactionBuilder)
      modifies this
      ensures self == this
      ensures Fields() == old(Fields()).(note := note)
    {
      this.note := note;
      self := this;
    }

    method Location(location: string) returns (self: TransactionBuilder)
      modifies this
      ensures self == this
      ensures Fields() == old(Fields()).(location := location)
    {
      this.location := location;
      self := this;
    }

    method Refundable(isRefundable: bool) returns (self: TransactionBuilder)
      modifies this
      ensures self == this
      ensures Fields() == old(Fields()).(isRefundable := isRefundable)
    {
      this.isRefundable := isRefundable;
      self := this;
    }

    method ConversionRate(rate: real) returns (self: TransactionBuilder)
      modifies this
      ensures self == this
      ensures Fields() == old(Fields()).(conversionRate := rate)
    {
      this.conversionRate := rate;
      self := this;
    }

    method Category(category: string) returns (self: TransactionBuilder)
      modifies this
      ensures self == this
      ensures Fields() == old(Fields()).(category := category)
    {
      this.category := category;
      self := this;
    }

    /**
     * `build()`: the transaction, a copy of every builder field, when all
     * checks pass; otherwise the first failing check's message (the
     * `IllegalStateException`).
     */
    method Build() returns (r: Result<Transaction, string>)
      ensures r.Success? <==> Acceptable(Fields())
      ensures r.Success? ==> r.value == Fields()
      ensures r.Failure? ==> Validate(Fields()) == Some(r.error)
    {
      var err := Validate(Fields());
      if err.None? {
        r := Success(Fields());
      } else {
        r := Failure(err.value);
      }
    }
  }

  /** Chained setters: each touches its own field, the last call wins, and build copies the result. */
  method FluentChain(now: Timestamp) returns (t: Result<Transaction, string>)
    ensures t.Success?
    ensures t.value.paymentMethod == "CARD" && t.value.note == "Rent" && t.value.status == "PENDING"
    ensures t.value.category == "GENERAL" && t.value.isRefundable && ConvertedAmount(t.value) == 1000.0
  {
    var b := new TransactionBuilder(Some("TXN001"), 1000.0, Some("INR"), Some("Sender"), Some("Receiver"), now);
    b := b.PaymentMethod("UPI");
    b := b.Note("Rent");
    b := b.PaymentMethod("CARD");
    t := b.Build();
  }

  /** The three rejected transactions of the validation scenario. */
  lemma ValidationScenario(now: Timestamp)
    ensures Validate(Transaction(Some("TXN-BAD-001"), -100.0, Some("INR"), Some("A"), Some("B"), now,
                                 "UNKNOWN", "PENDING", "", "", true, 1.0, "GENERAL")) == Some(AMOUNT_NOT_POSITIVE)
    ensures Validate(Transaction(Some("TXN-BAD-002"), 100.0, Some("INR"), Some("SAME-USER"), Some("SAME-USER"), now,
                                 "UNKNOWN", "PENDING", "", "", true, 1.0, "GENERAL")) == Some(SAME_PARTIES)
    ensures Validate(Transaction(Some(""), 100.0, Some("INR"), Some("A"), Some("B"), now,
                                 "UNKNOWN", "PENDING", "", "", true, 1.0, "GENERAL")) == Some(ID_REQUIRED)
  {
  }
}
