/**
 * The decorator payment-adjustment chain.
 *
 * A `Payment` is either the leaf `BasePayment(amount, type)` or a decorator
 * that wraps another payment with one adjustment `Layer`. Every query is
 * recomputed by delegation to the wrapped payment, so the functions below
 * recurse on the nesting, which always ends at a base payment.
 */
module Decorator {
  import opened Numbers
  import Text

  /** 18% GST (`GSTDecorator.GST_RATE`). */
  const GST_RATE: real := 0.18
  /** 0.5% processing fee ... */
  const FEE_PERCENTAGE: real := 0.005
  /** ... capped at 500 (`ProcessingFeeDecorator.MAX_FEE`). */
  const MAX_FEE: real := 500.0
  /** 2% cross-border fee (`InternationalFeeDecorator`). */
  const INTERNATIONAL_FEE_RATE: real := 0.02

  /** What one decorator adds on top of the payment it wraps. */
  datatype Layer =
    | PassThrough                              // PaymentDecorator's inherited defaults
    | GST                                      // GSTDecorator
    | ProcessingFee                            // ProcessingFeeDecorator
    | Cashback(cashbackAmount: real)           // CashbackDecorator
    | InternationalFee(targetCurrency: string) // InternationalFeeDecorator

  datatype Payment =
    | BasePayment(baseAmount: real, paymentType: string)
    | Decorated(wrappedPayment: Payment, layer: Layer)

  /** The base payment at the bottom of a chain. */
  function Root(p: Payment): (b: Payment)
    ensures b.BasePayment?
  {
    match p
    case BasePayment(_, _) => p
    case Decorated(w, _) => Root(w)
  }

  /** `ProcessingFeeDecorator.calculateFee`: 0.5% of the amount, at most 500. */
  function CalculateFee(amount: real): (fee: real)
    ensures fee <= MAX_FEE
    ensures amount * FEE_PERCENTAGE <= MAX_FEE ==> fee == amount * FEE_PERCENTAGE
    ensures amount * FEE_PERCENTAGE >= MAX_FEE ==> fee == MAX_FEE
    ensures amount >= 100000.0 ==> fee == MAX_FEE
    ensures amount >= 0.0 ==> 0.0 <= fee <= amount
  {
    Min(amount * FEE_PERCENTAGE, MAX_FEE)
  }

  /** The amount one layer makes of the running amount `x` it receives. */
  function Apply(layer: Layer, x: real): (r: real)
    ensures layer.PassThrough? ==> r == x
    // the surcharges never lower a non-negative amount
    ensures (layer.GST? || layer.ProcessingFee? || layer.InternationalFee?) && x >= 0.0 ==> r >= x
    ensures layer.ProcessingFee? ==> r - x <= MAX_FEE
    // the cashback is floored at zero rather than rejected
    ensures layer.Cashback? ==> r >= 0.0
    ensures layer.Cashback? && layer.cashbackAmount >= x ==> r == 0.0
    ensures layer.Cashback? && layer.cashbackAmount >= 0.0 ==> r <= Max(x, 0.0)
  {
    match layer
    case PassThrough => x
    case GST => x + x * GST_RATE
    case ProcessingFee => x + CalculateFee(x)
    case Cashback(c) => Max(x - c, 0.0)
    case InternationalFee(_) => x + x * INTERNATIONAL_FEE_RATE
  }

  /** The text one layer appends to the wrapped description: nothing only for the pass-through default. */
  function Fragment(layer: Layer, x: real): (f: string)
    ensures layer.PassThrough? <==> f == ""
  {
    match layer
    case PassThrough => ""
    case GST => " + GST @18% (₹" + Fmt2(x * GST_RATE) + ")"
    case ProcessingFee => " + Processing Fee (₹" + Fmt2(CalculateFee(x)) + ")"
    case Cashback(c) => " - Cashback (₹" + Fmt2(c) + ")"
    case InternationalFee(cur) =>
      " + International Fee @2% to " + cur + " (₹" + Fmt2(x * INTERNATIONAL_FEE_RATE) + ")"
  }

  /** `BasePayment.getDescription`: the payment type can be read back from it. */
  function BaseDescription(paymentType: string): (d: string)
    ensures "Base Payment (" <= d && d[|d| - 1] == ')'
    ensures d[14..|d| - 1] == paymentType
  {
    "Base Payment (" + paymentType + ")"
  }

  /**
   * `processPayment()`: the base amount, adjusted by each layer in wrapping
   * order. A chain over a non-negative base amount never yields a negative
   * total.
   */
  function ProcessPayment(p: Payment): (r: real)
    ensures Root(p).baseAmount >= 0.0 ==> r >= 0.0
  {
    match p
    case BasePayment(amount, _) => amount
    case Decorated(w, layer) => Apply(layer, ProcessPayment(w))
  }

  /**
   * `getDescription()`: the wrapped description followed by this layer's
   * fragment, so the base payment's description always comes first.
   */
  function GetDescription(p: Payment): (d: string)
    ensures BaseDescription(Root(p).paymentType) <= d
    ensures p.Decorated? ==> GetDescription(p.wrappedPayment) <= d
  {
    match p
    case BasePayment(_, paymentType) => BaseDescription(paymentType)
    case Decorated(w, layer) => GetDescription(w) + Fragment(layer, ProcessPayment(w))
  }

  /**
   * `getAmount()`: the base amount for a base payment, delegation for the
   * default decorator, `processPayment()` for every concrete decorator; in
   * all cases the same value as `processPayment()`.
   */
  function GetAmount(p: Payment): (r: real)
    ensures r == ProcessPayment(p)
  {
    match p
    case BasePayment(amount, _) => amount
    case Decorated(w, PassThrough) => GetAmount(w)
    case Decorated(_, _) => ProcessPayment(p)
  }

  // ---------------------------------------------------------------------
  // The same chain seen as a base payment and a list of layers
  // ---------------------------------------------------------------------

  /** The layers of a chain, innermost (applied first) to outermost. */
  function LayersOf(p: Payment): (ls: seq<Layer>)
  {
    match p
    case BasePayment(_, _) => []
    case Decorated(w, layer) => LayersOf(w) + [layer]
  }

  /** Build a chain: wrap `base` with each layer in turn (`payment = new X(payment)`). */
  function Wrap(base: Payment, layers: seq<Layer>): (p: Payment)
  {
    if layers == [] then base
    else Decorated(Wrap(base, layers[..|layers| - 1]), layers[|layers| - 1])
  }

  /** Apply the layers to an amount, first layer first. */
  function RunLayers(x: real, layers: seq<Layer>): real
    decreases |layers|
  {
    if layers == [] then x else RunLayers(Apply(layers[0], x), layers[1..])
  }

  /** The fragments of the layers, each computed on the running amount it receives. */
  function Trace(x: real, layers: seq<Layer>): string
    decreases |layers|
  {
    if layers == [] then "" else Fragment(layers[0], x) + Trace(Apply(layers[0], x), layers[1..])
  }

  /** Every chain is a base payment wrapped in its layers. */
  lemma {:induction false} WrapLayersOf(p: Payment)
    ensures Wrap(Root(p), LayersOf(p)) == p
  {
    match p
    case BasePayment(_, _) =>
    case Decorated(w, layer) =>
      WrapLayersOf(w);
      assert (LayersOf(w) + [layer])[..|LayersOf(w)|] == LayersOf(w);
  }

  /** Wrapping with layers and then reading them back gives the same layers. */
  lemma {:induction false} LayersOfWrap(base: Payment, layers: seq<Layer>)
    requires base.BasePayment?
    ensures LayersOf(Wrap(base, layers)) == layers
    ensures Root(Wrap(base, layers)) == base
    decreases |layers|
  {
    if layers != [] {
      LayersOfWrap(base, layers[..|layers| - 1]);
    }
  }

  /** Running one more layer at the end. */
  lemma {:induction false} RunLayersSnoc(x: real, layers: seq<Layer>, last: Layer)
    ensures RunLayers(x, layers + [last]) == Apply(last, RunLayers(x, layers))
    ensures Trace(x, layers + [last]) == Trace(x, layers) + Fragment(last, RunLayers(x, layers))
    decreases |layers|
  {
    if layers != [] {
      var y := Apply(layers[0], x);
      assert (layers + [last])[1..] == layers[1..] + [last];
      RunLayersSnoc(y, layers[1..], last);
      AppendAssoc(Fragment(layers[0], x), Trace(y, layers[1..]), Fragment(last, RunLayers(y, layers[1..])));
    }
  }

  /** The nested evaluation agrees with running the layers over the base amount. */
  lemma {:induction false} ChainAmount(p: Payment)
    ensures ProcessPayment(p) == RunLayers(Root(p).baseAmount, LayersOf(p))
  {
    match p
    case BasePayment(_, _) =>
    case Decorated(w, layer) =>
      ChainAmount(w);
      RunLayersSnoc(Root(w).baseAmount, LayersOf(w), layer);
  }

  /**
   * The description is the base description followed by one fragment per
   * layer, in wrapping order, each showing the amount that layer received.
   */
  lemma {:induction false} ChainDescription(p: Payment)
    ensures GetDescription(p) == BaseDescription(Root(p).paymentType) + Trace(Root(p).baseAmount, LayersOf(p))
  {
    match p
    case BasePayment(_, t) =>
      assert BaseDescription(t) + "" == BaseDescription(t);
    case Decorated(w, layer) =>
      var b := Root(w);
      ChainDescription(w);
      ChainAmount(w);
      TraceSnoc(BaseDescription(b.paymentType), b.baseAmount, LayersOf(w), layer);
  }

  lemma TraceSnoc(head: string, x: real, layers: seq<Layer>, last: Layer)
    ensures head + Trace(x, layers) + Fragment(last, RunLayers(x, layers)) == head + Trace(x, layers + [last])
  {
    RunLayersSnoc(x, layers, last);
    AppendAssoc(head, Trace(x, layers), Fragment(last, RunLayers(x, layers)));
  }

  lemma AppendAssoc(a: string, b: string, c: string)
    ensures a + b + c == a + (b + c)
  {
  }

  // ---------------------------------------------------------------------
  // Properties of the individual decorators
  // ---------------------------------------------------------------------

  /** The charge a surcharge layer shows in its fragment is the charge it adds. */
  lemma ChargeShown(layer: Layer, x: real)
    requires layer.GST? || layer.ProcessingFee? || layer.InternationalFee?
    ensures Text.Contains(Fragment(layer, x), Fmt2(Apply(layer, x) - x))
  {
    match layer
    case GST =>
      assert Apply(layer, x) - x == x * GST_RATE;
      Text.ContainsInfix(" + GST @18% (₹", Fmt2(x * GST_RATE), ")");
    case ProcessingFee =>
      assert Apply(layer, x) - x == CalculateFee(x);
      Text.ContainsInfix(" + Processing Fee (₹", Fmt2(CalculateFee(x)), ")");
    case InternationalFee(cur) =>
      assert Apply(layer, x) - x == x * INTERNATIONAL_FEE_RATE;
      Text.ContainsInfix(" + International Fee @2% to " + cur + " (₹", Fmt2(x * INTERNATIONAL_FEE_RATE), ")");
  }

  /** A surcharge is shown as " + ...", the cashback as " - ...". */
  lemma FragmentSign(layer: Layer, x: real)
    ensures (layer.GST? || layer.ProcessingFee? || layer.InternationalFee?) ==> " + " <= Fragment(layer, x)
    ensures layer.Cashback? ==> " - " <= Fragment(layer, x)
  {
    match layer
    case PassThrough =>
    case GST =>
      PrefixExtends(" + ", " + GST @18% (₹", Fmt2(x * GST_RATE));
      PrefixExtends(" + ", " + GST @18% (₹" + Fmt2(x * GST_RATE), ")");
    case ProcessingFee =>
      PrefixExtends(" + ", " + Processing Fee (₹", Fmt2(CalculateFee(x)));
      PrefixExtends(" + ", " + Processing Fee (₹" + Fmt2(CalculateFee(x)), ")");
    case Cashback(c) =>
      PrefixExtends(" - ", " - Cashback (₹", Fmt2(c));
      PrefixExtends(" - ", " - Cashback (₹" + Fmt2(c), ")");
    case InternationalFee(cur) =>
      var s0 := " + International Fee @2% to ";
      PrefixExtends(" + ", s0, cur);
      PrefixExtends(" + ", s0 + cur, " (₹");
      PrefixExtends(" + ", s0 + cur + " (₹", Fmt2(x * INTERNATIONAL_FEE_RATE));
      PrefixExtends(" + ", s0 + cur + " (₹" + Fmt2(x * INTERNATIONAL_FEE_RATE), ")");
  }

  lemma PrefixExtends(p: string, a: string, b: string)
    requires p <= a
    ensures p <= a + b
  {
    assert (a + b)[..|p|] == a[..|p|];
  }

  /**
   * The cashback fragment shows the configured cashback, whatever the
   * running amount, even when the floor at zero deducts less.
   */
  lemma CashbackShowsConfigured(c: real, x: real, y: real)
    ensures Fragment(Cashback(c), x) == Fragment(Cashback(c), y)
    ensures Text.Contains(Fragment(Cashback(c), x), Fmt2(c))
  {
    Text.ContainsInfix(" - Cashback (₹", Fmt2(c), ")");
  }

  /** The target currency appears in the description and never changes the amount. */
  lemma CurrencyOnlyLabels(w: Payment, cur1: string, cur2: string)
    ensures ProcessPayment(Decorated(w, InternationalFee(cur1))) == ProcessPayment(Decorated(w, InternationalFee(cur2)))
    ensures Text.Contains(GetDescription(Decorated(w, InternationalFee(cur1))), cur1)
  {
    var x := ProcessPayment(w);
    CurrencyInFragment(cur1, x);
    Text.ContainsWithin(GetDescription(w), Fragment(InternationalFee(cur1), x), "", cur1);
    assert GetDescription(w) + Fragment(InternationalFee(cur1), x) + ""
        == GetDescription(Decorated(w, InternationalFee(cur1)));
  }

  lemma CurrencyInFragment(cur: string, x: real)
    ensures Text.Contains(Fragment(InternationalFee(cur), x), cur)
  {
    var rest := " (₹" + Fmt2(x * INTERNATIONAL_FEE_RATE) + ")";
    assert Fragment(InternationalFee(cur), x) == " + International Fee @2% to " + cur + rest;
    Text.ContainsInfix(" + International Fee @2% to ", cur, rest);
  }

  // ---------------------------------------------------------------------
  // Does the order of GST and the processing fee matter?
  // ---------------------------------------------------------------------

  /** Base -> GST -> processing fee. */
  function GstThenFee(w: Payment): Payment
  {
    Decorated(Decorated(w, GST), ProcessingFee)
  }

  /** Base -> processing fee -> GST. */
  function FeeThenGst(w: Payment): Payment
  {
    Decorated(Decorated(w, ProcessingFee), GST)
  }

  /**
   * The two orders agree exactly while the fee cap does not bind on the
   * GST-inclusive amount (0.18 * 0.005 + 0.005 = 0.0059 of it stays within
   * 500); once it binds, fee-then-GST charges GST on the capped fee too and
   * costs more.
   */
  lemma {:induction false} OrderMattersOnlyAboveCap(w: Payment)
    ensures ProcessPayment(GstThenFee(w)) == ProcessPayment(FeeThenGst(w)) <==> ProcessPayment(w) * 0.0059 <= MAX_FEE
    ensures ProcessPayment(w) * 0.0059 > MAX_FEE ==> ProcessPayment(FeeThenGst(w)) > ProcessPayment(GstThenFee(w))
  {
    var x := ProcessPayment(w);
    var g := x + x * GST_RATE;
    assert ProcessPayment(GstThenFee(w)) == g + CalculateFee(g);
    assert ProcessPayment(FeeThenGst(w)) == (x + CalculateFee(x)) * (1.0 + GST_RATE);
    assert g * FEE_PERCENTAGE == x * 0.0059;
  }

  /** The two orders always describe themselves differently. */
  lemma OrderShowsInDescription(w: Payment)
    ensures GetDescription(GstThenFee(w)) != GetDescription(FeeThenGst(w))
  {
    var d := GetDescription(w);
    var x := ProcessPayment(w);
    var gst := " + GST @18% (₹" + Fmt2(x * GST_RATE) + ")";
    var fee := " + Processing Fee (₹" + Fmt2(CalculateFee(x)) + ")";
    var d1 := GetDescription(GstThenFee(w));
    var d2 := GetDescription(FeeThenGst(w));
    assert GetDescription(Decorated(w, GST)) == d + gst;
    assert GetDescription(Decorated(w, ProcessingFee)) == d + fee;
    assert d1 == (d + gst) + Fragment(ProcessingFee, Apply(GST, x));
    assert d2 == (d + fee) + Fragment(GST, Apply(ProcessingFee, x));
    assert d1[|d| + 3] == gst[3] == 'G';
    assert d2[|d| + 3] == fee[3] == 'P';
  }

  // ---------------------------------------------------------------------
  // The demonstration scenarios
  // ---------------------------------------------------------------------

  /** Scenario 1: a bare base payment. */
  lemma ScenarioBasic()
    ensures ProcessPayment(BasePayment(10000.0, "UPI")) == 10000.0
    ensures GetDescription(BasePayment(10000.0, "UPI")) == "Base Payment (UPI)"
  {
  }

  /** Scenario 2: 10000 with GST is 11800, and the fragment shows 1800.00. */
  lemma ScenarioGst()
    ensures ProcessPayment(Decorated(BasePayment(10000.0, "Card"), GST)) == 11800.0
    ensures GetDescription(Decorated(BasePayment(10000.0, "Card"), GST)) == "Base Payment (Card) + GST @18% (₹1800.00)"
  {
    var b := BasePayment(10000.0, "Card");
    GstFragment1800();
    GstDescriptionText();
    assert GetDescription(Decorated(b, GST)) == GetDescription(b) + Fragment(GST, 10000.0);
  }

  lemma GstDescriptionText()
    ensures "Base Payment (Card)" + " + GST @18% (₹1800.00)" == "Base Payment (Card) + GST @18% (₹1800.00)"
  {
  }

  lemma GstFragment1800()
    ensures Fragment(GST, 10000.0) == " + GST @18% (₹1800.00)"
  {
    assert 10000.0 * GST_RATE == 1800.0;
    Fmt1800();
  }

  lemma Fmt1800()
    ensures Fmt2(1800.0) == "1800.00"
  {
    assert Cents(1800.0) == 180000;
    assert NatToString(1) == "1";
    assert NatToString(18) == "18";
    assert NatToString(180) == "180";
    assert NatToString(1800) == "1800";
  }

  /** Scenario 3: GST then the processing fee (59) gives 11859. */
  lemma ScenarioGstAndFee()
    ensures CalculateFee(11800.0) == 59.0
    ensures ProcessPayment(GstThenFee(BasePayment(10000.0, "UPI"))) == 11859.0
  {
  }

  /** Scenario 4: a cashback of 500 on top gives 11359. */
  lemma ScenarioFullDecoration()
    ensures ProcessPayment(Decorated(GstThenFee(BasePayment(10000.0, "Net Banking")), Cashback(500.0))) == 11359.0
  {
  }

  /** Scenario 5: the international fee adds 2% of 11859. */
  lemma ScenarioInternational()
    ensures ProcessPayment(Decorated(GstThenFee(BasePayment(10000.0, "International Card")), InternationalFee("USD"))) == 12096.18
  {
  }

  /** Scenario 6: at 10000 both orders of GST and fee give 11859. */
  lemma ScenarioOrdering()
    ensures ProcessPayment(GstThenFee(BasePayment(10000.0, "UPI"))) == 11859.0
    ensures ProcessPayment(FeeThenGst(BasePayment(10000.0, "UPI"))) == 11859.0
    // GST is charged on the running amount 10050, not on the base 10000
    ensures ProcessPayment(FeeThenGst(BasePayment(10000.0, "UPI"))) - ProcessPayment(Decorated(BasePayment(10000.0, "UPI"), ProcessingFee)) == 1809.0
  {
  }

  /** A surcharge followed by a cashback differs from the reverse order: 11300 against 11210. */
  lemma SurchargeAndCashbackDoNotCommute()
    ensures ProcessPayment(Wrap(BasePayment(10000.0, "UPI"), [GST, Cashback(500.0)])) == 11300.0
    ensures ProcessPayment(Wrap(BasePayment(10000.0, "UPI"), [Cashback(500.0), GST])) == 11210.0
  {
    assert [GST, Cashback(500.0)][..1] == [GST];
    assert [Cashback(500.0), GST][..1] == [Cashback(500.0)];
  }

  /** Deducting more cashback than the running amount yields zero, not an error. */
  lemma LargeCashbackFloorsAtZero()
    ensures ProcessPayment(Decorated(BasePayment(100.0, "UPI"), Cashback(500.0))) == 0.0
  {
  }
}
