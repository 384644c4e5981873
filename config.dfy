/**
 * The singleton `ConfigurationManager`: a key-to-value map of strings with a
 * sentinel for missing keys, numeric views of its values, a capped
 * transaction fee, a range check and a masking rule for sensitive keys.
 */
module Config {
  import opened Wrappers
  import opened Numbers
  import Text

  const NOT_FOUND := "CONFIGURATION_NOT_FOUND"
  const MASK := "***MASKED***"
  const NO_OLD_VALUE := "N/A"

  /** The thirteen settings loaded when the manager is created. */
  function DefaultConfigurations(): map<string, string>
  {
    map[
      "payment.gateway.url" := "https://api.razorpay.com/v1",
      "payment.gateway.key" := "rzp_live_***MASKED***",
      "transaction.daily.limit" := "100000",
      "transaction.single.limit" := "50000",
      "transaction.min.amount" := "1",
      "tax.gst.rate" := "18",
      "transaction.fee.percent" := "0.5",
      "transaction.fee.max" := "500",
      "session.timeout.minutes" := "30",
      "max.login.attempts" := "3",
      "otp.expiry.minutes" := "5",
      "db.pool.size" := "20",
      "db.connection.timeout" := "30"]
  }

  /** A key whose value the configuration listing hides. */
  predicate Sensitive(key: string)
  {
    Text.Contains(key, "key") || Text.Contains(key, "password")
  }

  /** The value shown for one entry of `displayAllConfigurations()`. */
  function DisplayValue(key: string, value: string): (shown: string)
    ensures Sensitive(key) ==> shown == MASK
    ensures !Sensitive(key) ==> shown == value
  {
    if Sensitive(key) then MASK else value
  }

  /** The whole listing as a map: the same keys, sensitive values masked. */
  function MaskedView(configs: map<string, string>): (view: map<string, string>)
    ensures view.Keys == configs.Keys
    ensures forall k :: k in view ==> view[k] == DisplayValue(k, configs[k])
  {
    map k | k in configs :: DisplayValue(k, configs[k])
  }

  /** `ConfigurationManager`. */
  class ConfigurationManager {
    var configurations: map<string, string>

    /** The manager starts with exactly the default settings. */
    constructor()
      ensures configurations == DefaultConfigurations()
    {
      configurations := DefaultConfigurations();
    }

    /** `getConfig`: the stored value, or the not-found sentinel. */
    function GetConfig(key: string): (v: string)
      reads this
      ensures key in configurations ==> v == configurations[key]
      ensures key !in configurations ==> v == NOT_FOUND
    {
      if key in configurations then configurations[key] else NOT_FOUND
    }

    /** `getConfigAsInt`: `Integer.parseInt` of the looked-up text, 0 when it does not parse. */
    function GetConfigAsInt(key: string): (n: int)
      reads this
      ensures INT_MIN <= n <= INT_MAX
      ensures ParseInt(GetConfig(key)).Some? ==> n == ParseInt(GetConfig(key)).value
      ensures ParseInt(GetConfig(key)).None? ==> n == 0
    {
      match ParseInt(GetConfig(key))
      case Some(v) => v
      case None => 0
    }

    /** `getConfigAsDouble`: `Double.parseDouble` of the looked-up text, 0.0 when it does not parse. */
    function GetConfigAsDouble(key: string): (x: real)
      reads this
      ensures ParseDecimal(GetConfig(key)).Some? ==> x == ParseDecimal(GetConfig(key)).value
      ensures ParseDecimal(GetConfig(key)).None? ==> x == 0.0
    {
      match ParseDecimal(GetConfig(key))
      case Some(v) => v
      case None => 0.0
    }

    /** `calculateTransactionFee`: the configured percentage of the amount, capped by the configured maximum. */
    function CalculateTransactionFee(amount: real): (fee: real)
      reads this
      ensures fee <= GetConfigAsDouble("transaction.fee.max")
      ensures fee <= amount * GetConfigAsDouble("transaction.fee.percent") / 100.0
      ensures fee == GetConfigAsDouble("transaction.fee.max")
              || fee == amount * GetConfigAsDouble("transaction.fee.percent") / 100.0
    {
      Min(amount * GetConfigAsDouble("transaction.fee.percent") / 100.0,
          GetConfigAsDouble("transaction.fee.max"))
    }

    /** `isWithinLimit`: between the configured minimum and single-transaction limit, both inclusive. */
    predicate IsWithinLimit(amount: real)
      reads this
      ensures IsWithinLimit(amount) ==>
        GetConfigAsDouble("transaction.min.amount") <= GetConfigAsDouble("transaction.single.limit")
    {
      GetConfigAsDouble("transaction.min.amount") <= amount <= GetConfigAsDouble("transaction.single.limit")
    }

    /**
     * `setConfig`: stores the value under the key and reports the value it
     * replaced, or "N/A" for a new key; every other key is unchanged.
     */
    method SetConfig(key: string, value: string) returns (reportedOld: string)
      modifies this
      ensures configurations == old(configurations)[key := value]
      ensures reportedOld == if key in old(configurations) then old(configurations)[key] else NO_OLD_VALUE
    {
      reportedOld := if key in configurations then configurations[key] else NO_OLD_VALUE;
      configurations := configurations[key := value];
    }
  }

  /** The accepted amounts form one interval: anything between two accepted amounts is accepted. */
  lemma LimitIsAnInterval(cm: ConfigurationManager, low: real, amount: real, high: real)
    requires cm.IsWithinLimit(low) && cm.IsWithinLimit(high) && low <= amount <= high
    ensures cm.IsWithinLimit(amount)
  {
  }

  /** After `setConfig(k, v)` the manager answers `v` for `k` and the old answer for every other key. */
  lemma SetThenGet(before: map<string, string>, cm: ConfigurationManager, key: string, value: string, other: string)
    requires cm.configurations == before[key := value]
    ensures cm.GetConfig(key) == value
    ensures other != key ==> cm.GetConfig(other) == (if other in before then before[other] else NOT_FOUND)
  {
  }

  /** The four numeric settings the fee and limit rules read, as parsed under the defaults. */
  lemma DefaultDoubles(cm: ConfigurationManager)
    requires cm.configurations == DefaultConfigurations()
    ensures cm.GetConfigAsDouble("transaction.fee.percent") == 0.5
    ensures cm.GetConfigAsDouble("transaction.fee.max") == 500.0
    ensures cm.GetConfigAsDouble("transaction.min.amount") == 1.0
    ensures cm.GetConfigAsDouble("transaction.single.limit") == 50000.0
  {
    assert cm.GetConfig("transaction.fee.percent") == "0.5";
    assert cm.GetConfig("transaction.fee.max") == "500";
    assert cm.GetConfig("transaction.min.amount") == "1";
    assert cm.GetConfig("transaction.single.limit") == "50000";
    ParseHalf();
    ParseFiveHundred();
    ParseOne();
    ParseFiftyThousand();
  }

  lemma ParseHalf()
    ensures ParseDecimal("0.5") == Some(0.5)
  {
    assert DotIndex("0.5") == 1;
    assert "0.5"[..1] == "0" && "0.5"[2..] == "5";
  }

  lemma ParseOne()
    ensures ParseDecimal("1") == Some(1.0)
  {
    assert DotIndex("1") == 1;
    assert "1"[..1] == "1";
    assert DigitsValue("1") == 1;
  }

  lemma ParseFiveHundred()
    ensures ParseDecimal("500") == Some(500.0)
  {
    assert DotIndex("500") == 3;
    assert "500"[..3] == "500";
    assert "50"[..1] == "5" && "500"[..2] == "50";
    assert DigitsValue("500") == 500;
  }

  lemma ParseFiftyThousand()
    ensures ParseDecimal("50000") == Some(50000.0)
  {
    assert DotIndex("50000") == 5;
    assert "50000"[..5] == "50000";
    assert "50"[..1] == "5" && "500"[..2] == "50" && "5000"[..3] == "500" && "50000"[..4] == "5000";
    assert DigitsValue("50000") == 50000;
  }

  /** Under the defaults the fee is half a percent, capped at 500, and the limit is the closed range [1, 50000]. */
  lemma DefaultRules(cm: ConfigurationManager, amount: real)
    requires cm.configurations == DefaultConfigurations()
    ensures cm.CalculateTransactionFee(amount) == Min(amount * 0.005, 500.0)
    ensures cm.IsWithinLimit(amount) <==> 1.0 <= amount <= 50000.0
  {
    DefaultDoubles(cm);
  }

  /** The configuration demo: 45000 is within limits and costs a fee of 225. */
  lemma DefaultScenario(cm: ConfigurationManager)
    requires cm.configurations == DefaultConfigurations()
    ensures cm.IsWithinLimit(45000.0)
    ensures cm.CalculateTransactionFee(45000.0) == 225.0
  {
    DefaultRules(cm, 45000.0);
  }

  /** The configuration demo's update: the login limit goes from 3 to 5, and the old value is the one reported. */
  method ConfigurationScenario() returns (cm: ConfigurationManager, reportedOld: string)
    ensures reportedOld == "3"
    ensures cm.GetConfigAsInt("max.login.attempts") == 5
    ensures cm.GetConfig("payment.gateway.url") == "https://api.razorpay.com/v1"
  {
    cm := new ConfigurationManager();
    assert cm.GetConfig("max.login.attempts") == "3";
    reportedOld := cm.SetConfig("max.login.attempts", "5");
    assert cm.GetConfig("payment.gateway.url") == "https://api.razorpay.com/v1";
  }

  /** Integer views of the defaults: whole numbers parse, while a decimal, a URL or the sentinel give 0. */
  lemma DefaultIntegers(cm: ConfigurationManager)
    requires cm.configurations == DefaultConfigurations()
    ensures cm.GetConfigAsInt("transaction.daily.limit") == 100000
    ensures cm.GetConfigAsInt("transaction.fee.percent") == 0
    ensures cm.GetConfigAsInt("payment.gateway.url") == 0
    ensures cm.GetConfigAsInt("no.such.key") == 0
  {
    assert cm.GetConfig("transaction.daily.limit") == "100000";
    assert cm.GetConfig("transaction.fee.percent") == "0.5";
    assert cm.GetConfig("payment.gateway.url") == "https://api.razorpay.com/v1";
    assert "no.such.key" !in cm.configurations;
    ParseIntegers();
  }

  /** How `Integer.parseInt` treats the texts read by the integer demo. */
  lemma ParseIntegers()
    ensures ParseInt("100000") == Some(100000)
    ensures ParseInt("0.5").None?
    ensures ParseInt("https://api.razorpay.com/v1").None?
    ensures ParseInt(NOT_FOUND).None?
  {
    assert "10"[..1] == "1" && "100"[..2] == "10" && "1000"[..3] == "100";
    assert "10000"[..4] == "1000" && "100000"[..5] == "10000";
    assert DigitsValue("100000") == 100000;
    assert !IsDigit("0.5"[1]);
    assert !IsDigit('h');
    assert !IsDigit('C');
  }

  /** The listing hides the value of the gateway key. */
  lemma DefaultMasking()
    ensures MaskedView(DefaultConfigurations())["payment.gateway.key"] == MASK
  {
    Text.ContainsInfix("payment.gateway.", "key", "");
    assert "payment.gateway." + "key" + "" == "payment.gateway.key";
  }
}
