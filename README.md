# Fintech design-pattern models in Dafny

This project models the computing parts of a Java tutorial repository on
object-oriented design, where each pattern is shown on a small fintech
example:

- **Decorator** (`Decorator`): a base payment wrapped in adjustment layers.
  GST adds 18%. The processing fee adds 0.5%, capped at ₹500. Cashback takes
  off a flat sum but never goes below zero. The international fee adds 2%.
  Each layer changes the running amount and adds a fragment to the
  description.
- **Builder** (`Builder`): the transaction builder. It has fixed defaults,
  fluent setters and an ordered list of validation checks.
- **Singletons**:
  - `Config`: the configuration map, with its not-found sentinel, numeric
    views, capped fee and range check;
  - `Logging`: the append-only audit log, with level filter and export;
  - `Database`: the database connection's flag and counter.
- **Factory** (`Factory`): type-name dispatch to four payment products. Each
  product has its own validation, fee rate and payment result. The wallet's
  balance debit is modelled as a class.
- **Observer** (`Observer`): the subscription list and in-order
  notification.
- **Strategy** (`Strategy`): the replaceable strategy slot of the payment
  context.
- **Adapter** (`Adapter`): currency conversion and status translation in
  front of a legacy bank API.
- **Encapsulation** (`Encapsulation`): the guarded bank account.
- **Interfaces** (`Interfaces`): the validation predicates and the log
  prefix.

Shared helpers live in three modules:

- `Text`: padding, `contains`, ASCII upper-casing and the last-four mask.
- `Numbers`: `Integer.parseInt`, plain-decimal `Double.parseDouble` and
  `%.2f`.
- `Wrappers`: `Option` and `Result`.

Conventions:

- Money is an exact Dafny `real`.
- A Java `null` that the code tests for is `None`.
- An exception the code can throw is a `Failure` carrying the exception's
  name.
- Clock readings are parameters.

Classes model the objects whose fields the Java code reassigns:

- the builder;
- the configuration manager;
- the logger;
- the database connection;
- the wallet;
- the observer subject;
- the payment context;
- the bank account.

Code that only computes is modelled as datatypes, functions and lemmas.

The decorator chain is a recursive datatype. A lemma ties it to a second
view of the same chain: a base payment plus a list of layers, folded left
to right. The fold gives the total and the description.

No check in the code keeps the base amount non-negative, so the model
accepts any amount. Where a
bound needs a non-negative base, the lemma or ensures states that as a
hypothesis.

## Model

| member | source | states |
|---|---|---|
| Decorator.Root | design-patterns/structural/decorator/PaymentDecorator.java:19-28 | every chain of wrappers ends at a base payment |
| Decorator.ProcessPayment | design-patterns/structural/decorator/BasePayment.java:36-39 | a chain over a non-negative base amount never yields a negative total |
| Decorator.GetAmount | design-patterns/structural/decorator/PaymentDecorator.java:58-61 | `getAmount` equals `processPayment` for a base payment, for the delegating default and for every concrete decorator |
| Decorator.CalculateFee | design-patterns/structural/decorator/ProcessingFeeDecorator.java:35-38 | the fee is 0.5% of the amount up to the cap, and exactly 500 from an amount of 100000 on; it never exceeds the cap, and for a non-negative amount it lies between 0 and the amount |
| Decorator.Apply | design-patterns/structural/decorator/CashbackDecorator.java:37-44 | the pass-through layer keeps the amount; surcharges never lower a non-negative amount; the fee adds at most 500; cashback never goes below 0, gives 0 when it covers the amount, and never raises the amount |
| Decorator.WrapLayersOf | design-patterns/structural/decorator/PaymentDecorator.java:26-28 | rebuilding a chain from its base and its list of layers gives the same chain |
| Decorator.LayersOfWrap | design-patterns/structural/decorator/PaymentDecorator.java:26-28 | wrapping a base in a list of layers and reading the layers back gives that list and that base |
| Decorator.RunLayersSnoc | design-patterns/structural/decorator/PaymentDecorator.java:36-50 | adding one outer layer applies it to the running amount and appends its fragment |
| Decorator.ChainAmount | design-patterns/structural/decorator/GSTDecorator.java:34-39 | a chain's total is the base amount put through each layer in wrapping order, each layer working on the running amount rather than the base |
| Decorator.ChainDescription | design-patterns/structural/decorator/GSTDecorator.java:46-51 | a chain's description is the base description followed by each layer's fragment in wrapping order |
| Decorator.TraceSnoc | design-patterns/structural/decorator/PaymentDecorator.java:47-50 | one more layer extends the description by its fragment alone |
| Decorator.ChargeShown | design-patterns/structural/decorator/ProcessingFeeDecorator.java:45-63 | the amount in each surcharge's description is exactly what that layer added to the total |
| Decorator.CashbackShowsConfigured | design-patterns/structural/decorator/CashbackDecorator.java:51-55 | the cashback fragment shows the configured cashback, whatever the amount and even when the floor applies |
| Decorator.CurrencyOnlyLabels | design-patterns/structural/decorator/InternationalFeeDecorator.java:36-55 | the target currency changes the description but never the amount |
| Decorator.BaseDescription | design-patterns/structural/decorator/BasePayment.java:46-49 | the base description is "Base Payment (", the payment type, then ")", so the type can be read back from it |
| Decorator.GetDescription | design-patterns/structural/decorator/PaymentDecorator.java:47-50 | every chain's description starts with "Base Payment (type)" and with the description of the payment it wraps |
| Decorator.Fragment | design-patterns/structural/decorator/PaymentDecorator.java:47-50 | a layer adds no text exactly when it is the pass-through default |
| Decorator.FragmentSign | design-patterns/structural/decorator/CashbackDecorator.java:51-55 | GST, the processing fee and the international fee are shown as " + …", the cashback as " - …" |
| Decorator.OrderMattersOnlyAboveCap | design-patterns/structural/decorator/DecoratorPatternDemo.java:155-168 | for every amount x, GST-then-fee and fee-then-GST agree exactly when 0.0059·x ≤ 500; above that, fee-then-GST costs more |
| Decorator.OrderShowsInDescription | design-patterns/structural/decorator/DecoratorPatternDemo.java:139-152 | the two orders always give different descriptions |
| Decorator.ScenarioBasic | design-patterns/structural/decorator/DecoratorPatternDemo.java:41-52 | base 10000 stays 10000 with description "Base Payment (UPI)" |
| Decorator.ScenarioGst | design-patterns/structural/decorator/DecoratorPatternDemo.java:57-70 | base 10000 with GST gives 11800 and the description "Base Payment (Card) + GST @18% (₹1800.00)" |
| Decorator.Fmt1800 | design-patterns/structural/decorator/GSTDecorator.java:48-50 | 1800 formats as "1800.00" |
| Decorator.ScenarioGstAndFee | design-patterns/structural/decorator/DecoratorPatternDemo.java:75-88 | GST then fee on 10000 gives 11859, with a fee of 59 |
| Decorator.ScenarioFullDecoration | design-patterns/structural/decorator/DecoratorPatternDemo.java:94-108 | GST, fee and a cashback of 500 on 10000 give 11359 |
| Decorator.ScenarioInternational | design-patterns/structural/decorator/DecoratorPatternDemo.java:114-129 | GST, fee and the international fee on 10000 give 12096.18 |
| Decorator.ScenarioOrdering | design-patterns/structural/decorator/DecoratorPatternDemo.java:134-168 | both orders give 11859 on 10000, and GST after the fee is charged on 10050 |
| Decorator.SurchargeAndCashbackDoNotCommute | design-patterns/structural/decorator/CashbackDecorator.java:37-44 | GST then cashback gives 11300, while cashback then GST gives 11210 |
| Decorator.LargeCashbackFloorsAtZero | design-patterns/structural/decorator/CashbackDecorator.java:39-43 | a cashback of 500 on 100 yields 0 |
| Builder.Validate | design-patterns/creational/builder/Transaction.java:264-283 | the build checks pass exactly when the id, currency, sender and receiver are non-null and non-empty, the amount is positive and the sender differs from the receiver; otherwise the answer is one of the six messages |
| Builder.FirstFailureWins | design-patterns/creational/builder/Transaction.java:264-282 | the first failing check decides the message: a missing id is reported even with a bad amount, and a bad amount before anything later |
| Builder.ConvertedAmount | design-patterns/creational/builder/Transaction.java:78-80 | the default rate of 1.0 keeps the amount; a non-negative amount and rate give a non-negative result |
| Builder.PadRightOrNA | design-patterns/creational/builder/Transaction.java:124-128 | `null` shows as "N/A", and the result is exactly `width` characters |
| Builder.TransactionBuilder.constructor | design-patterns/creational/builder/Transaction.java:165-185 | the required fields are as given; the optional ones are "UNKNOWN", "PENDING", "", "", true, 1.0, "GENERAL" and the current time |
| Builder.TransactionBuilder.PaymentMethod | design-patterns/creational/builder/Transaction.java:190-193 | sets only the payment method and returns the same builder |
| Builder.TransactionBuilder.Status | design-patterns/creational/builder/Transaction.java:198-201 | sets only the status and returns the same builder |
| Builder.TransactionBuilder.Timestamp | design-patterns/creational/builder/Transaction.java:206-209 | sets only the timestamp and returns the same builder |
| Builder.TransactionBuilder.Note | design-patterns/creational/builder/Transaction.java:214-217 | sets only the note and returns the same builder |
| Builder.TransactionBuilder.Location | design-patterns/creational/builder/Transaction.java:222-225 | sets only the location and returns the same builder |
| Builder.TransactionBuilder.Refundable | design-patterns/creational/builder/Transaction.java:230-233 | sets only the refundable flag and returns the same builder |
| Builder.TransactionBuilder.ConversionRate | design-patterns/creational/builder/Transaction.java:238-241 | sets only the conversion rate and returns the same builder |
| Builder.TransactionBuilder.Category | design-patterns/creational/builder/Transaction.java:246-249 | sets only the category and returns the same builder |
| Builder.TransactionBuilder.Build | design-patterns/creational/builder/Transaction.java:255-259 | succeeds exactly when every check passes, with a transaction that copies every builder field; otherwise fails with the first failing check's message |
| Builder.FluentChain | design-patterns/creational/builder/Transaction.java:43-57 | chained setters each touch their own field, the last call wins, and unset fields keep their defaults |
| Builder.ValidationScenario | design-patterns/creational/builder/BuilderPatternDemo.java:186-211 | a negative amount, the same sender and receiver, and an empty id are each rejected with their own message |
| Config.DisplayValue | design-patterns/creational/singleton/ConfigurationManager.java:124-129 | a key containing "key" or "password" shows "***MASKED***"; any other key shows its value verbatim |
| Config.MaskedView | design-patterns/creational/singleton/ConfigurationManager.java:123-131 | the listing has the same keys as the map, each with its display value |
| Config.ConfigurationManager.constructor | design-patterns/creational/singleton/ConfigurationManager.java:49-72 | the manager starts with exactly the thirteen default settings |
| Config.ConfigurationManager.GetConfig | design-patterns/creational/singleton/ConfigurationManager.java:77-79 | the stored value, or "CONFIGURATION_NOT_FOUND" for an absent key |
| Config.ConfigurationManager.GetConfigAsInt | design-patterns/creational/singleton/ConfigurationManager.java:84-91 | the parsed 32-bit integer when the text parses, 0 otherwise |
| Config.ConfigurationManager.GetConfigAsDouble | design-patterns/creational/singleton/ConfigurationManager.java:96-103 | the parsed number when the text parses, 0.0 otherwise |
| Config.ConfigurationManager.CalculateTransactionFee | design-patterns/creational/singleton/ConfigurationManager.java:139-145 | the configured percentage of the amount or the configured maximum, whichever is smaller |
| Config.ConfigurationManager.IsWithinLimit | design-patterns/creational/singleton/ConfigurationManager.java:150-155 | an amount is accepted only when the configured minimum does not exceed the configured single limit |
| Config.LimitIsAnInterval | design-patterns/creational/singleton/ConfigurationManager.java:150-155 | both bounds are inclusive, so any amount between two accepted amounts is accepted too |
| Config.ConfigurationManager.SetConfig | design-patterns/creational/singleton/ConfigurationManager.java:108-114 | stores the value under the key and leaves every other key as it was; reports the replaced value, or "N/A" for a new key |
| Config.SetThenGet | design-patterns/creational/singleton/ConfigurationManager.java:108-114 | after an update, the key answers the new value and every other key answers what it did before |
| Config.DefaultDoubles | design-patterns/creational/singleton/ConfigurationManager.java:55-62 | under the defaults the fee percentage is 0.5, the maximum fee 500, the minimum amount 1 and the single limit 50000 |
| Config.DefaultRules | design-patterns/creational/singleton/ConfigurationManager.java:150-155 | under the defaults the fee is min(0.005·a, 500), and an amount is within limits exactly when 1 ≤ a ≤ 50000 |
| Config.DefaultScenario | design-patterns/creational/singleton/SingletonPatternDemo.java:84-91 | 45000 is within limits and costs a fee of 225 |
| Config.ConfigurationScenario | design-patterns/creational/singleton/SingletonPatternDemo.java:94-96 | raising the login limit to 5 reports the old value 3, and the new value reads back as 5 |
| Config.DefaultIntegers | design-patterns/creational/singleton/ConfigurationManager.java:84-91 | "100000" reads as 100000, while "0.5", a URL and a missing key read as 0 |
| Config.DefaultMasking | design-patterns/creational/singleton/ConfigurationManager.java:127-128 | the gateway key's value is masked in the listing |
| Logging.Tag | design-patterns/creational/singleton/Logger.java:130 | the level marker is the level in square brackets |
| Logging.Entry | design-patterns/creational/singleton/Logger.java:81 | an entry starts with '[' and ends with its message |
| Logging.TransactionMessage | design-patterns/creational/singleton/Logger.java:68-74 | the message starts with "Transaction[ID=" and ends with ']' |
| Logging.ExportText | design-patterns/creational/singleton/Logger.java:140-151 | the export starts with the header and ends with one line per entry |
| Logging.Matching | design-patterns/creational/singleton/Logger.java:127-135 | the filter never keeps more entries than the log has |
| Logging.MatchingAppend | design-patterns/creational/singleton/Logger.java:129-133 | filtering keeps the original order: the filter of two logs joined is the two filters joined |
| Logging.MatchingMembers | design-patterns/creational/singleton/Logger.java:130-132 | an entry is returned exactly when it is in the log and contains the marker |
| Logging.LinesAppend | design-patterns/creational/singleton/Logger.java:146-148 | the export of a log split anywhere is the exports of the two parts one after the other |
| Logging.EntryIsALine | design-patterns/creational/singleton/Logger.java:146-148 | every entry appears in the export on a line of its own, in insertion order |
| Logging.Logger.constructor | design-patterns/creational/singleton/Logger.java:38-42 | the log starts empty |
| Logging.Logger.Log | design-patterns/creational/singleton/Logger.java:79-85 | appends exactly one entry "[timestamp] [LEVEL] message" at the end; earlier entries are untouched |
| Logging.Logger.Info | design-patterns/creational/singleton/Logger.java:47-49 | appends one INFO entry |
| Logging.Logger.Warn | design-patterns/creational/singleton/Logger.java:54-56 | appends one WARN entry |
| Logging.Logger.Error | design-patterns/creational/singleton/Logger.java:61-63 | appends one ERROR entry |
| Logging.Logger.LogTransaction | design-patterns/creational/singleton/Logger.java:68-74 | appends one TRANSACTION entry whose message is "Transaction[ID=…, Type=…, Amount=₹x.xx, Status=…]" |
| Logging.Logger.GetLogCount | design-patterns/creational/singleton/Logger.java:111-113 | the number of entries held |
| Logging.Logger.ClearLogs | design-patterns/creational/singleton/Logger.java:118-122 | empties the log and reports how many entries it removed |
| Logging.Logger.GetLogsByLevel | design-patterns/creational/singleton/Logger.java:127-135 | returns exactly the entries containing "[LEVEL]", in log order, without changing the log |
| Logging.Logger.ExportLogs | design-patterns/creational/singleton/Logger.java:140-151 | the header, the export time, "Total Entries: n", a blank line, then each entry and a newline in insertion order |
| Logging.LoggedEntryMatchesOwnLevel | design-patterns/creational/singleton/Logger.java:81 | an entry logged at a level is found by filtering on that level |
| Logging.MessageMentionMatches | design-patterns/creational/singleton/Logger.java:130 | the filter is a substring match, so a message that mentions "[LEVEL]" is found for that level too |
| Logging.LogThenFilter | design-patterns/creational/singleton/Logger.java:79-135 | logging then filtering on the same level gives the earlier matches followed by the new entry |
| Database.Int32Inc | design-patterns/creational/singleton/DatabaseConnection.java:81 | Java's `int` increment adds one below `Integer.MAX_VALUE` and wraps to `Integer.MIN_VALUE` at it |
| Database.MaskConnectionString | design-patterns/creational/singleton/DatabaseConnection.java:101-106 | a string longer than 20 characters shows its first 20 and then "***"; a shorter one shows unchanged |
| Database.MaskIdempotent | design-patterns/creational/singleton/DatabaseConnection.java:101-106 | masking a masked string changes nothing |
| Database.MaskedDefault | design-patterns/creational/singleton/DatabaseConnection.java:29-34 | the configured connection string shows as "jdbc:postgresql://fi***" |
| Database.DatabaseConnection.constructor | design-patterns/creational/singleton/DatabaseConnection.java:27-31 | starts disconnected with a counter of 0 |
| Database.DatabaseConnection.Connect | design-patterns/creational/singleton/DatabaseConnection.java:62-70 | afterwards connected; the counter is unchanged and a second call changes nothing |
| Database.DatabaseConnection.ExecuteTransaction | design-patterns/creational/singleton/DatabaseConnection.java:75-86 | when disconnected, no field changes; when connected, the counter moves on by one, and the flag never changes |
| Database.ConnectionScenario | design-patterns/creational/singleton/SingletonPatternDemo.java:48-59 | connect, execute, connect, execute, execute leaves the counter at 3 |
| Database.DisconnectedScenario | design-patterns/creational/singleton/DatabaseConnection.java:76-79 | a transaction before connecting is not counted |
| Factory.Validate | design-patterns/creational/factory/UpiPaymentMethod.java:28-36 | a valid UPI id is present and non-empty; a valid card has a number long enough to mask; valid net banking has an 11-character IFSC code; a valid wallet has a 10-character phone number |
| Factory.PaymentResult | design-patterns/creational/factory/WalletPaymentMethod.java:54-86 | true only for valid details; only valid net banking can throw; a wallet answers true only when its balance covers the amount plus the fee |
| Factory.FromDetails | design-patterns/creational/factory/PaymentMethodFactory.java:41-53 | UPI, card and net banking always give a product; the wallet branch throws `NumberFormatException` only when the balance text does not parse |
| Factory.ValidationRules | design-patterns/creational/factory/CardPaymentMethod.java:36-49 | UPI needs '@' in a non-null id; the card check ignores the holder and expiry and fails on any number that is not 16 characters; net banking ignores the account number; the wallet check ignores the balance |
| Factory.PaymentType | design-patterns/creational/factory/NetBankingPaymentMethod.java:83-86 | the type name is one of "UPI", "CARD", "NET_BANKING" and "WALLET" |
| Factory.TransactionFee | design-patterns/creational/factory/CardPaymentMethod.java:97-100 | the fee is 0 for UPI, 2% for cards, 1% for net banking and 0.5% for wallets; it is never above 2% of a non-negative amount |
| Factory.MaskCard | design-patterns/creational/factory/CardPaymentMethod.java:64 | "**** **** **** " followed by the number from index 12; a shorter number throws |
| Factory.MaskAccount | design-patterns/creational/factory/NetBankingPaymentMethod.java:60 | "XXXX" followed by the account's last four characters; a shorter account throws |
| Factory.PaymentOutcome | design-patterns/creational/factory/NetBankingPaymentMethod.java:53-76 | UPI and cards pay exactly when valid, for any amount; net banking pays exactly when valid with an account of at least four characters, and otherwise throws on a short account; a wallet pays exactly when valid and its balance covers the amount plus 0.5%; only valid net banking can throw |
| Factory.Get | design-patterns/creational/factory/PaymentMethodFactory.java:67-99 | a missing detail key reads as `null` rather than as an error |
| Factory.CreatePaymentMethod | design-patterns/creational/factory/PaymentMethodFactory.java:33-59 | an unknown type gives `null` without reading the details; a known type with `null` details throws; a product is only ever built for a known type |
| Factory.CaseInsensitive | design-patterns/creational/factory/PaymentMethodFactory.java:35-36 | the product does not depend on the letter case of the type name |
| Factory.DispatchTable | design-patterns/creational/factory/PaymentMethodFactory.java:41-53 | UPI, CARD, NET_BANKING or NETBANKING, and WALLET each give their own product, whose type name is the dispatched name (NET_BANKING for either spelling) |
| Factory.UnknownTypeScenario | design-patterns/creational/factory/FactoryPatternDemo.java:99-106 | "CRYPTOCURRENCY" with `null` details gives `null` |
| Factory.MissingDetails | design-patterns/creational/factory/PaymentMethodFactory.java:107-113 | an empty map gives a UPI product with a `null` id, and a wallet with `null` fields and balance 0 |
| Factory.UnparsableBalance | design-patterns/creational/factory/PaymentMethodFactory.java:110 | a balance text that does not parse makes the wallet creation throw |
| Factory.Put | design-patterns/creational/factory/PaymentMethodFactory.java:122-123 | after a put, the key reads back as the value and every other key as before |
| Factory.CreateUpiPayment | design-patterns/creational/factory/PaymentMethodFactory.java:121-125 | the UPI id reaches the product unchanged |
| Factory.CreateCardPayment | design-patterns/creational/factory/PaymentMethodFactory.java:136-144 | the four card arguments reach the product unchanged |
| Factory.CreateNetBankingPayment | design-patterns/creational/factory/PaymentMethodFactory.java:154-161 | the three bank arguments reach the product unchanged |
| Factory.WalletCreatorAgrees | design-patterns/creational/factory/PaymentMethodFactory.java:171-178 | for any balance text that parses back to the balance, the factory builds the wallet the convenience creator returns |
| Factory.FeeComparison | design-patterns/creational/factory/FactoryPatternDemo.java:129-140 | on 10000 the fees are 0, 200, 100 and 50 |
| Factory.WalletPaymentMethod.constructor | design-patterns/creational/factory/WalletPaymentMethod.java:22-26 | the wallet holds the given provider, phone number and balance |
| Factory.WalletPaymentMethod.ProcessPayment | design-patterns/creational/factory/WalletPaymentMethod.java:53-86 | with valid details and enough balance, debits exactly the amount plus the fee and answers true, leaving the balance non-negative; otherwise answers false with the balance unchanged |
| Factory.WalletScenarios | design-patterns/creational/factory/FactoryPatternDemo.java:113-122 | a balance of 500 cannot pay 1000 and stays 500; a balance of 10000 pays 3000 and keeps 6985 |
| Observer.NotificationObserver.constructor | design-patterns/behavioral/observer/NotificationObserver.java:19-37 | an observer carries the name its `getObserverName` reports |
| Observer.RemoveFirst | design-patterns/behavioral/observer/Transaction.java:54 | removal never lengthens the list |
| Observer.RemoveLength | design-patterns/behavioral/observer/Transaction.java:52-56 | detaching shortens the list by one exactly when the observer is subscribed, and otherwise leaves it as it was |
| Observer.RemoveAbsent | design-patterns/behavioral/observer/Transaction.java:52-56 | detaching an observer that is not subscribed changes nothing |
| Observer.RemovePresent | design-patterns/behavioral/observer/Transaction.java:52-56 | detaching removes the first occurrence only and keeps the others in order |
| Observer.RemoveCounts | design-patterns/behavioral/observer/Transaction.java:54 | detaching leaves one occurrence fewer of that observer and the same number of every other |
| Observer.AttachThenDetach | design-patterns/behavioral/observer/Transaction.java:41-56 | detaching a newly attached observer restores the list |
| Observer.Transaction.constructor | design-patterns/behavioral/observer/Transaction.java:32-34 | the subscription list starts empty |
| Observer.Transaction.Attach | design-patterns/behavioral/observer/Transaction.java:41-45 | appends at the end, duplicates allowed, with nothing else changed |
| Observer.Transaction.Detach | design-patterns/behavioral/observer/Transaction.java:52-56 | removes the first occurrence, with nothing else changed |
| Observer.Transaction.NotifyObservers | design-patterns/behavioral/observer/Transaction.java:62-72 | one update per list entry in list order, each with the current state, so an observer listed twice is notified twice |
| Observer.Transaction.ProcessTransaction | design-patterns/behavioral/observer/Transaction.java:83-101 | stores the four values before notifying, so every subscriber receives exactly the new values; the recipients are the subscribers in list order, and the list does not change |
| Observer.Recipients | design-patterns/behavioral/observer/Transaction.java:67-69 | the observers of a batch of deliveries, in delivery order |
| Observer.SubscriptionScenario | design-patterns/behavioral/observer/ObserverPatternDemo.java:32-92 | recipients are SMS, e-mail and push; then e-mail and push; then e-mail, push and SMS; then e-mail alone |
| Strategy.PaymentMethodName | design-patterns/behavioral/strategy/CardPayment.java:65-68 | the names are "UPI", "Credit/Debit Card" and "Net Banking" |
| Strategy.MaskLastFour | design-patterns/behavioral/strategy/NetBankingPayment.java:38 | the mask followed by the last four characters; `null` throws a null-pointer exception and fewer than four characters an index exception |
| Strategy.MaskedCard | design-patterns/behavioral/strategy/CardPayment.java:42 | succeeds exactly for a non-null number of at least four characters, giving "**** **** **** " and its last four |
| Strategy.MaskedAccount | design-patterns/behavioral/strategy/NetBankingPayment.java:38 | succeeds exactly for a non-null account of at least four characters, giving "XXXX" and its last four |
| Strategy.CvvValid | design-patterns/behavioral/strategy/CardPayment.java:45 | a valid CVV is non-null with three characters, and a `null` CVV is never valid |
| Strategy.Pay | design-patterns/behavioral/strategy/CardPayment.java:37-58 | `pay` answers true unless masking throws; UPI always answers true |
| Strategy.CardPayIgnoresCvvAndAmount | design-patterns/behavioral/strategy/CardPayment.java:45-57 | a card with four or more digits pays for any amount, whether its CVV is valid or not |
| Strategy.PaymentContext.constructor | design-patterns/behavioral/strategy/PaymentContext.java:24-26 | the slot holds the given strategy |
| Strategy.PaymentContext.SetPaymentStrategy | design-patterns/behavioral/strategy/PaymentContext.java:34-37 | the slot is replaced, and a `null` strategy then throws |
| Strategy.PaymentContext.ExecutePayment | design-patterns/behavioral/strategy/PaymentContext.java:46-56 | with an empty slot, false without delegating; otherwise exactly the current strategy's `pay` result |
| Strategy.PaymentContext.GetCurrentPaymentMethod | design-patterns/behavioral/strategy/PaymentContext.java:63-65 | the strategy's name, or "None" for an empty slot |
| Strategy.SwitchingScenario | design-patterns/behavioral/strategy/StrategyPatternDemo.java:31-90 | each payment goes to the strategy set last, and all five succeed |
| Strategy.EmptyContextScenario | design-patterns/behavioral/strategy/PaymentContext.java:47-50 | an empty slot answers false and reports "None" |
| Adapter.ToInr | design-patterns/structural/adapter/BankAPIAdapter.java:22-26 | exactly "INR" is forwarded unchanged; every other currency is multiplied by 83 |
| Adapter.ProcessPayment | design-patterns/structural/adapter/BankAPIAdapter.java:17-32 | always true; the legacy transfer runs from the customer to the fixed merchant account for the converted amount |
| Adapter.MapStatus | design-patterns/structural/adapter/BankAPIAdapter.java:40 | "COMPLETED" becomes "SUCCESS", any other code passes through, and "COMPLETED" never comes out |
| Adapter.GetTransactionStatus | design-patterns/structural/adapter/BankAPIAdapter.java:34-41 | since the legacy API always answers "COMPLETED", the adapter always reports "SUCCESS" |
| Adapter.RefundPayment | design-patterns/structural/adapter/BankAPIAdapter.java:43-47 | the legacy reversal's answer, which is true |
| Adapter.MapStatusIdempotent | design-patterns/structural/adapter/BankAPIAdapter.java:40 | translating a translated status changes nothing |
| Adapter.ConversionScenario | design-patterns/structural/adapter/AdapterPatternDemo.java:30-41 | 100 USD reaches the legacy bank as 8300 and 3000 INR as 3000; a lower-case "inr" is converted too |
| Encapsulation.BankAccount.constructor | pillars/EncapsulationDemo.java:45-51 | the balance is the initial amount when positive, 0 otherwise |
| Encapsulation.BankAccount.GetBalance | pillars/EncapsulationDemo.java:73-75 | the balance, never negative |
| Encapsulation.BankAccount.SetAccountHolderName | pillars/EncapsulationDemo.java:64-67 | changes the name only |
| Encapsulation.BankAccount.Deposit | pillars/EncapsulationDemo.java:81-88 | adds a positive amount and refuses anything else; the balance stays non-negative |
| Encapsulation.BankAccount.Withdraw | pillars/EncapsulationDemo.java:94-101 | takes a positive amount the balance covers and refuses anything else; the balance stays non-negative |
| Encapsulation.AccountScenario | pillars/EncapsulationDemo.java:109-127 | from 1000: +500, a refused −100, −200 and a refused −5000 leave 1300 |
| Interfaces.ValidatePayment | lld/InterfaceDemo.java:92-145 | the secure processor always validates; a valid card number has 16 characters; a valid PayPal e-mail is non-empty |
| Interfaces.GetLogPrefix | lld/InterfaceDemo.java:60-62 | the prefix is the level marker "[LOG]" in the logger's bracket format |
| Interfaces.PayPalNeedsAt | lld/InterfaceDemo.java:115-119 | a PayPal payment validates exactly when the e-mail contains '@' |
| Interfaces.LogLine | lld/InterfaceDemo.java:147-151 | the logged line is "[LOG]", a space, then the message |
| Interfaces.CardEnding | lld/InterfaceDemo.java:86-89 | the card's last four characters; a number shorter than four throws |
| Interfaces.ValidCardShowsEnding | lld/InterfaceDemo.java:86-95 | a card that validates always shows digits 12 to 15 |
| Interfaces.DemoValidations | lld/InterfaceDemo.java:174-194 | the demo's card, PayPal and secure-processor payments all validate |
| Text.PadRight | design-patterns/structural/decorator/DecoratorPatternDemo.java:214-219 | exactly `width` characters: the first `width` of the text, or the text followed by spaces |
| Text.CenterText | design-patterns/structural/decorator/DecoratorPatternDemo.java:209-212 | exactly `width` characters, with the text at offset (width − length)/2, spaces around it, and a right margin equal to the left or one more |
| Text.Contains | design-patterns/creational/factory/UpiPaymentMethod.java:30 | a text contains only needles no longer than itself, and always contains its own prefixes |
| Text.ContainsIff | design-patterns/creational/factory/UpiPaymentMethod.java:30 | `contains` holds exactly when the needle occurs at some position |
| Text.ContainsChar | lld/InterfaceDemo.java:118 | containing a one-character string is membership of that character |
| Text.ToUpper | design-patterns/creational/factory/PaymentMethodFactory.java:36 | ASCII upper-casing keeps the length and maps each character by itself |
| Text.ToUpperIdempotent | design-patterns/creational/factory/PaymentMethodFactory.java:36 | upper-casing twice is upper-casing once |
| Text.LastFour | design-patterns/behavioral/strategy/CardPayment.java:42 | the last four characters exist exactly when there are at least four, and the string ends with them |
| Numbers.ParseInt | design-patterns/creational/singleton/ConfigurationManager.java:87 | only an optionally signed run of digits within the 32-bit range parses |
| Numbers.ParseIntUnsigned | design-patterns/creational/singleton/ConfigurationManager.java:87 | any run of digits up to `Integer.MAX_VALUE` parses to its value, leading zeros included |
| Numbers.ParseIntOverflow | design-patterns/creational/singleton/ConfigurationManager.java:87 | a run of digits above `Integer.MAX_VALUE` does not parse |
| Numbers.ParseIntSigned | design-patterns/creational/singleton/ConfigurationManager.java:87 | a '+' or '-' followed by digits within the range parses to the signed value |
| Numbers.ParseIntOfNegatedNatToString | design-patterns/creational/singleton/ConfigurationManager.java:87 | "-" followed by the decimal text of any n up to 2147483648 parses to −n |
| Numbers.ParseIntEdgeCases | design-patterns/creational/singleton/ConfigurationManager.java:87 | "007" parses to 7 and "-0" to 0, while "-" and "" do not parse |
| Numbers.ParseDecimal | design-patterns/creational/singleton/ConfigurationManager.java:99 | a parsed value is never negative without a leading '-' and never positive with one |
| Numbers.ParseDecimalWhole | design-patterns/creational/singleton/ConfigurationManager.java:99 | a run of digits parses as a double to its integer value |
| Numbers.ParseIntOfNatToString | design-patterns/creational/singleton/ConfigurationManager.java:87 | the decimal text of any int-sized natural number parses back to that number |
| Numbers.Fmt2 | design-patterns/structural/decorator/GSTDecorator.java:48-50 | two decimals after a point, with no minus sign for a non-negative value |

## Left out

- Console output is not modelled. This covers the boxes, banners and narration of every class, the demo `main` methods, `displayLogs`, `getConnectionStats` and `printReceipt`. The demos serve only as sources of expected values.
- The Java `double` type is modelled as an exact `real`. IEEE rounding and the 0.01 tolerance in the ordering demo are not modelled.
- Numbers.Fmt2 rounds the exact value half up. Grouping separators (`%,.2f`) and `Double.toString` text are not modelled.
- Numbers.ParseInt and Numbers.ParseDecimal accept only plain decimal text. Exponents, hexadecimal, "NaN", "Infinity", the `d`/`f` type suffixes that `Double.parseDouble` accepts and surrounding blanks are not modelled. Numbers.ParseInt reads ASCII digits only; the non-ASCII digits `Integer.parseInt` also accepts are not modelled.
- Clock readings (`LocalDateTime.now()` and the formatted timestamps) are parameters.
- The UUIDs of `ModernPaymentGateway` are not modelled; that class is not part of this model.
- The following singleton mechanics are not modelled:
  - lazy holder loading;
  - enum guarantees;
  - `getInstance`;
  - `clone()` prevention;
  - the four-thread demo.
- The iteration order of the configuration `HashMap` is not modelled; only the masking rule is.
- The SMS, e-mail and push observers only print, so their `update` is recorded as a `Delivery` value.
- The strategy `UpiPayment` is modelled as a constant `true` with the name "UPI".
- `LegacyBankAPI` is a stub:
  - the status is always "COMPLETED";
  - a reversal always succeeds;
  - `makeTransaction` is recorded as a value;
  - `generateStatement` and `requestStatement` only print.
- The abstraction, inheritance, composition, polymorphism and LLD-basics demos are not part of this model. They narrate or print and compute nothing checked here.
- Text.CenterText requires the text to fit the width. For a longer text `" ".repeat` throws in the source, and that exception is not modelled.
- Text.ToUpper upper-cases ASCII letters only. Locale rules are not modelled.
- Factory.CreatePaymentMethod takes a non-null type name. A `null` type throws in `toUpperCase` in the source, which is not modelled.
- Factory.CreatePaymentMethod cannot express a detail map that stores `null` as a value, since `get` cannot tell that apart from a missing key. The case where `getOrDefault` hands such a `null` wallet balance to `Double.parseDouble` is not modelled.
- Factory.CreateWalletPayment builds the wallet directly. It treats the balance's trip through `String.valueOf` and `Double.parseDouble` as the identity. Factory.WalletCreatorAgrees shows that the factory route gives the same product for any text that parses back to the balance.
- Adapter.ProcessPayment takes a non-null currency. A `null` currency throws in `equals` in the source, which is not modelled.
- Interfaces.CardEnding and Interfaces.ValidatePayment take a non-null card number or e-mail. `null` throws in the source, which is not modelled.
- Logging.Logger.GetLogCount is unbounded. The Java `int` size of the list is not modelled, because a list cannot hold more than `Integer.MAX_VALUE` entries anyway.
- Logging.TransactionMessage takes non-null strings. `String.format` would print "null" for a `null` argument, which is not modelled.
- Builder.TransactionBuilder.Note and the other optional setters take a `string`, so `note(null)` cannot be expressed; the `null` case of `padRightOrNA` is covered by Builder.PadRightOrNA alone.
- Builder's `displayTransaction` box is console output. Only its `padRight`, `centerText` and `getConvertedAmount` helpers are modelled.
