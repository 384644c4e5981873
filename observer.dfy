/**
 * The Observer pattern: a transaction subject keeps an ordered list of
 * subscribed observers, in which the same observer may appear more than
 * once, and on every processed transaction calls each entry's `update`
 * with the transaction's new state.
 *
 * An observer is an object compared by identity, as `List.remove` does for
 * classes without `equals`. What a concrete observer does with an update is
 * only printing, so `update` is recorded as a `Delivery` value.
 */
module Observer {
  import opened Wrappers

  /** A subscriber; SMS, e-mail and push observers differ only in what they print. */
  class NotificationObserver {
    const observerName: string

    constructor(observerName: string)
      ensures this.observerName == observerName
    {
      this.observerName := observerName;
    }
  }

  /** One `update(transactionId, amount, status, message)` call made on `observer`. */
  datatype Delivery = Delivery(
    observer: NotificationObserver,
    transactionId: Option<string>,
    amount: real,
    status: Option<string>,
    message: Option<string>)

  /** `List.remove(o)`: drops the first occurrence of `o`, if any. */
  function RemoveFirst(s: seq<NotificationObserver>, o: NotificationObserver): (r: seq<NotificationObserver>)
    ensures |r| <= |s|
  {
    if s == [] then []
    else if s[0] == o then s[1..]
    else [s[0]] + RemoveFirst(s[1..], o)
  }

  /** An absent observer leaves the list as it is. */
  lemma {:induction false} RemoveAbsent(s: seq<NotificationObserver>, o: NotificationObserver)
    requires o !in s
    ensures RemoveFirst(s, o) == s
  {
    if s != [] {
      RemoveAbsent(s[1..], o);
    }
  }

  /**
   * A present observer is removed at its first position only: everything
   * before and after keeps its order.
   */
  lemma {:induction false} RemovePresent(s: seq<NotificationObserver>, o: NotificationObserver)
      returns (i: nat)
    requires o in s
    ensures i < |s| && s[i] == o && o !in s[..i]
    ensures RemoveFirst(s, o) == s[..i] + s[i + 1..]
  {
    if s[0] == o {
      i := 0;
    } else {
      var j := RemovePresent(s[1..], o);
      i := j + 1;
      assert s[..i] == [s[0]] + s[1..][..j];
      assert s[i + 1..] == s[1..][j + 1..];
    }
  }

  /** `remove` shortens the list by one exactly when the observer is subscribed. */
  lemma RemoveLength(s: seq<NotificationObserver>, o: NotificationObserver)
    ensures o in s ==> |RemoveFirst(s, o)| == |s| - 1
    ensures o !in s ==> RemoveFirst(s, o) == s
  {
    if o in s {
      var i := RemovePresent(s, o);
    } else {
      RemoveAbsent(s, o);
    }
  }

  /** Removing a present observer leaves one occurrence fewer of it and changes no other count. */
  lemma RemoveCounts(s: seq<NotificationObserver>, o: NotificationObserver)
    requires o in s
    ensures multiset(RemoveFirst(s, o)) == multiset(s) - multiset{o}
  {
    var i := RemovePresent(s, o);
    assert s == s[..i] + [o] + s[i + 1..];
    assert multiset(s) == multiset(s[..i]) + multiset{o} + multiset(s[i + 1..]);
  }

  /** Detaching an observer right after attaching it, when it was not yet subscribed, restores the list. */
  lemma {:induction false} AttachThenDetach(s: seq<NotificationObserver>, o: NotificationObserver)
    requires o !in s
    ensures RemoveFirst(s + [o], o) == s
  {
    if s != [] {
      assert (s + [o])[1..] == s[1..] + [o];
      AttachThenDetach(s[1..], o);
    }
  }

  /** `Transaction`, the concrete subject. */
  class Transaction {
    var observers: seq<NotificationObserver>
    var transactionId: Option<string>
    var amount: real
    var status: Option<string>
    var message: Option<string>

    /** An empty list; the state fields start at Java's defaults. */
    constructor()
      ensures observers == []
      ensures transactionId == None && amount == 0.0 && status == None && message == None
    {
      observers := [];
      transactionId := None;
      amount := 0.0;
      status := None;
      message := None;
    }

    /** `attach`: appended at the end, even when already subscribed. */
    method Attach(observer: NotificationObserver)
      modifies this
      ensures observers == old(observers) + [observer]
      ensures transactionId == old(transactionId) && amount == old(amount)
      ensures status == old(status) && message == old(message)
    {
      observers := observers + [observer];
    }

    /** `detach`: the first occurrence removed. */
    method Detach(observer: NotificationObserver)
      modifies this
      ensures observers == RemoveFirst(old(observers), observer)
      ensures transactionId == old(transactionId) && amount == old(amount)
      ensures status == old(status) && message == old(message)
    {
      observers := RemoveFirst(observers, observer);
    }

    /** `notifyObservers`: one update per list entry, in list order, each with the current state. */
    method NotifyObservers() returns (deliveries: seq<Delivery>)
      ensures |deliveries| == |observers|
      ensures forall i :: 0 <= i < |observers| ==>
        deliveries[i] == Delivery(observers[i], transactionId, amount, status, message)
    {
      deliveries := [];
      var i := 0;
      while i < |observers|
        invariant 0 <= i <= |observers|
        invariant |deliveries| == i
        invariant forall j :: 0 <= j < i ==>
          deliveries[j] == Delivery(observers[j], transactionId, amount, status, message)
      {
        deliveries := deliveries + [Delivery(observers[i], transactionId, amount, status, message)];
        i := i + 1;
      }
    }

    /**
     * `processTransaction`: the four fields are stored first, so every
     * subscriber receives exactly the new values; the list is not changed.
     */
    method ProcessTransaction(transactionId: string, amount: real, status: string, message: string)
        returns (deliveries: seq<Delivery>)
      modifies this
      ensures observers == old(observers)
      ensures this.transactionId == Some(transactionId) && this.amount == amount
      ensures this.status == Some(status) && this.message == Some(message)
      ensures |deliveries| == |observers|
      ensures forall i :: 0 <= i < |observers| ==>
        deliveries[i] == Delivery(observers[i], Some(transactionId), amount, Some(status), Some(message))
      ensures Recipients(deliveries) == observers
    {
      this.transactionId := Some(transactionId);
      this.amount := amount;
      this.status := Some(status);
      this.message := Some(message);
      deliveries := NotifyObservers();
      assert Recipients(deliveries) == observers;
    }
  }

  /** The observers that received a batch of deliveries, in order. */
  function Recipients(deliveries: seq<Delivery>): (r: seq<NotificationObserver>)
    ensures |r| == |deliveries|
    ensures forall i :: 0 <= i < |r| ==> r[i] == deliveries[i].observer
  {
    seq(|deliveries|, i requires 0 <= i < |deliveries| => deliveries[i].observer)
  }

  /** The three removals the subscription demo makes, on three distinct observers. */
  lemma DemoRemovals(sms: NotificationObserver, email: NotificationObserver, push: NotificationObserver)
    requires sms != email && sms != push && email != push
    ensures RemoveFirst([sms, email, push], sms) == [email, push]
    ensures RemoveFirst([email, push, sms], sms) == [email, push]
    ensures RemoveFirst([email, push], push) == [email]
  {
    AttachThenDetach([email, push], sms);
    assert [email, push] + [sms] == [email, push, sms];
    AttachThenDetach([email], push);
    assert [email] + [push] == [email, push];
  }

  /**
   * The subscription demo: all three channels, SMS dropped, SMS back at the
   * end of the list, then only e-mail left.
   */
  method SubscriptionScenario()
      returns (sms: NotificationObserver, email: NotificationObserver, push: NotificationObserver,
               first: seq<Delivery>, second: seq<Delivery>, fourth: seq<Delivery>, fifth: seq<Delivery>)
    ensures Recipients(first) == [sms, email, push]
    ensures Recipients(second) == [email, push]
    ensures Recipients(fourth) == [email, push, sms]
    ensures Recipients(fifth) == [email]
    ensures fifth[0].transactionId == Some("TXN005") && fifth[0].status == Some("SUCCESS")
  {
    var transaction := new Transaction();
    sms := new NotificationObserver("SMS Notification");
    email := new NotificationObserver("Email Notification");
    push := new NotificationObserver("Push Notification");
    transaction.Attach(sms);
    transaction.Attach(email);
    transaction.Attach(push);
    assert transaction.observers == [sms, email, push];
    first := transaction.ProcessTransaction("TXN001", 5000.0, "SUCCESS", "Payment received successfully");
    DemoRemovals(sms, email, push);
    transaction.Detach(sms);
    assert transaction.observers == [email, push];
    second := transaction.ProcessTransaction("TXN002", 2500.0, "SUCCESS", "Refund processed");
    var third := transaction.ProcessTransaction("TXN003", 10000.0, "FAILED", "Insufficient balance");
    transaction.Attach(sms);
    assert transaction.observers == [email, push, sms];
    fourth := transaction.ProcessTransaction("TXN004", 7500.0, "SUCCESS", "Bill payment successful");
    transaction.Detach(sms);
    assert transaction.observers == [email, push];
    transaction.Detach(push);
    assert transaction.observers == [email];
    fifth := transaction.ProcessTransaction("TXN005", 1500.0, "SUCCESS", "Subscription renewed");
  }
}
