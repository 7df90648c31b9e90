/** What every run of order fulfilment keeps. */
module FulfilmentSafety {
  import opened Sequences
  import opened Fulfilment
  import opened FulfilmentSystem
  import Inventory
  import Shipping

  // ---- the messages an order can give rise to ---------------------------------------

  function Captured(o: Order): Message {
    Message(PaymentCaptured(o.id, o.customer, o.sku, o.quantity, o.total), o.id)
  }

  function Declined(o: Order): Message {
    Message(PaymentDeclined(o.id, o.customer, "over the automatic limit"), o.id)
  }

  function Reserved(o: Order): Message {
    Message(StockReserved(o.id, o.customer, o.sku, o.quantity), o.id)
  }

  function Unavailable(o: Order, left: int): Message {
    Message(StockUnavailable(o.id, o.customer, o.sku, left), o.id)
  }

  function Shipped(o: Order): Message {
    Message(OrderShipped(o.id, o.customer, Shipping.Tracking(o.id)), o.id)
  }

  predicate Affordable(o: Order) {
    o.total <= 1_000.0
  }

  /** A message tells of a committed order, under its id, what the order says. */
  predicate Genuine(orders: map<string, Order>, m: Message) {
    && m.event.orderId in orders
    && var o := orders[m.event.orderId];
       && o.id == m.event.orderId
       && match m.event
          case OrderPlaced(_, _, _, _, _) => m == Placed(o)
          case PaymentCaptured(_, _, _, _, _) => Affordable(o) && m == Captured(o)
          case PaymentDeclined(_, _, _) => !Affordable(o) && m == Declined(o)
          case StockReserved(_, _, _, _) => Affordable(o) && m == Reserved(o)
          case StockUnavailable(_, _, _, left) => Affordable(o) && m == Unavailable(o, left) && left < o.quantity
          case OrderShipped(_, _, _) => Affordable(o) && m == Shipped(o)
  }

  /** What must already have been published when a message is. */
  predicate Caused(orders: map<string, Order>, before: seq<Message>, m: Message)
    requires Genuine(orders, m)
  {
    var o := orders[m.event.orderId];
    match m.event
    case OrderPlaced(_, _, _, _, _) => true
    case PaymentCaptured(_, _, _, _, _) => Placed(o) in before
    case PaymentDeclined(_, _, _) => Placed(o) in before
    case StockReserved(_, _, _, _) => Captured(o) in before
    case StockUnavailable(_, _, _, _) => Captured(o) in before
    case OrderShipped(_, _, _) => Reserved(o) in before
  }

  predicate GoodReady(orders: map<string, Order>, log: seq<Message>, x: Item) {
    && Genuine(orders, x.Delivery())
    && match x
       case Outbox(m) => m.event.OrderPlaced?
       case ToCharge(m) => m in log && m.event.OrderPlaced?
       case Charging(m) => m in log && m.event.OrderPlaced?
       case ToReserve(m, _) => m in log && m.event.PaymentCaptured?
       case Holding(m, _, answer) =>
         && m in log
         && m.event.PaymentCaptured?
         && Genuine(orders, answer)
         && (answer.event.StockReserved? || answer.event.StockUnavailable?)
         && answer.event.orderId == m.event.orderId
       case ToShip(m) => m in log && m.event.StockReserved?
       case Sent(_) => false
  }

  predicate GoodItem(orders: map<string, Order>, log: seq<Message>, x: Item) {
    if x.Sent? then AtSend(x.of) && GoodReady(orders, log, x.of) else GoodReady(orders, log, x)
  }

  ghost predicate Causal(s: System) {
    && (forall id :: id in s.orders ==> s.orders[id].id == id)
    && (forall x :: x in s.work ==> GoodItem(s.orders, s.log, x))
    && (forall m :: m in s.log ==> Genuine(s.orders, m))
    && (forall j :: 0 <= j < |s.log| ==> Caused(s.orders, s.log[..j], s.log[j]))
  }

  lemma PublishedIsGood(s: System, x: Item)
    requires AtSend(x) && GoodItem(s.orders, s.log, x)
    ensures Genuine(s.orders, ToSend(x)) && Caused(s.orders, s.log, ToSend(x))
    ensures forall y :: y in Routed(ToSend(x)) ==> y.Delivery() == ToSend(x) && GoodItem(s.orders, [ToSend(x)], y)
  {}

  lemma CausalPublish(s: System, i: nat)
    requires Causal(s) && i < |s.work| && AtSend(s.work[i])
    ensures Causal(Next(s, Act(i)))
  {
    var x, m := s.work[i], ToSend(s.work[i]);
    var s' := Next(s, Act(i));
    assert x in s.work;
    PublishedIsGood(s, x);
    SpliceMembers(s.work, i, [Sent(x)] + Routed(m));
    assert forall l :: l in s.log ==> l in s'.log;
    assert m in s'.log;
    forall y | y in s'.work ensures GoodItem(s'.orders, s'.log, y) {
      assert y in s.work || y == Sent(x) || y in Routed(m);
    }
    forall j | 0 <= j < |s'.log| ensures Caused(s'.orders, s'.log[..j], s'.log[j]) {
      assert s.log[..|s.log|] == s.log;
      assert s'.log[..j] == s.log[..j];
    }
  }

  lemma CausalPut(s: System, s': System, i: nat, items: seq<Item>)
    requires Causal(s) && i < |s.work| && s'.work == Splice(s.work, i, items)
    requires s'.orders == s.orders && s'.log == s.log
    requires forall y :: y in items ==> GoodItem(s.orders, s.log, y)
    ensures Causal(s')
  {
    SpliceMembers(s.work, i, items);
  }

  lemma CausalPlace(s: System, o: Order)
    requires Causal(s) && o.id !in s.orders
    ensures Causal(Next(s, Place(o)))
  {
    var s' := Next(s, Place(o));
    forall m | Genuine(s.orders, m) ensures Genuine(s'.orders, m) {}
    forall x | x in s'.work ensures GoodItem(s'.orders, s'.log, x) {
      assert x in s.work || x == Outbox(Placed(o));
    }
    forall j | 0 <= j < |s.log| ensures Caused(s'.orders, s.log[..j], s.log[j]) {
      assert s.log[j] in s.log && Genuine(s.orders, s.log[j]);
      assert s'.orders[s.log[j].event.orderId] == s.orders[s.log[j].event.orderId];
      assert Caused(s.orders, s.log[..j], s.log[j]);
    }
  }

  lemma CausalStep(s: System, i: nat)
    requires Causal(s) && i < |s.work| && Startable(s.work[i]) && !AtSend(s.work[i])
    ensures Causal(Next(s, Act(i)))
  {
    assert s.work[i] in s.work && GoodItem(s.orders, s.log, s.work[i]);
    CausalPut(s, Next(s, Act(i)), i, Follow(s, s.work[i]));
  }

  lemma CausalFailed(s: System, i: nat)
    requires Causal(s) && i < |s.work| && InHand(s.work[i])
    ensures Causal(Next(s, SendFails(i))) && Causal(Next(s, Redeliver(i)))
  {
    assert s.work[i] in s.work && GoodItem(s.orders, s.log, s.work[i]);
    CausalPut(s, Next(s, Redeliver(i)), i, [Returned(s.work[i])]);
    CausalPut(s, Next(s, SendFails(i)), i, AfterFailure(s.work[i]));
  }

  lemma CausalNext(s: System, a: Action)
    requires Causal(s) && Enabled(s, a)
    ensures Causal(Next(s, a))
  {
    match a
    case Place(o) => CausalPlace(s, o);
    case Act(i) =>
      if AtSend(s.work[i]) {
        CausalPublish(s, i);
      } else {
        CausalStep(s, i);
      }
    case SendFails(i) => CausalFailed(s, i);
    case Redeliver(i) => CausalFailed(s, i);
    case Duplicate(i) => assert s.work[i] in s.work;
    case _ =>
  }

  // ---- nothing committed goes unannounced ----------------------------------------------

  /** Every order was announced, or waits in the outbox. */
  ghost predicate Announced(s: System) {
    forall id :: id in s.orders ==> Placed(s.orders[id]) in s.log || Outbox(Placed(s.orders[id])) in s.work
  }

  lemma AnnouncedNext(s: System, a: Action)
    requires Announced(s) && Enabled(s, a)
    ensures Announced(Next(s, a))
  {
    match a
    case Place(o) => assert Outbox(Placed(o)) in Next(s, a).work;
    case Act(i) => AnnouncedPut(s, i, Follow(s, s.work[i]));
    case SendFails(i) => AnnouncedPut(s, i, AfterFailure(s.work[i]));
    case Redeliver(i) => AnnouncedPut(s, i, [Returned(s.work[i])]);
    case _ =>
  }

  lemma AnnouncedPut(s: System, i: nat, items: seq<Item>)
    requires Announced(s) && i < |s.work|
    ensures forall id :: id in s.orders ==>
              || Placed(s.orders[id]) in s.log
              || Outbox(Placed(s.orders[id])) in Splice(s.work, i, items)
              || s.work[i] == Outbox(Placed(s.orders[id]))
    ensures forall x :: x in items ==> x in Splice(s.work, i, items)
  {
    SpliceMembers(s.work, i, items);
  }
}
