/** Charging behind a store of claims: a claim is won, its outcome sent, the claim confirmed. */
module Payments {
  import opened Fulfilment

  const AUTOMATIC_LIMIT := 1_000.0

  /** A claim is leased until it is confirmed. An expired lease, like a confirmed key
      past its retention, is a key that is not in the store. */
  datatype Claim = Leased | Confirmed

  datatype Payments = Payments(store: map<string, Claim>, captured: nat, declined: nat, duplicatesRefused: nat) {

    /** The first await: win the claim, or count a duplicate. */
    function FirstTime(orderId: string): Payments {
      if orderId in store then
        this.(duplicatesRefused := duplicatesRefused + 1)
      else
        this.(store := store[orderId := Leased])
    }

    /** The outcome's send returned: the counter, then the confirmation. */
    function Sent(outcome: Message, orderId: string): Payments {
      this.(captured := captured + (if outcome.event.PaymentCaptured? then 1 else 0),
            declined := declined + (if outcome.event.PaymentCaptured? then 0 else 1),
            store := store[orderId := Confirmed])
    }
  }

  function Outcome(m: Message): (outcome: Message)
    requires m.event.OrderPlaced?
    ensures outcome.event.PaymentCaptured? || outcome.event.PaymentDeclined?
    ensures outcome.event.PaymentDeclined? <==> m.event.total > 1_000.0
    ensures outcome.correlation == m.correlation && outcome.event.orderId == m.event.orderId
  {
    var order := m.event;
    if order.total > AUTOMATIC_LIMIT then
      Message(PaymentDeclined(order.orderId, order.customer, "over the automatic limit"), m.correlation)
    else
      Message(PaymentCaptured(order.orderId, order.customer, order.sku, order.quantity, order.total), m.correlation)
  }

  class PaymentsService {
    var store: map<string, Claim>
    var captured: nat
    var declined: nat
    var duplicatesRefused: nat

    ghost function View(): Payments
      reads this
    {
      Payments(store, captured, declined, duplicatesRefused)
    }

    constructor ()
      ensures View() == Payments(map[], 0, 0, 0)
    {
      store, captured, declined, duplicatesRefused := map[], 0, 0, 0;
    }

    /** The handler up to its send: nothing to send when the claim is lost. */
    method Charge(m: Message) returns (first: bool, outcome: Message)
      requires m.event.OrderPlaced?
      modifies this
      ensures first <==> m.event.orderId !in old(store)
      ensures View() == old(View()).FirstTime(m.event.orderId)
      ensures duplicatesRefused == old(duplicatesRefused) + (if first then 0 else 1)
      ensures store == if first then old(store)[m.event.orderId := Leased] else old(store)
      ensures captured == old(captured) && declined == old(declined)
      ensures first ==> outcome == Outcome(m)
    {
      var order := m.event;
      outcome := m;
      if order.orderId in store {
        duplicatesRefused := duplicatesRefused + 1;
        return false, outcome;
      }
      store := store[order.orderId := Leased];
      first := true;
      if order.total > AUTOMATIC_LIMIT {
        outcome := Message(PaymentDeclined(order.orderId, order.customer, "over the automatic limit"), m.correlation);
      } else {
        outcome := Message(
          PaymentCaptured(order.orderId, order.customer, order.sku, order.quantity, order.total), m.correlation);
      }
    }

    method Sent(outcome: Message, orderId: string)
      modifies this
      ensures View() == old(View()).Sent(outcome, orderId)
      ensures store == old(store)[orderId := Confirmed] && duplicatesRefused == old(duplicatesRefused)
      ensures captured == old(captured) + (if outcome.event.PaymentCaptured? then 1 else 0)
      ensures declined == old(declined) + (if outcome.event.PaymentCaptured? then 0 else 1)
    {
      if outcome.event.PaymentCaptured? {
        captured := captured + 1;
      } else {
        declined := declined + 1;
      }
      store := store[orderId := Confirmed];
    }
  }
}
