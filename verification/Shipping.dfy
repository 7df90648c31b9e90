/** The last hop: a reservation becomes a shipment with a tracking number. */
module Shipping {
  import opened Fulfilment

  function Upper(s: string): (raised: string)
    ensures |raised| == |s|
    ensures forall k :: 0 <= k < |s| ==> raised[k] == if 'a' <= s[k] <= 'z' then s[k] - 'a' + 'A' else s[k]
  {
    if s == "" then "" else [if 'a' <= s[0] <= 'z' then s[0] - 'a' + 'A' else s[0]] + Upper(s[1..])
  }

  function Tracking(orderId: string): string {
    "TRK-" + Upper(if |orderId| < 4 then "" else orderId[4..])
  }

  predicate NoCapitals(s: string) {
    forall k :: 0 <= k < |s| ==> !('A' <= s[k] <= 'Z')
  }

  lemma {:induction false} UpperIsInjective(s: string, t: string)
    requires NoCapitals(s) && NoCapitals(t)
    requires Upper(s) == Upper(t)
    ensures s == t
  {
    if s != "" && t != "" {
      assert Upper(s)[0] == Upper(t)[0] && Upper(s)[1..] == Upper(t)[1..];
      UpperIsInjective(s[1..], t[1..]);
    }
  }

  /** Order ids are `ord-` and lower-case hexadecimal, so a tracking number tells the order. */
  lemma TrackingTellsTheOrder(a: string, b: string)
    requires "ord-" <= a && "ord-" <= b
    requires NoCapitals(a) && NoCapitals(b)
    requires Tracking(a) == Tracking(b)
    ensures a == b
  {
    assert Tracking(a)[4..] == Upper(a[4..]) && Tracking(b)[4..] == Upper(b[4..]);
    UpperIsInjective(a[4..], b[4..]);
    assert a == "ord-" + a[4..] && b == "ord-" + b[4..];
  }

  function Dispatch(m: Message): Message
    requires m.event.StockReserved?
  {
    Message(OrderShipped(m.event.orderId, m.event.customer, Tracking(m.event.orderId)), m.correlation)
  }

  class ShippingService {
    var shipped: nat

    constructor ()
      ensures shipped == 0
    {
      shipped := 0;
    }

    /** `sendRaises` says the publish failed; the handler then counts nothing. */
    method DispatchOne(m: Message, sendRaises: bool) returns (dispatched: Message)
      requires m.event.StockReserved?
      modifies this
      ensures dispatched == Dispatch(m)
      ensures var id := m.event.orderId;
              dispatched == Message(
                OrderShipped(id, m.event.customer, "TRK-" + Upper(if |id| < 4 then "" else id[4..])), m.correlation)
      ensures shipped == old(shipped) + if sendRaises then 0 else 1
    {
      var reservation := m.event;
      dispatched := Message(
        OrderShipped(reservation.orderId, reservation.customer, Tracking(reservation.orderId)), m.correlation);
      if !sendRaises {
        shipped := shipped + 1;
      }
    }
  }
}
