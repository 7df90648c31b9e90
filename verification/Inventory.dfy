/** Stock, the calls to its warehouse that may fail, and what a captured payment gets. */
module Inventory {
  import opened Wrappers
  import opened Fulfilment

  /** Deliveries a message gets before it is dead-lettered. */
  const ATTEMPTS: nat := 4

  datatype Inventory = Inventory(
    stock: map<string, int>, warehouseCalls: nat, failuresToSimulate: int, reserved: nat, rejected: nat)
  {
    function Left(sku: string): int {
      if sku in stock then stock[sku] else 0
    }

    function WithFlakyWarehouse(count: int): Inventory {
      this.(failuresToSimulate := count)
    }

    /** The warehouse will not answer the next call. */
    predicate Flaky() {
      warehouseCalls + 1 <= failuresToSimulate
    }

    function Called(): Inventory {
      this.(warehouseCalls := warehouseCalls + 1)
    }

    /** What is sent when the warehouse answers, decided against the stock as it is. */
    function Answer(m: Message): (answer: Message)
      requires m.event.PaymentCaptured?
      ensures answer.event.StockReserved? || answer.event.StockUnavailable?
      ensures answer.event.StockReserved? <==> m.event.quantity <= Left(m.event.sku)
      ensures answer.event.StockUnavailable? ==> answer.event.left == Left(m.event.sku)
    {
      var payment := m.event;
      if Left(payment.sku) < payment.quantity then
        Message(StockUnavailable(payment.orderId, payment.customer, payment.sku, Left(payment.sku)), m.correlation)
      else
        Message(StockReserved(payment.orderId, payment.customer, payment.sku, payment.quantity), m.correlation)
    }

    /** The handler up to its send: the stock moves before anything is published. */
    function Answered(m: Message): Inventory
      requires m.event.PaymentCaptured?
    {
      if Left(m.event.sku) < m.event.quantity then
        Called()
      else
        Called().(stock := stock[m.event.sku := Left(m.event.sku) - m.event.quantity])
    }

    function Sent(answer: Message): Inventory {
      this.(reserved := reserved + (if answer.event.StockReserved? then 1 else 0),
            rejected := rejected + (if answer.event.StockReserved? then 0 else 1))
    }

    /** The calls that have failed so far, when the failures were set before any call. */
    function Failures(): int {
      if failuresToSimulate < 0 then 0
      else if warehouseCalls < failuresToSimulate then warehouseCalls
      else failuresToSimulate
    }

    /** How many of the next `n` calls fail. */
    function FailuresIn(n: nat): nat
      decreases n
    {
      if n == 0 then 0 else
        (if Flaky() then 1 else 0) + Called().FailuresIn(n - 1)
    }

    lemma {:induction false} FailuresInIs(n: nat)
      ensures FailuresIn(n) == if failuresToSimulate <= warehouseCalls then 0
                               else if n < failuresToSimulate - warehouseCalls then n
                               else failuresToSimulate - warehouseCalls
      decreases n
    {
      if n > 0 {
        Called().FailuresInIs(n - 1);
      }
    }

    /** "Makes the next `count` calls fail" is true only of a warehouse not called yet:
        the count is compared with every call there ever was. */
    lemma FlakyMeansNextCallsIff(count: int)
      ensures (forall n: nat :: WithFlakyWarehouse(count).FailuresIn(n) ==
                 if count <= 0 then 0 else if n < count then n else count)
              <==> warehouseCalls == 0 || count <= 0
    {
      forall n: nat {
        WithFlakyWarehouse(count).FailuresInIs(n);
      }
      if warehouseCalls != 0 && count > 0 {
        var n: nat := count;
        WithFlakyWarehouse(count).FailuresInIs(n);
        assert WithFlakyWarehouse(count).FailuresIn(n) != count;
      }
    }
  }

  class InventoryService {
    var stock: map<string, int>
    var warehouseCalls: nat
    var failuresToSimulate: int
    var reserved: nat
    var rejected: nat

    ghost function View(): Inventory
      reads this
    {
      Inventory(stock, warehouseCalls, failuresToSimulate, reserved, rejected)
    }

    constructor ()
      ensures View() == Inventory(map[], 0, 0, 0, 0)
    {
      stock, warehouseCalls, failuresToSimulate, reserved, rejected := map[], 0, 0, 0, 0;
    }

    method WithStock(sku: string, quantity: int)
      modifies this
      ensures View() == old(View()).(stock := old(stock)[sku := quantity])
    {
      stock := stock[sku := quantity];
    }

    method WithFlakyWarehouse(count: int)
      modifies this
      ensures View() == old(View()).WithFlakyWarehouse(count)
      ensures failuresToSimulate == count && warehouseCalls == old(warehouseCalls) && stock == old(stock)
    {
      failuresToSimulate := count;
    }

    /** None is the TimeoutError that sends the message up the retry ladder. */
    method Reserve(m: Message) returns (answer: Option<Message>)
      requires m.event.PaymentCaptured?
      modifies this
      ensures answer == if old(View()).Flaky() then None else Some(old(View()).Answer(m))
      ensures View() == if old(View()).Flaky() then old(View()).Called() else old(View()).Answered(m)
      ensures warehouseCalls == old(warehouseCalls) + 1
      ensures answer.None? <==> warehouseCalls <= failuresToSimulate
      ensures var sku, held := m.event.sku, if m.event.sku in old(stock) then old(stock)[m.event.sku] else 0;
              stock == if answer.Some? && m.event.quantity <= held then old(stock)[sku := held - m.event.quantity]
                       else old(stock)
      ensures reserved == old(reserved) && rejected == old(rejected) && failuresToSimulate == old(failuresToSimulate)
    {
      var payment := m.event;
      warehouseCalls := warehouseCalls + 1;
      if warehouseCalls <= failuresToSimulate {
        return None;
      }
      var available := if payment.sku in stock then stock[payment.sku] else 0;
      if available < payment.quantity {
        return Some(Message(
          StockUnavailable(payment.orderId, payment.customer, payment.sku, available), m.correlation));
      }
      stock := stock[payment.sku := available - payment.quantity];
      return Some(Message(
        StockReserved(payment.orderId, payment.customer, payment.sku, payment.quantity), m.correlation));
    }

    method Sent(answer: Message)
      modifies this
      ensures View() == old(View()).Sent(answer)
      ensures reserved == old(reserved) + (if answer.event.StockReserved? then 1 else 0)
      ensures rejected == old(rejected) + (if answer.event.StockReserved? then 0 else 1)
    {
      if answer.event.StockReserved? {
        reserved := reserved + 1;
      } else {
        rejected := rejected + 1;
      }
    }
  }
}
