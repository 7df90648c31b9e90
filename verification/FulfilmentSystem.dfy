/** The five services joined by their queues: every run of them, with relay duplicates,
    redelivery, failed sends, claims that lapse and warehouse calls that time out. */
module FulfilmentSystem {
  import opened Wrappers
  import opened Sequences
  import opened Fulfilment
  import Payments
  import Inventory
  import Shipping
  import Notifications

  /** Something waiting to be done, and where. A handler that has awaited holds its
      delivery: `Charging` has won its claim, `Holding` has taken its stock. `Sent` is
      a handler, or the relay, whose send happened and which has not finished. */
  datatype Item =
    | Outbox(m: Message)
    | ToCharge(m: Message)
    | Charging(m: Message)
    | ToReserve(m: Message, failed: nat)
    | Holding(m: Message, failed: nat, answer: Message)
    | ToShip(m: Message)
    | Sent(of: Item)
  {
    function Delivery(): Message {
      if Sent? then of.Delivery() else m
    }

    function Failed(): nat {
      if Sent? then of.Failed() else if ToReserve? || Holding? then failed else 0
    }
  }

  /** What a run leaves behind in no service: claims that stopped being in the store,
      claims won, and claims whose handler stopped before its send; payments stock was
      taken for, and the answers of handlers that stopped holding it; dead letters,
      retries and failed sends of the inventory service; the failed attempts that duplicated
      deliveries carried along; and the deliveries there were once more than before. */
  datatype History = History(
    lapses: multiset<string>, won: multiset<string>, stopped: multiset<string>,
    held: seq<Message>, stranded: seq<Message>,
    dead: seq<Message>, retried: nat, sendFailures: nat, inherited: nat, repeated: seq<Item>)

  /** `noted` messages of the log have reached the timeline. */
  datatype System = System(
    orders: map<string, Order>, work: seq<Item>, log: seq<Message>,
    payments: Payments.Payments, inventory: Inventory.Inventory, shipped: nat,
    noted: nat, timeline: Notifications.Timeline, past: History)

  function Initial(stock: map<string, int>, failures: int): System {
    System(map[], [], [], Payments.Payments(map[], 0, 0, 0), Inventory.Inventory(stock, 0, failures, 0, 0), 0,
           0, map[], History(multiset{}, multiset{}, multiset{}, [], [], [], 0, 0, 0, []))
  }

  function Placed(o: Order): Message {
    Message(OrderPlaced(o.id, o.customer, o.sku, o.quantity, o.total), o.id)
  }

  /** The bindings of the topic exchange. The wildcard queue is the log itself. */
  function Routed(m: Message): seq<Item> {
    match m.event
    case OrderPlaced(_, _, _, _, _) => [ToCharge(m)]
    case PaymentCaptured(_, _, _, _, _) => [ToReserve(m, 0)]
    case StockReserved(_, _, _, _) => [ToShip(m)]
    case _ => []
  }

  datatype Action =
    | Place(order: Order)          // the gateway's transaction commits
    | Act(index: nat)              // one item takes its next step
    | SendFails(index: nat)        // the send of an item's handler raises
    | Redeliver(index: nat)        // a handler in hand is lost, its delivery is not
    | Duplicate(index: nat)        // a queued message is there twice, its attempts so far on both
    | Lapse(orderId: string)       // a lease runs out, or a key outlives its retention
    | Note                         // the next message reaches the timeline
    | NoteAgain(index: nat)        // or an earlier one does, again

  /** A handler, or the relay, at its send. */
  predicate AtSend(x: Item) {
    match x
    case Outbox(m) => m.event.OrderPlaced?
    case Charging(m) => m.event.OrderPlaced?
    case Holding(_, _, _) => true
    case ToShip(m) => m.event.StockReserved?
    case _ => false
  }

  /** An item of the shape its queue is bound to. */
  predicate Startable(x: Item) {
    match x
    case ToCharge(m) => m.event.OrderPlaced?
    case ToReserve(m, _) => m.event.PaymentCaptured?
    case Sent(of) => AtSend(of)
    case _ => AtSend(x)
  }

  function ToSend(x: Item): Message
    requires AtSend(x)
  {
    match x
    case Outbox(m) => m
    case Charging(m) => Payments.Outcome(m)
    case Holding(_, _, answer) => answer
    case ToShip(m) => Shipping.Dispatch(m)
  }

  predicate Queued(x: Item) {
    x.ToCharge? || x.ToReserve? || x.ToShip?
  }

  /** A delivery a handler, or the relay, has started on. */
  predicate InHand(x: Item) {
    if x.Sent? then AtSend(x.of) else AtSend(x)
  }

  predicate Enabled(s: System, a: Action) {
    match a
    case Place(o) => o.id !in s.orders
    case Act(i) => i < |s.work| && Startable(s.work[i])
    case SendFails(i) =>
      i < |s.work| && InHand(s.work[i])
    case Redeliver(i) =>
      i < |s.work| && InHand(s.work[i])
    case Duplicate(i) => i < |s.work| && Queued(s.work[i])
    case Lapse(id) => id in s.payments.store
    case Note => s.noted < |s.log|
    case NoteAgain(i) => i < s.noted <= |s.log|
  }

  /** One more failed attempt: back up the ladder, or off it. */
  function Retried(m: Message, failed: nat): seq<Item> {
    if failed + 1 >= Inventory.ATTEMPTS then [] else [ToReserve(m, failed + 1)]
  }

  function CountRetry(s: System, m: Message, failed: nat): System {
    if failed + 1 >= Inventory.ATTEMPTS then
      s.(past := s.past.(dead := s.past.dead + [m]))
    else
      s.(past := s.past.(retried := s.past.retried + 1))
  }

  /** What an item becomes when it takes its next step. */
  function Follow(s: System, x: Item): (items: seq<Item>)
    requires Startable(x)
    ensures |items| <= 2
  {
    if AtSend(x) then [Sent(x)] + Routed(ToSend(x))
    else match x
      case ToCharge(m) => if m.event.orderId in s.payments.store then [] else [Charging(m)]
      case ToReserve(m, failed) =>
        if s.inventory.Flaky() then Retried(m, failed) else [Holding(m, failed, s.inventory.Answer(m))]
      case Sent(_) => []
  }

  /** What that step does to everything but the work. */
  function Effect(s: System, x: Item): System
    requires Startable(x)
  {
    if AtSend(x) then s.(log := s.log + [ToSend(x)])
    else match x
      case ToCharge(m) =>
        s.(payments := s.payments.FirstTime(m.event.orderId),
           past := if m.event.orderId in s.payments.store then s.past
                   else s.past.(won := s.past.won + multiset{m.event.orderId}))
      case ToReserve(m, failed) =>
        if s.inventory.Flaky() then
          CountRetry(s.(inventory := s.inventory.Called()), m, failed)
        else
          s.(inventory := s.inventory.Answered(m),
             past := if s.inventory.Answer(m).event.StockReserved? then s.past.(held := s.past.held + [m]) else s.past)
      case Sent(of) => Finish(s, of)
  }

  /** The segment after a send returns, up to the acknowledgement. */
  function Finish(s: System, of: Item): System
    requires AtSend(of)
  {
    match of
    case Charging(m) => s.(payments := s.payments.Sent(ToSend(of), m.event.orderId))
    case Holding(_, _, answer) => s.(inventory := s.inventory.Sent(answer))
    case ToShip(_) => s.(shipped := s.shipped + 1)
    case Outbox(_) => s
  }

  /** Where a delivery goes when its handler, or the relay, stops short of finishing. */
  function Returned(x: Item): Item {
    if x.Sent? then Requeued(x.of) else Requeued(x)
  }

  function Requeued(x: Item): Item {
    match x
    case Charging(m) => ToCharge(m)
    case Holding(m, failed, _) => ToReserve(m, failed)
    case _ => x
  }

  function AfterFailure(x: Item): (items: seq<Item>)
    ensures |items| <= 1
  {
    var back := Returned(x);
    if back.ToReserve? then Retried(back.m, back.failed) else [back]
  }

  function Failing(s: System, x: Item): System {
    var back := Returned(x);
    if back.ToReserve? then
      CountRetry(s.(past := s.past.(sendFailures := s.past.sendFailures + 1)), back.m, back.failed)
    else
      s
  }

  /** A handler that stops before its send leaves a claim, or stock, behind; one that stops
      after it has its delivery made once more. */
  function Abandoned(s: System, x: Item): System {
    match x
    case Charging(m) => s.(past := s.past.(stopped := s.past.stopped + multiset{m.event.orderId}))
    case Holding(_, _, answer) => s.(past := s.past.(stranded := s.past.stranded + [answer]))
    case Sent(_) => s.(past := s.past.(repeated := s.past.repeated + [Returned(x)]))
    case _ => s
  }

  function Next(s: System, a: Action): System
    requires Enabled(s, a)
  {
    match a
    case Place(o) => s.(orders := s.orders[o.id := o], work := s.work + [Outbox(Placed(o))])
    case Act(i) => Effect(s, s.work[i]).(work := Splice(s.work, i, Follow(s, s.work[i])))
    case SendFails(i) =>
      Failing(Abandoned(s, s.work[i]), s.work[i]).(work := Splice(s.work, i, AfterFailure(s.work[i])))
    case Redeliver(i) => Abandoned(s, s.work[i]).(work := Splice(s.work, i, [Returned(s.work[i])]))
    case Duplicate(i) =>
      s.(work := s.work + [s.work[i]],
         past := s.past.(inherited := s.past.inherited + s.work[i].Failed(), repeated := s.past.repeated + [s.work[i]]))
    case Lapse(id) =>
      s.(payments := s.payments.(store := s.payments.store - {id}),
         past := s.past.(lapses := s.past.lapses + multiset{id}))
    case Note => s.(noted := s.noted + 1, timeline := Notifications.Record(s.timeline, s.log[s.noted]))
    case NoteAgain(i) => s.(timeline := Notifications.Record(s.timeline, s.log[i]))
  }

  predicate Runs(s: System, run: seq<Action>)
    decreases |run|
  {
    run == [] || (Enabled(s, run[0]) && Runs(Next(s, run[0]), run[1..]))
  }

  function End(s: System, run: seq<Action>): System
    requires Runs(s, run)
    decreases |run|
  {
    if run == [] then s else End(Next(s, run[0]), run[1..])
  }

  lemma {:induction false} RunsAppend(s: System, run: seq<Action>, a: Action)
    requires Runs(s, run) && Enabled(End(s, run), a)
    ensures Runs(s, run + [a]) && End(s, run + [a]) == Next(End(s, run), a)
    decreases |run|
  {
    if run == [] {
      assert run + [a] == [a] && [a][1..] == [];
    } else {
      assert (run + [a])[1..] == run[1..] + [a] && (run + [a])[0] == run[0];
      RunsAppend(Next(s, run[0]), run[1..], a);
    }
  }
}
