/** What every run of order fulfilment can be held to by counting: charges, stock, retries. */
module FulfilmentCounts {
  import opened Sequences
  import opened Fulfilment
  import opened FulfilmentSystem
  import opened FulfilmentSafety
  import Inventory

  // ---- charging ------------------------------------------------------------------------

  function OutcomeFor(id: string): Message -> int {
    (m: Message) => if (m.event.PaymentCaptured? || m.event.PaymentDeclined?) && m.event.orderId == id then 1 else 0
  }

  function ClaimFor(id: string): Item -> int {
    (x: Item) => if x.Charging? && x.m.event.orderId == id then 1 else 0
  }

  /** Payment outcomes published for an order. */
  function Outcomes(log: seq<Message>, id: string): int {
    Sum(OutcomeFor(id), log)
  }

  /** Every claim won published its outcome, is about to, or stopped short of it; and a
      claim is won once, and once more for each lapse. */
  predicate ChargedFor(s: System, id: string) {
    && Outcomes(s.log, id) + Sum(ClaimFor(id), s.work) + s.past.stopped[id] == s.past.won[id]
    && s.past.won[id] <= s.past.lapses[id] + (if id in s.payments.store then 1 else 0)
  }

  lemma ChargedNext(s: System, a: Action, id: string)
    requires Causal(s) && ChargedFor(s, id) && Enabled(s, a)
    ensures ChargedFor(Next(s, a), id)
  {
    match a
    case Place(o) => ChargedMore(s, Next(s, a), Outbox(Placed(o)), id);
    case Act(i) =>
      assert s.work[i] in s.work;
      ChargedStep(s, i, id);
    case SendFails(i) => ChargedFailed(s, i, id);
    case Redeliver(i) => ChargedFailed(s, i, id);
    case Duplicate(i) => ChargedMore(s, Next(s, a), s.work[i], id);
    case Lapse(lapsed) => ChargedLapse(s, lapsed, id);
    case Note =>
    case NoteAgain(_) =>
  }

  lemma ChargedMore(s: System, s': System, x: Item, id: string)
    requires ChargedFor(s, id) && !x.Charging? && s'.work == s.work + [x]
    requires s'.log == s.log && s'.payments == s.payments
    requires s'.past.won == s.past.won && s'.past.lapses == s.past.lapses && s'.past.stopped == s.past.stopped
    ensures ChargedFor(s', id)
  {
    SumAppend(ClaimFor(id), s.work, x);
  }

  lemma ChargedLapse(s: System, lapsed: string, id: string)
    requires ChargedFor(s, id) && Enabled(s, Lapse(lapsed))
    ensures ChargedFor(Next(s, Lapse(lapsed)), id)
  {
    var s' := Next(s, Lapse(lapsed));
    assert s'.past.lapses[id] == s.past.lapses[id] + if id == lapsed then 1 else 0;
    assert id != lapsed ==> (id in s'.payments.store <==> id in s.payments.store);
  }

  lemma ChargedFailed(s: System, i: nat, id: string)
    requires ChargedFor(s, id) && i < |s.work| && InHand(s.work[i])
    ensures ChargedFor(Next(s, SendFails(i)), id) && ChargedFor(Next(s, Redeliver(i)), id)
  {
    NoClaimReturned(s.work[i], id);
    StopCountsClaim(s, s.work[i], id);
    StopTakesNothing(s, s.work[i]);
    ChargedPut(s, Next(s, SendFails(i)), i, AfterFailure(s.work[i]), id);
    ChargedPut(s, Next(s, Redeliver(i)), i, [Returned(s.work[i])], id);
  }

  lemma StopCountsClaim(s: System, x: Item, id: string)
    requires InHand(x)
    ensures Abandoned(s, x).past.stopped[id] == s.past.stopped[id] + ClaimFor(id)(x)
    ensures Failing(Abandoned(s, x), x).past.stopped == Abandoned(s, x).past.stopped
  {}

  lemma ChargedPut(s: System, s': System, i: nat, items: seq<Item>, id: string)
    requires ChargedFor(s, id) && i < |s.work| && s'.work == Splice(s.work, i, items)
    requires |items| <= 1 && Few(ClaimFor(id), items) == 0
    requires s'.log == s.log && s'.payments == s.payments
    requires s'.past.won == s.past.won && s'.past.lapses == s.past.lapses
    requires s'.past.stopped[id] == s.past.stopped[id] + ClaimFor(id)(s.work[i])
    ensures ChargedFor(s', id)
  {
    SumPut(ClaimFor(id), s.work, i, items);
  }

  lemma NoClaimReturned(x: Item, id: string)
    requires InHand(x)
    ensures Few(ClaimFor(id), AfterFailure(x)) == Few(ClaimFor(id), [Returned(x)]) == 0 <= ClaimFor(id)(x)
  {}

  lemma ChargedStep(s: System, i: nat, id: string)
    requires ChargedFor(s, id) && i < |s.work| && Startable(s.work[i]) && GoodItem(s.orders, s.log, s.work[i])
    ensures ChargedFor(Next(s, Act(i)), id)
  {
    SumPut(ClaimFor(id), s.work, i, Follow(s, s.work[i]));
    ClaimFollows(s, s.work[i], id);
  }

  /** Winning a claim puts its key in the store; using it up publishes one outcome. */
  lemma ClaimFollows(s: System, x: Item, id: string)
    requires Startable(x) && GoodItem(s.orders, s.log, x)
    ensures var s' := Effect(s, x);
            var won := if x.ToCharge? && x.m.event.orderId == id && id !in s.payments.store then 1 else 0;
            && Few(ClaimFor(id), Follow(s, x)) == won
            && Outcomes(s'.log, id) == Outcomes(s.log, id) + ClaimFor(id)(x)
            && s'.past.won[id] == s.past.won[id] + won
            && s'.past.lapses == s.past.lapses && s'.past.stopped == s.past.stopped
            && (if id in s'.payments.store then 1 else 0) >= (if id in s.payments.store then 1 else 0) + won
  {
    if AtSend(x) {
      SumAppend(OutcomeFor(id), s.log, ToSend(x));
    }
  }

  /** A confirmed claim has its outcome published: confirmation comes after the send. */
  ghost predicate ConfirmedIsTold(s: System) {
    && (forall id :: id in s.payments.store && s.payments.store[id].Confirmed? ==> Outcomes(s.log, id) > 0)
    && (forall x :: x in s.work && x.Sent? && x.of.Charging? ==> Outcomes(s.log, x.of.m.event.orderId) > 0)
  }

  lemma ConfirmedIsToldNext(s: System, a: Action)
    requires Causal(s) && ConfirmedIsTold(s) && Enabled(s, a)
    ensures ConfirmedIsTold(Next(s, a))
  {
    match a
    case Act(i) => ConfirmedIsToldStep(s, i);
    case SendFails(i) =>
      StopTakesNothing(s, s.work[i]);
      SpliceMembers(s.work, i, AfterFailure(s.work[i]));
    case Redeliver(i) =>
      StopTakesNothing(s, s.work[i]);
      SpliceMembers(s.work, i, [Returned(s.work[i])]);
    case _ =>
  }

  lemma ConfirmedIsToldStep(s: System, i: nat)
    requires Causal(s) && ConfirmedIsTold(s) && Enabled(s, Act(i))
    ensures ConfirmedIsTold(Next(s, Act(i)))
  {
    var x := s.work[i];
    assert x in s.work && GoodItem(s.orders, s.log, x);
    SpliceMembers(s.work, i, Follow(s, x));
    OutcomesStay(s, x);
    ConfirmFollows(s, x);
  }

  lemma ConfirmFollows(s: System, x: Item)
    requires Startable(x) && GoodItem(s.orders, s.log, x)
    requires forall id :: id in s.payments.store && s.payments.store[id].Confirmed? ==> Outcomes(s.log, id) > 0
    requires x.Sent? && x.of.Charging? ==> Outcomes(s.log, x.of.m.event.orderId) > 0
    ensures var s' := Effect(s, x);
            && (forall id :: id in s'.payments.store && s'.payments.store[id].Confirmed? ==> Outcomes(s'.log, id) > 0)
            && (forall y :: y in Follow(s, x) && y.Sent? && y.of.Charging? ==> Outcomes(s'.log, y.of.m.event.orderId) > 0)
  {
    if AtSend(x) {
      SendTells(s, x);
    } else {
      WaitConfirms(s, x);
    }
  }

  lemma SendTells(s: System, x: Item)
    requires AtSend(x) && GoodItem(s.orders, s.log, x)
    ensures Effect(s, x).payments == s.payments
    ensures forall id :: Outcomes(Effect(s, x).log, id) >= Outcomes(s.log, id)
    ensures forall y :: y in Follow(s, x) && y.Sent? && y.of.Charging? ==>
              Outcomes(Effect(s, x).log, y.of.m.event.orderId) > 0
  {
    OutcomesStay(s, x);
    if x.Charging? {
      var id := x.m.event.orderId;
      SumNonNegative(OutcomeFor(id), s.log);
      SumAppend(OutcomeFor(id), s.log, ToSend(x));
      assert OutcomeFor(id)(ToSend(x)) == 1;
    }
    assert forall y :: y in Follow(s, x) ==> y == Sent(x) || y in Routed(ToSend(x));
  }

  lemma WaitConfirms(s: System, x: Item)
    requires Startable(x) && !AtSend(x)
    requires forall id :: id in s.payments.store && s.payments.store[id].Confirmed? ==> Outcomes(s.log, id) > 0
    requires x.Sent? && x.of.Charging? ==> Outcomes(s.log, x.of.m.event.orderId) > 0
    ensures var s' := Effect(s, x);
            && s'.log == s.log
            && (forall id :: id in s'.payments.store && s'.payments.store[id].Confirmed? ==> Outcomes(s'.log, id) > 0)
            && (forall y :: y in Follow(s, x) ==> !y.Sent?)
  {}

  lemma OutcomesStay(s: System, x: Item)
    requires Startable(x)
    ensures forall id :: Outcomes(Effect(s, x).log, id) >= Outcomes(s.log, id)
  {
    forall id ensures Outcomes(Effect(s, x).log, id) >= Outcomes(s.log, id) {
      if AtSend(x) {
        SumAppend(OutcomeFor(id), s.log, ToSend(x));
      } else {
        assert Effect(s, x).log == s.log;
      }
    }
  }

  // ---- refused duplicates -------------------------------------------------------------------

  function IsToCharge(): Item -> int {
    (x: Item) => if x.ToCharge? then 1 else 0
  }

  function IsAnnouncement(): Message -> int {
    (m: Message) => if m.event.OrderPlaced? then 1 else 0
  }

  /** Every announcement, and every delivery of one that came back or was made once more,
      won its claim, was refused, or waits. */
  predicate RefusalsAddUp(s: System) {
    s.payments.duplicatesRefused + |s.past.won| + Sum(IsToCharge(), s.work)
    == Sum(IsAnnouncement(), s.log) + |s.past.stopped| + Sum(IsToCharge(), s.past.repeated)
  }

  lemma RefusalsAddUpNext(s: System, a: Action)
    requires Causal(s) && RefusalsAddUp(s) && Enabled(s, a)
    ensures RefusalsAddUp(Next(s, a))
  {
    match a
    case Place(o) => SumAppend(IsToCharge(), s.work, Outbox(Placed(o)));
    case Act(i) => RefusalsAddUpStep(s, i);
    case SendFails(i) => RefusalsAddUpFailed(s, i);
    case Redeliver(i) => RefusalsAddUpFailed(s, i);
    case Duplicate(i) => RefusalsAddUpTwice(s, i);
    case _ =>
  }

  lemma RefusalsAddUpTwice(s: System, i: nat)
    requires RefusalsAddUp(s) && Enabled(s, Duplicate(i))
    ensures RefusalsAddUp(Next(s, Duplicate(i)))
  {
    SumAppend(IsToCharge(), s.work, s.work[i]);
    SumAppend(IsToCharge(), s.past.repeated, s.work[i]);
  }

  lemma RefusalsAddUpFailed(s: System, i: nat)
    requires RefusalsAddUp(s) && i < |s.work| && InHand(s.work[i])
    ensures RefusalsAddUp(Next(s, SendFails(i))) && RefusalsAddUp(Next(s, Redeliver(i)))
  {
    StopTakesNothing(s, s.work[i]);
    StopKeepsRecords(s, s.work[i]);
    RefusalsAddUpStopped(s, Next(s, SendFails(i)), i, AfterFailure(s.work[i]));
    RefusalsAddUpStopped(s, Next(s, Redeliver(i)), i, [Returned(s.work[i])]);
  }

  lemma StopKeepsRecords(s: System, x: Item)
    requires InHand(x)
    ensures Failing(Abandoned(s, x), x).past.stopped == Abandoned(s, x).past.stopped
    ensures Failing(Abandoned(s, x), x).past.repeated == Abandoned(s, x).past.repeated
  {}

  lemma RefusalsAddUpStep(s: System, i: nat)
    requires Causal(s) && RefusalsAddUp(s) && Enabled(s, Act(i))
    ensures RefusalsAddUp(Next(s, Act(i)))
  {
    var x := s.work[i];
    assert x in s.work && GoodItem(s.orders, s.log, x);
    SumPut(IsToCharge(), s.work, i, Follow(s, x));
    if AtSend(x) {
      AnnouncementCounts(s, x);
    } else {
      RefusalCounts(s, x);
    }
  }

  lemma AnnouncementCounts(s: System, x: Item)
    requires AtSend(x) && GoodItem(s.orders, s.log, x)
    ensures var s' := Effect(s, x);
            && s'.past == s.past && s'.payments == s.payments
            && Sum(IsAnnouncement(), s'.log) == Sum(IsAnnouncement(), s.log) + Few(IsToCharge(), Follow(s, x))
            && IsToCharge()(x) == 0
  {
    SumAppend(IsAnnouncement(), s.log, ToSend(x));
    assert Follow(s, x)[0] == Sent(x);
    assert Few(IsToCharge(), Follow(s, x)) == IsAnnouncement()(ToSend(x));
  }

  lemma RefusalCounts(s: System, x: Item)
    requires Startable(x) && !AtSend(x)
    ensures var s' := Effect(s, x);
            && s'.log == s.log && s'.past.stopped == s.past.stopped && s'.past.repeated == s.past.repeated
            && s'.payments.duplicatesRefused + |s'.past.won| + Few(IsToCharge(), Follow(s, x))
               == s.payments.duplicatesRefused + |s.past.won| + IsToCharge()(x)
  {}

  lemma RefusalsAddUpStopped(s: System, s': System, i: nat, items: seq<Item>)
    requires RefusalsAddUp(s) && i < |s.work| && InHand(s.work[i])
    requires items == AfterFailure(s.work[i]) || items == [Returned(s.work[i])]
    requires s'.work == Splice(s.work, i, items) && s'.log == s.log && s'.payments == s.payments
    requires s'.past.won == s.past.won && s'.past.stopped == Abandoned(s, s.work[i]).past.stopped
    requires s'.past.repeated == Abandoned(s, s.work[i]).past.repeated
    ensures RefusalsAddUp(s')
  {
    var x := s.work[i];
    SumPut(IsToCharge(), s.work, i, items);
    assert Few(IsToCharge(), items) == IsToCharge()(Returned(x)) && IsToCharge()(x) == 0;
    if x.Sent? {
      SumAppend(IsToCharge(), s.past.repeated, Returned(x));
    }
  }

  // ---- what was announced is taken up ---------------------------------------------------

  predicate ClaimWasWon(s: System, x: Item) {
    var y := if x.Sent? then x.of else x;
    y.Charging? ==> s.past.won[y.m.event.orderId] > 0
  }

  /** A key in the store, or a claim in hand, was won; and every order announced has had a
      claim won for it, or waits to. */
  ghost predicate TakenUp(s: System) {
    && (forall id :: id in s.payments.store ==> s.past.won[id] > 0)
    && (forall x :: x in s.work ==> ClaimWasWon(s, x))
    && (forall id :: id in s.orders && Placed(s.orders[id]) in s.log ==>
          s.past.won[id] > 0 || ToCharge(Placed(s.orders[id])) in s.work)
  }

  lemma TakenUpNext(s: System, a: Action)
    requires Causal(s) && TakenUp(s) && Enabled(s, a)
    ensures TakenUp(Next(s, a))
  {
    match a
    case Place(o) => TakenUpPlace(s, o);
    case Act(i) => TakenUpStep(s, i);
    case SendFails(i) => TakenUpStopped(s, i);
    case Redeliver(i) => TakenUpStopped(s, i);
    case Duplicate(i) => assert s.work[i] in s.work;
    case _ =>
  }

  lemma TakenUpPlace(s: System, o: Order)
    requires Causal(s) && TakenUp(s) && o.id !in s.orders
    ensures TakenUp(Next(s, Place(o)))
  {
    forall m | m in s.log ensures m != Placed(o) {
      assert Genuine(s.orders, m);
    }
  }

  lemma TakenUpStep(s: System, i: nat)
    requires Causal(s) && TakenUp(s) && i < |s.work| && Startable(s.work[i])
    ensures TakenUp(Next(s, Act(i)))
  {
    var x := s.work[i];
    assert x in s.work && GoodItem(s.orders, s.log, x) && ClaimWasWon(s, x);
    StepTakesUp(s, x);
    TakenUpPut(s, Next(s, Act(i)), i, Follow(s, x));
  }

  lemma StepTakesUp(s: System, x: Item)
    requires Startable(x) && GoodItem(s.orders, s.log, x) && ClaimWasWon(s, x)
    requires forall id :: id in s.payments.store ==> s.past.won[id] > 0
    ensures var s' := Effect(s, x);
            && s'.orders == s.orders
            && (forall id :: s'.past.won[id] >= s.past.won[id])
            && (forall id :: id in s'.payments.store ==> s'.past.won[id] > 0)
            && (forall y :: y in Follow(s, x) ==> ClaimWasWon(s', y))
            && (x.ToCharge? ==> s'.past.won[x.m.event.orderId] > 0)
            && (s'.log == if AtSend(x) then s.log + [ToSend(x)] else s.log)
            && (AtSend(x) && ToSend(x).event.OrderPlaced? ==> ToCharge(ToSend(x)) in Follow(s, x))
  {
    if AtSend(x) {
      assert Follow(s, x)[0] == Sent(x);
      if ToSend(x).event.OrderPlaced? {
        assert Follow(s, x)[1] == ToCharge(ToSend(x));
      }
    }
  }

  lemma TakenUpStopped(s: System, i: nat)
    requires Causal(s) && TakenUp(s) && i < |s.work| && InHand(s.work[i])
    ensures TakenUp(Next(s, SendFails(i))) && TakenUp(Next(s, Redeliver(i)))
  {
    StopTakesNothing(s, s.work[i]);
    TakenUpPut(s, Next(s, SendFails(i)), i, AfterFailure(s.work[i]));
    TakenUpPut(s, Next(s, Redeliver(i)), i, [Returned(s.work[i])]);
  }

  lemma StopTakesNothing(s: System, x: Item)
    requires InHand(x)
    ensures forall y :: y in AfterFailure(x) + [Returned(x)] ==> !y.Charging? && !y.Sent?
    ensures var s1, s2 := Abandoned(s, x), Failing(Abandoned(s, x), x);
            && s1.orders == s2.orders == s.orders && s1.log == s2.log == s.log && s1.payments == s2.payments == s.payments
            && s1.inventory == s2.inventory == s.inventory && s1.past.held == s2.past.held == s.past.held
            && s1.past.won == s2.past.won == s.past.won && s1.past.lapses == s2.past.lapses == s.past.lapses
  {}

  lemma TakenUpPut(s: System, s': System, i: nat, items: seq<Item>)
    requires Causal(s) && TakenUp(s) && i < |s.work| && s'.work == Splice(s.work, i, items) && s'.orders == s.orders
    requires forall id :: s'.past.won[id] >= s.past.won[id]
    requires forall id :: id in s'.payments.store ==> s'.past.won[id] > 0
    requires forall y :: y in items ==> ClaimWasWon(s', y)
    requires s.work[i].ToCharge? ==> s'.past.won[s.work[i].m.event.orderId] > 0
    requires forall m :: m in s'.log && m.event.OrderPlaced? ==> m in s.log || ToCharge(m) in items
    ensures TakenUp(s')
  {
    SpliceMembers(s.work, i, items);
  }

  // ---- never oversell ------------------------------------------------------------------

  function QuantityOf(sku: string): Message -> int {
    (m: Message) => if m.event.PaymentCaptured? && m.event.sku == sku then m.event.quantity else 0
  }

  function ReservedOf(sku: string): Message -> int {
    (m: Message) => if m.event.StockReserved? && m.event.sku == sku then m.event.quantity else 0
  }

  function HeldBy(sku: string): Item -> int {
    (x: Item) => if x.Holding? then ReservedOf(sku)(x.answer) else 0
  }

  predicate NothingNegative(s: System) {
    forall id :: id in s.orders ==> s.orders[id].quantity >= 0
  }

  /** Stock and what was taken from it make up the stock there was; it never goes below
      zero; and what was taken is published as reserved, about to be, or stranded with a
      handler that stopped before its send. */
  predicate StockedFor(s: System, initial: int, sku: string) {
    && s.inventory.Left(sku) + Sum(QuantityOf(sku), s.past.held) == initial
    && s.inventory.Left(sku) >= 0
    && Sum(ReservedOf(sku), s.log) + Sum(HeldBy(sku), s.work) + Sum(ReservedOf(sku), s.past.stranded)
       == Sum(QuantityOf(sku), s.past.held)
  }

  lemma StockedNext(s: System, a: Action, initial: int, sku: string)
    requires Causal(s) && StockedFor(s, initial, sku) && Enabled(s, a)
    ensures StockedFor(Next(s, a), initial, sku)
  {
    var f := HeldBy(sku);
    match a
    case Place(o) => SumAppend(f, s.work, Outbox(Placed(o)));
    case Act(i) =>
      assert s.work[i] in s.work;
      StockedStep(s, i, initial, sku);
    case SendFails(i) => StockedFailed(s, i, initial, sku);
    case Redeliver(i) => StockedFailed(s, i, initial, sku);
    case Duplicate(i) => SumAppend(f, s.work, s.work[i]);
    case _ =>
  }

  lemma StockedFailed(s: System, i: nat, initial: int, sku: string)
    requires StockedFor(s, initial, sku) && i < |s.work| && InHand(s.work[i])
    ensures StockedFor(Next(s, SendFails(i)), initial, sku) && StockedFor(Next(s, Redeliver(i)), initial, sku)
  {
    NothingHeldAfter(s.work[i], sku);
    StrandedGrows(s, s.work[i], sku);
    StopTakesNothing(s, s.work[i]);
    StockedPut(s, Next(s, SendFails(i)), i, AfterFailure(s.work[i]), initial, sku);
    StockedPut(s, Next(s, Redeliver(i)), i, [Returned(s.work[i])], initial, sku);
  }

  lemma StockedPut(s: System, s': System, i: nat, items: seq<Item>, initial: int, sku: string)
    requires StockedFor(s, initial, sku) && i < |s.work| && s'.work == Splice(s.work, i, items)
    requires |items| <= 1 && Few(HeldBy(sku), items) == 0
    requires s'.log == s.log && s'.inventory == s.inventory && s'.past.held == s.past.held
    requires Sum(ReservedOf(sku), s'.past.stranded) == Sum(ReservedOf(sku), s.past.stranded) + HeldBy(sku)(s.work[i])
    ensures StockedFor(s', initial, sku)
  {
    SumPut(HeldBy(sku), s.work, i, items);
  }

  lemma NothingHeldAfter(x: Item, sku: string)
    requires InHand(x)
    ensures Few(HeldBy(sku), AfterFailure(x)) == Few(HeldBy(sku), [Returned(x)]) == 0
  {}

  lemma StrandedGrows(s: System, x: Item, sku: string)
    requires InHand(x)
    ensures Sum(ReservedOf(sku), Abandoned(s, x).past.stranded) == Sum(ReservedOf(sku), s.past.stranded) + HeldBy(sku)(x)
    ensures Failing(Abandoned(s, x), x).past.stranded == Abandoned(s, x).past.stranded
    ensures Failing(Abandoned(s, x), x).past.held == s.past.held
  {
    if x.Holding? {
      SumAppend(ReservedOf(sku), s.past.stranded, x.answer);
    }
  }

  lemma StockedStep(s: System, i: nat, initial: int, sku: string)
    requires StockedFor(s, initial, sku) && i < |s.work| && Startable(s.work[i]) && GoodItem(s.orders, s.log, s.work[i])
    ensures StockedFor(Next(s, Act(i)), initial, sku)
  {
    var x := s.work[i];
    if AtSend(x) {
      StockedSend(s, i, sku);
    } else {
      StockedWait(s, i, sku);
      StockedEffect(s, x, sku);
    }
  }

  /** What leaves the shelf is what is held. */
  lemma StockedEffect(s: System, x: Item, sku: string)
    requires Startable(x) && s.inventory.Left(sku) >= 0
    ensures var s' := Effect(s, x);
            var taken := if x.ToReserve? && !s.inventory.Flaky() then ReservedOf(sku)(s.inventory.Answer(x.m)) else 0;
            && s'.inventory.Left(sku) == s.inventory.Left(sku) - taken >= 0
            && Sum(QuantityOf(sku), s'.past.held) == Sum(QuantityOf(sku), s.past.held) + taken
            && s'.past.stranded == s.past.stranded
  {
    if x.ToReserve? {
      AnswerTakes(s, x, sku);
    } else {
      assert Effect(s, x).inventory.stock == s.inventory.stock && Effect(s, x).past.held == s.past.held;
    }
  }

  lemma AnswerTakes(s: System, x: Item, sku: string)
    requires Startable(x) && x.ToReserve? && s.inventory.Left(sku) >= 0
    ensures var s' := Effect(s, x);
            var taken := if s.inventory.Flaky() then 0 else ReservedOf(sku)(s.inventory.Answer(x.m));
            && s'.inventory.Left(sku) == s.inventory.Left(sku) - taken >= 0
            && Sum(QuantityOf(sku), s'.past.held) == Sum(QuantityOf(sku), s.past.held) + taken
            && s'.past.stranded == s.past.stranded
  {
    SumAppend(QuantityOf(sku), s.past.held, x.m);
    if !s.inventory.Flaky() {
      AnswerMoves(s.inventory, x.m, sku);
      assert QuantityOf(sku)(x.m) == if x.m.event.sku == sku then x.m.event.quantity else 0;
      assert Effect(s, x).inventory == s.inventory.Answered(x.m);
    } else {
      assert Effect(s, x).inventory.stock == s.inventory.stock && Effect(s, x).past.held == s.past.held;
    }
  }

  /** The stock of a product falls by what the answer reserves of it. */
  lemma AnswerMoves(inventory: Inventory.Inventory, m: Message, sku: string)
    requires m.event.PaymentCaptured?
    ensures inventory.Answered(m).Left(sku) == inventory.Left(sku) - ReservedOf(sku)(inventory.Answer(m))
    ensures inventory.Left(sku) >= 0 ==> inventory.Answered(m).Left(sku) >= 0
    ensures ReservedOf(sku)(inventory.Answer(m)) ==
              if inventory.Answer(m).event.StockReserved? && m.event.sku == sku then m.event.quantity else 0
  {}

  lemma StockedSend(s: System, i: nat, sku: string)
    requires i < |s.work| && AtSend(s.work[i]) && GoodItem(s.orders, s.log, s.work[i])
    ensures var s' := Next(s, Act(i));
            Sum(ReservedOf(sku), s'.log) + Sum(HeldBy(sku), s'.work)
            == Sum(ReservedOf(sku), s.log) + Sum(HeldBy(sku), s.work)
  {
    var x := s.work[i];
    SumPut(HeldBy(sku), s.work, i, [Sent(x)] + Routed(ToSend(x)));
    SumAppend(ReservedOf(sku), s.log, ToSend(x));
  }

  lemma StockedWait(s: System, i: nat, sku: string)
    requires i < |s.work| && Startable(s.work[i]) && !AtSend(s.work[i]) && GoodItem(s.orders, s.log, s.work[i])
    ensures Sum(HeldBy(sku), Next(s, Act(i)).work) == Sum(HeldBy(sku), s.work)
            + (if s.work[i].ToReserve? && !s.inventory.Flaky() then ReservedOf(sku)(s.inventory.Answer(s.work[i].m)) else 0)
  {
    SumPut(HeldBy(sku), s.work, i, Follow(s, s.work[i]));
  }

  /** What was stranded were answers to committed orders. */
  ghost predicate StrandedGenuine(s: System) {
    forall m :: m in s.past.stranded ==> Genuine(s.orders, m)
  }

  lemma StrandedGenuineNext(s: System, a: Action)
    requires Causal(s) && StrandedGenuine(s) && Enabled(s, a)
    ensures StrandedGenuine(Next(s, a))
  {
    match a
    case SendFails(i) => StrandedStop(s, i);
    case Redeliver(i) => StrandedStop(s, i);
    case Act(i) => StrandedStep(s, i);
    case _ =>
  }

  lemma StrandedStep(s: System, i: nat)
    requires StrandedGenuine(s) && Enabled(s, Act(i))
    ensures StrandedGenuine(Next(s, Act(i)))
  {
    assert Effect(s, s.work[i]).past.stranded == s.past.stranded && Effect(s, s.work[i]).orders == s.orders;
  }

  lemma StrandedStop(s: System, i: nat)
    requires Causal(s) && StrandedGenuine(s) && i < |s.work| && InHand(s.work[i])
    ensures StrandedGenuine(Next(s, SendFails(i))) && StrandedGenuine(Next(s, Redeliver(i)))
  {
    var x := s.work[i];
    assert x in s.work && GoodItem(s.orders, s.log, x);
    StopTakesNothing(s, x);
    assert Failing(Abandoned(s, x), x).past.stranded == Abandoned(s, x).past.stranded;
    assert Abandoned(s, x).past.stranded == s.past.stranded + if x.Holding? then [x.answer] else [];
  }

  // ---- one answer for each capture -----------------------------------------------------

  predicate IsReserving(x: Item, id: string) {
    (x.ToReserve? || x.Holding?) && x.m.event.orderId == id
  }

  function Reserving(id: string): Item -> int {
    (x: Item) => if IsReserving(x, id) then 1 else 0
  }

  function AnswerOf(id: string): Message -> int {
    (m: Message) => if (m.event.StockReserved? || m.event.StockUnavailable?) && m.event.orderId == id then 1 else 0
  }

  function CaptureOf(id: string): Message -> int {
    (m: Message) => if m.event.PaymentCaptured? && m.event.orderId == id then 1 else 0
  }

  function OfOrder(id: string): Message -> int {
    (m: Message) => if m.event.orderId == id then 1 else 0
  }

  /** A captured payment, and every delivery of one made once more, is answered once or
      dead-lettered, or is on its way to it. */
  predicate AnsweredFor(s: System, id: string) {
    Sum(AnswerOf(id), s.log) + Sum(Reserving(id), s.work) + Sum(OfOrder(id), s.past.dead)
    == Sum(CaptureOf(id), s.log) + Sum(Reserving(id), s.past.repeated)
  }

  lemma AnsweredForNext(s: System, a: Action, id: string)
    requires Causal(s) && AnsweredFor(s, id) && Enabled(s, a)
    ensures AnsweredFor(Next(s, a), id)
  {
    var g := Reserving(id);
    match a
    case Place(o) => SumAppend(g, s.work, Outbox(Placed(o)));
    case Act(i) =>
      assert s.work[i] in s.work;
      AnsweredForStep(s, i, id);
    case SendFails(i) => AnsweredForFailed(s, i, id);
    case Redeliver(i) => AnsweredForRedelivered(s, i, id);
    case Duplicate(i) =>
      SumAppend(g, s.work, s.work[i]);
      SumAppend(g, s.past.repeated, s.work[i]);
    case _ =>
  }

  lemma AnsweredForStep(s: System, i: nat, id: string)
    requires AnsweredFor(s, id) && i < |s.work| && Startable(s.work[i]) && GoodItem(s.orders, s.log, s.work[i])
    ensures AnsweredFor(Next(s, Act(i)), id)
  {
    var x := s.work[i];
    SumPut(Reserving(id), s.work, i, Follow(s, x));
    if AtSend(x) {
      AnswerSent(s, x, id);
    } else {
      AnswerWaits(s, x, id);
    }
  }

  lemma AnswerSent(s: System, x: Item, id: string)
    requires AtSend(x) && GoodItem(s.orders, s.log, x)
    ensures Sum(AnswerOf(id), s.log + [ToSend(x)]) + Few(Reserving(id), Follow(s, x)) - Sum(CaptureOf(id), s.log + [ToSend(x)])
            == Sum(AnswerOf(id), s.log) + Reserving(id)(x) - Sum(CaptureOf(id), s.log)
    ensures Effect(s, x).past == s.past
  {
    SumAppend(AnswerOf(id), s.log, ToSend(x));
    SumAppend(CaptureOf(id), s.log, ToSend(x));
    assert Follow(s, x)[0] == Sent(x);
  }

  lemma AnswerWaits(s: System, x: Item, id: string)
    requires Startable(x) && !AtSend(x)
    ensures Effect(s, x).log == s.log && Effect(s, x).past.repeated == s.past.repeated
    ensures Few(Reserving(id), Follow(s, x)) + Sum(OfOrder(id), Effect(s, x).past.dead)
            == Reserving(id)(x) + Sum(OfOrder(id), s.past.dead)
  {
    if x.ToReserve? {
      SumAppend(OfOrder(id), s.past.dead, x.m);
    } else {
      assert Effect(s, x).past.dead == s.past.dead;
    }
  }

  lemma AnsweredForRedelivered(s: System, i: nat, id: string)
    requires AnsweredFor(s, id) && i < |s.work| && InHand(s.work[i])
    ensures AnsweredFor(Next(s, Redeliver(i)), id)
  {
    var x := s.work[i];
    SumPut(Reserving(id), s.work, i, [Returned(x)]);
    RepeatsCount(s, x, id);
    StopTakesNothing(s, x);
    assert Abandoned(s, x).past.dead == s.past.dead;
  }

  lemma AnsweredForFailed(s: System, i: nat, id: string)
    requires AnsweredFor(s, id) && i < |s.work| && InHand(s.work[i])
    ensures AnsweredFor(Next(s, SendFails(i)), id)
  {
    var x := s.work[i];
    SumPut(Reserving(id), s.work, i, AfterFailure(x));
    RepeatsCount(s, x, id);
    StopTakesNothing(s, x);
    FailureBuries(Abandoned(s, x), x, id);
  }

  lemma RepeatsCount(s: System, x: Item, id: string)
    requires InHand(x)
    ensures Sum(Reserving(id), Abandoned(s, x).past.repeated) + Reserving(id)(x)
            == Sum(Reserving(id), s.past.repeated) + Reserving(id)(Returned(x))
  {
    if x.Sent? {
      SumAppend(Reserving(id), s.past.repeated, Returned(x));
    }
  }

  lemma FailureBuries(s: System, x: Item, id: string)
    requires InHand(x)
    ensures Few(Reserving(id), AfterFailure(x)) + Sum(OfOrder(id), Failing(s, x).past.dead)
            == Reserving(id)(Returned(x)) + Sum(OfOrder(id), s.past.dead)
    ensures Failing(s, x).past.repeated == s.past.repeated
  {
    if Returned(x).ToReserve? {
      SumAppend(OfOrder(id), s.past.dead, Returned(x).m);
    }
  }

  // ---- retry counting ------------------------------------------------------------------

  function FailedOf(): Item -> int {
    (x: Item) => x.Failed()
  }

  /** Attempts that failed, by a warehouse call or by a send. */
  function FailedAttempts(s: System): int {
    s.inventory.Failures() + s.past.sendFailures
  }

  /** Every failed attempt is a retry or a dead letter; a dead letter took four, its own or
      inherited from the delivery it is a duplicate of; and no count outruns the failures
      there were. */
  predicate Counted(s: System) {
    && s.past.retried + |s.past.dead| == FailedAttempts(s)
    && (forall x :: x in s.work ==> x.Failed() < Inventory.ATTEMPTS && x.Failed() <= FailedAttempts(s))
    && Sum(FailedOf(), s.work) + 4 * |s.past.dead| <= FailedAttempts(s) + s.past.inherited
    && (s.past.dead != [] ==> FailedAttempts(s) >= 4)
  }

  lemma CountedNext(s: System, a: Action)
    requires Counted(s) && Enabled(s, a)
    ensures Counted(Next(s, a))
  {
    var f := FailedOf();
    match a
    case Place(o) => SumAppend(f, s.work, Outbox(Placed(o)));
    case Act(i) => CountedStep(s, i);
    case SendFails(i) => CountedFailed(s, i);
    case Redeliver(i) => CountedRedelivered(s, i);
    case Duplicate(i) =>
      SumAppend(f, s.work, s.work[i]);
      assert s.work[i] in s.work;
    case _ =>
  }

  lemma CountedStep(s: System, i: nat)
    requires Counted(s) && i < |s.work| && Startable(s.work[i])
    ensures Counted(Next(s, Act(i)))
  {
    assert s.work[i] in s.work;
    FailuresFollow(s, s.work[i]);
    CountedPut(s, Effect(s, s.work[i]), i, Follow(s, s.work[i]));
  }

  lemma CountedFailed(s: System, i: nat)
    requires Counted(s) && i < |s.work| && InHand(s.work[i])
    ensures Counted(Next(s, SendFails(i)))
  {
    assert s.work[i] in s.work;
    FailureKept(s, s.work[i]);
    CountedPut(s, Failing(Abandoned(s, s.work[i]), s.work[i]), i, AfterFailure(s.work[i]));
  }

  lemma CountedRedelivered(s: System, i: nat)
    requires Counted(s) && i < |s.work| && InHand(s.work[i])
    ensures Counted(Next(s, Redeliver(i)))
  {
    assert s.work[i] in s.work;
    ReturnKeeps(s, s.work[i]);
    CountedPut(s, Abandoned(s, s.work[i]), i, [Returned(s.work[i])]);
  }

  lemma CountedPut(s: System, s': System, i: nat, items: seq<Item>)
    requires Counted(s) && i < |s.work| && |items| <= 2 && CountsOn(s, s', s.work[i], items)
    ensures Counted(s'.(work := Splice(s.work, i, items)))
  {
    assert s.work[i] in s.work;
    SumPut(FailedOf(), s.work, i, items);
    SpliceMembers(s.work, i, items);
  }

  /** What one step of an item does to the counts. */
  predicate CountsOn(s: System, s': System, x: Item, items: seq<Item>)
    requires |items| <= 2
  {
    && FailedAttempts(s') >= FailedAttempts(s)
    && s'.past.inherited == s.past.inherited
    && |s'.past.dead| >= |s.past.dead|
    && FailedAttempts(s') - FailedAttempts(s) == s'.past.retried - s.past.retried + |s'.past.dead| - |s.past.dead|
    && Few(FailedOf(), items) + 4 * (|s'.past.dead| - |s.past.dead|)
       <= x.Failed() + FailedAttempts(s') - FailedAttempts(s)
    && (forall y :: y in items ==>
          y.Failed() < Inventory.ATTEMPTS && y.Failed() <= x.Failed() + FailedAttempts(s') - FailedAttempts(s))
    && (|s'.past.dead| > |s.past.dead| ==> x.Failed() + FailedAttempts(s') - FailedAttempts(s) >= 4)
  }

  lemma FailureKept(s: System, x: Item)
    requires InHand(x) && x.Failed() < Inventory.ATTEMPTS
    ensures CountsOn(s, Failing(Abandoned(s, x), x), x, AfterFailure(x))
  {
    var back := Returned(x);
    assert back.Failed() == x.Failed() == if x.Sent? then x.of.Failed() else x.Failed();
    AbandonedCounts(s, x);
    if back.ToReserve? {
      FailureCounts(Abandoned(s, x), x);
    } else {
      assert AfterFailure(x) == [back] && back.Failed() == 0;
    }
  }

  lemma AbandonedCounts(s: System, x: Item)
    ensures var s' := Abandoned(s, x);
            && s'.past.dead == s.past.dead && s'.past.retried == s.past.retried
            && s'.past.inherited == s.past.inherited && FailedAttempts(s') == FailedAttempts(s)
  {}

  lemma FailureCounts(s: System, x: Item)
    requires InHand(x) && Returned(x).ToReserve? && Returned(x).failed == x.Failed() < Inventory.ATTEMPTS
    ensures CountsOn(s, Failing(s, x), x, AfterFailure(x))
  {
    assert Failing(s, x).inventory == s.inventory && Failing(s, x).past.sendFailures == s.past.sendFailures + 1;
  }

  lemma ReturnKeeps(s: System, x: Item)
    requires InHand(x) && x.Failed() < Inventory.ATTEMPTS
    ensures CountsOn(s, Abandoned(s, x), x, [Returned(x)])
  {
    AbandonedCounts(s, x);
    assert Returned(x).Failed() == x.Failed() == if x.Sent? then x.of.Failed() else x.Failed();
  }

  /** A failed call is counted once, as a retry or as a dead letter. */
  lemma FailuresFollow(s: System, x: Item)
    requires Startable(x) && x.Failed() < Inventory.ATTEMPTS
    ensures CountsOn(s, Effect(s, x), x, Follow(s, x))
  {
    if x.ToReserve? {
      CallCounts(s, x);
    } else {
      var s' := Effect(s, x);
      assert s'.past.dead == s.past.dead && s'.past.retried == s.past.retried;
      assert s'.past.inherited == s.past.inherited && FailedAttempts(s') == FailedAttempts(s);
      assert forall y :: y in Follow(s, x) ==> y.Failed() <= x.Failed();
      assert Few(FailedOf(), Follow(s, x)) <= x.Failed();
    }
  }

  lemma CallCounts(s: System, x: Item)
    requires Startable(x) && x.ToReserve? && x.failed < Inventory.ATTEMPTS
    ensures CountsOn(s, Effect(s, x), x, Follow(s, x))
  {
    var s' := Effect(s, x);
    assert s'.inventory.Failures() == s.inventory.Failures() + if s.inventory.Flaky() then 1 else 0;
  }

  // ---- the services' own counters --------------------------------------------------------

  function Counter(s: System, t: EventType): nat {
    match t
    case TypePlaced => 0
    case TypeCaptured => s.payments.captured
    case TypeDeclined => s.payments.declined
    case TypeReserved => s.inventory.reserved
    case TypeUnavailable => s.inventory.rejected
    case TypeShipped => s.shipped
  }

  function OfType(t: EventType): Message -> int {
    (m: Message) => if m.event.Type() == t then 1 else 0
  }

  /** Handlers that published such an event and have not counted it yet. */
  function ToCount(t: EventType): Item -> int {
    (x: Item) => if x.Sent? && AtSend(x.of) && !x.of.Outbox? && ToSend(x.of).event.Type() == t then 1 else 0
  }

  /** Events published, less those counted and those about to be. */
  function Uncounted(s: System, t: EventType): int {
    Sum(OfType(t), s.log) - Counter(s, t) - Sum(ToCount(t), s.work)
  }

  /** Only a handler that stops short after its send leaves its event uncounted. */
  lemma UncountedNext(s: System, a: Action, t: EventType)
    requires Causal(s) && Enabled(s, a) && !t.TypePlaced?
    ensures Uncounted(Next(s, a), t) >= Uncounted(s, t)
    ensures !a.Redeliver? && !a.SendFails? ==> Uncounted(Next(s, a), t) == Uncounted(s, t)
  {
    match a
    case Place(o) => SumAppend(ToCount(t), s.work, Outbox(Placed(o)));
    case Act(i) =>
      assert s.work[i] in s.work;
      UncountedStep(s, i, t);
    case SendFails(i) => UncountedFailed(s, i, t);
    case Redeliver(i) => UncountedFailed(s, i, t);
    case Duplicate(i) => SumAppend(ToCount(t), s.work, s.work[i]);
    case _ =>
  }

  lemma UncountedStep(s: System, i: nat, t: EventType)
    requires i < |s.work| && Startable(s.work[i]) && GoodItem(s.orders, s.log, s.work[i]) && !t.TypePlaced?
    ensures Uncounted(Next(s, Act(i)), t) == Uncounted(s, t)
  {
    SumPut(ToCount(t), s.work, i, Follow(s, s.work[i]));
    if AtSend(s.work[i]) {
      SendToCount(s, s.work[i], t);
    } else {
      WaitToCount(s, s.work[i], t);
    }
  }

  lemma SendToCount(s: System, x: Item, t: EventType)
    requires AtSend(x) && GoodItem(s.orders, s.log, x) && !t.TypePlaced?
    ensures Sum(OfType(t), s.log + [ToSend(x)]) - Few(ToCount(t), Follow(s, x)) == Sum(OfType(t), s.log)
    ensures ToCount(t)(x) == 0
  {
    SumAppend(OfType(t), s.log, ToSend(x));
    assert Follow(s, x)[0] == Sent(x);
    assert Routed(ToSend(x)) != [] ==> ToCount(t)(Routed(ToSend(x))[0]) == 0;
  }

  lemma WaitToCount(s: System, x: Item, t: EventType)
    requires Startable(x) && !AtSend(x) && GoodItem(s.orders, s.log, x) && !t.TypePlaced?
    ensures Few(ToCount(t), Follow(s, x)) == 0
    ensures Effect(s, x).log == s.log && Counter(Effect(s, x), t) == Counter(s, t) + ToCount(t)(x)
  {}

  lemma UncountedFailed(s: System, i: nat, t: EventType)
    requires i < |s.work| && InHand(s.work[i])
    ensures Uncounted(Next(s, SendFails(i)), t) >= Uncounted(s, t)
    ensures Uncounted(Next(s, Redeliver(i)), t) >= Uncounted(s, t)
  {
    SumPut(ToCount(t), s.work, i, AfterFailure(s.work[i]));
    SumPut(ToCount(t), s.work, i, [Returned(s.work[i])]);
    NothingToCount(s.work[i], t);
    StopTakesNothing(s, s.work[i]);
    StopCountsNothing(s, s.work[i], t);
  }

  lemma StopCountsNothing(s: System, x: Item, t: EventType)
    requires InHand(x)
    ensures Counter(Abandoned(s, x), t) == Counter(Failing(Abandoned(s, x), x), t) == Counter(s, t)
  {}

  lemma NothingToCount(x: Item, t: EventType)
    requires InHand(x)
    ensures Few(ToCount(t), AfterFailure(x)) == Few(ToCount(t), [Returned(x)]) == 0 <= ToCount(t)(x)
  {}
}
