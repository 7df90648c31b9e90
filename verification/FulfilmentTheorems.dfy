/** The promises of order fulfilment, over whole runs from an empty system. */
module FulfilmentTheorems {
  import opened Sequences
  import opened Fulfilment
  import opened FulfilmentSystem
  import opened FulfilmentSafety
  import opened FulfilmentCounts
  import Inventory

  lemma {:induction false} RunIsCausal(s: System, run: seq<Action>)
    requires Runs(s, run) && Causal(s)
    ensures Causal(End(s, run))
    decreases |run|
  {
    if run != [] {
      CausalNext(s, run[0]);
      RunIsCausal(Next(s, run[0]), run[1..]);
    }
  }

  lemma {:induction false} RunIsAnnounced(s: System, run: seq<Action>)
    requires Runs(s, run) && Announced(s)
    ensures Announced(End(s, run))
    decreases |run|
  {
    if run != [] {
      AnnouncedNext(s, run[0]);
      RunIsAnnounced(Next(s, run[0]), run[1..]);
    }
  }

  /** An empty outbox means every committed order was announced at least once. */
  lemma EmptyOutboxMeansAnnounced(stock: map<string, int>, failures: int, run: seq<Action>)
    requires Runs(Initial(stock, failures), run)
    requires forall x :: x in End(Initial(stock, failures), run).work ==> !x.Outbox?
    ensures var s := End(Initial(stock, failures), run);
            forall id :: id in s.orders ==> Placed(s.orders[id]) in s.log
  {
    RunIsAnnounced(Initial(stock, failures), run);
  }

  lemma {:induction false} RunIsCharged(s: System, run: seq<Action>, id: string)
    requires Runs(s, run) && Causal(s) && ChargedFor(s, id)
    ensures ChargedFor(End(s, run), id)
    decreases |run|
  {
    if run != [] {
      CausalNext(s, run[0]);
      ChargedNext(s, run[0], id);
      RunIsCharged(Next(s, run[0]), run[1..], id);
    }
  }

  lemma {:induction false} RunIsStocked(s: System, run: seq<Action>, initial: int, sku: string)
    requires Runs(s, run) && Causal(s) && StockedFor(s, initial, sku)
    ensures StockedFor(End(s, run), initial, sku)
    decreases |run|
  {
    if run != [] {
      CausalNext(s, run[0]);
      StockedNext(s, run[0], initial, sku);
      RunIsStocked(Next(s, run[0]), run[1..], initial, sku);
    }
  }

  lemma {:induction false} RunIsCounted(s: System, run: seq<Action>)
    requires Runs(s, run) && Counted(s)
    ensures Counted(End(s, run))
    decreases |run|
  {
    if run != [] {
      CountedNext(s, run[0]);
      RunIsCounted(Next(s, run[0]), run[1..]);
    }
  }

  /** Whatever is published carries its order's id and tells of a committed order; it
      was caused by what must come before it; and no order is both captured and declined,
      nor a declined one reserved or shipped. */
  lemma EveryEventIsCaused(stock: map<string, int>, failures: int, run: seq<Action>, j: nat)
    requires Runs(Initial(stock, failures), run) && j < |End(Initial(stock, failures), run).log|
    ensures var s := End(Initial(stock, failures), run);
            var m := s.log[j];
            && m.correlation == m.event.orderId
            && Genuine(s.orders, m)
            && Caused(s.orders, s.log[..j], m)
            && (m.event.PaymentDeclined? ==> forall k :: 0 <= k < |s.log| && s.log[k].event.orderId == m.event.orderId ==>
                  s.log[k].event.OrderPlaced? || s.log[k].event.PaymentDeclined?)
  {
    var s := End(Initial(stock, failures), run);
    RunIsCausal(Initial(stock, failures), run);
    assert s.log[j] in s.log;
    forall k | 0 <= k < |s.log| ensures Genuine(s.orders, s.log[k]) {
      assert s.log[k] in s.log;
    }
  }

  /** A shipped order was reserved before it, captured before that, placed before that,
      and its row is committed. */
  lemma ShippedHasItsHistory(stock: map<string, int>, failures: int, run: seq<Action>, j: nat)
      returns (placed: nat, captured: nat, reserved: nat)
    requires Runs(Initial(stock, failures), run)
    requires var log := End(Initial(stock, failures), run).log; j < |log| && log[j].event.OrderShipped?
    ensures var s := End(Initial(stock, failures), run);
            && placed < captured < reserved < j
            && s.log[j].event.orderId in s.orders
            && var o := s.orders[s.log[j].event.orderId];
               s.log[placed] == Placed(o) && s.log[captured] == Captured(o) && s.log[reserved] == Reserved(o)
  {
    var s := End(Initial(stock, failures), run);
    EveryEventIsCaused(stock, failures, run, j);
    var o := s.orders[s.log[j].event.orderId];
    reserved :| 0 <= reserved < j && s.log[reserved] == Reserved(o);
    EveryEventIsCaused(stock, failures, run, reserved);
    captured :| 0 <= captured < reserved && s.log[captured] == Captured(o);
    EveryEventIsCaused(stock, failures, run, captured);
    placed :| 0 <= placed < captured && s.log[placed] == Placed(o);
  }

  lemma {:induction false} RunIsTakenUp(s: System, run: seq<Action>)
    requires Runs(s, run) && Causal(s) && TakenUp(s)
    ensures TakenUp(End(s, run))
    decreases |run|
  {
    if run != [] {
      CausalNext(s, run[0]);
      TakenUpNext(s, run[0]);
      RunIsTakenUp(Next(s, run[0]), run[1..]);
    }
  }

  /** An order is charged at most once, plus once for every time its claim lapsed. */
  lemma ChargedOncePerClaim(stock: map<string, int>, failures: int, run: seq<Action>, id: string)
    requires Runs(Initial(stock, failures), run)
    ensures var s := End(Initial(stock, failures), run);
            Outcomes(s.log, id) <= 1 + s.past.lapses[id]
  {
    var s := End(Initial(stock, failures), run);
    RunIsCharged(Initial(stock, failures), run, id);
    SumNonNegative(ClaimFor(id), s.work);
  }

  /** Every claim won for an order tells its outcome, is about to, or stopped short of its
      send. Once nothing is left to do, a committed order has been told its outcome exactly
      when fewer of its claims stopped than were won: without lapses, when none did. */
  lemma ToldUnlessItsClaimsStopped(stock: map<string, int>, failures: int, run: seq<Action>, id: string)
    requires Runs(Initial(stock, failures), run)
    ensures var s := End(Initial(stock, failures), run);
            var told, stopped, won := Outcomes(s.log, id), s.past.stopped[id], s.past.won[id];
            && told + Sum(ClaimFor(id), s.work) + stopped == won <= 1 + s.past.lapses[id]
            && (s.past.lapses[id] == 0 && stopped > 0 ==> told == 0)
            && (s.work == [] && id in s.orders ==>
                  && 1 <= won == told + stopped
                  && (told > 0 <==> stopped < won)
                  && (s.past.lapses[id] == 0 ==> (told == 1 <==> stopped == 0)))
  {
    var s := End(Initial(stock, failures), run);
    RunIsCharged(Initial(stock, failures), run, id);
    RunIsAnnounced(Initial(stock, failures), run);
    RunIsTakenUp(Initial(stock, failures), run);
    SumNonNegative(ClaimFor(id), s.work);
    SumNonNegative(OutcomeFor(id), s.log);
  }

  lemma {:induction false} RunAddsUpRefusals(s: System, run: seq<Action>)
    requires Runs(s, run) && Causal(s) && RefusalsAddUp(s) && ConfirmedIsTold(s)
    ensures RefusalsAddUp(End(s, run)) && ConfirmedIsTold(End(s, run))
    decreases |run|
  {
    if run != [] {
      CausalNext(s, run[0]);
      RefusalsAddUpNext(s, run[0]);
      ConfirmedIsToldNext(s, run[0]);
      RunAddsUpRefusals(Next(s, run[0]), run[1..]);
    }
  }

  /** The charge deliveries that found their claim in the store. */
  function RefusedIn(s: System, run: seq<Action>): nat
    requires Runs(s, run)
    decreases |run|
  {
    if run == [] then 0 else
      (if run[0].Act? && FindsItsClaim(s, s.work[run[0].index]) then 1 else 0) + RefusedIn(Next(s, run[0]), run[1..])
  }

  predicate FindsItsClaim(s: System, x: Item) {
    x.ToCharge? && x.m.event.orderId in s.payments.store
  }

  /** The deliveries that called the warehouse. */
  function CallsIn(s: System, run: seq<Action>): nat
    requires Runs(s, run)
    decreases |run|
  {
    if run == [] then 0 else
      (if run[0].Act? && s.work[run[0].index].ToReserve? then 1 else 0) + CallsIn(Next(s, run[0]), run[1..])
  }

  lemma {:induction false} RunCounts(s: System, run: seq<Action>)
    requires Runs(s, run)
    ensures End(s, run).payments.duplicatesRefused == s.payments.duplicatesRefused + RefusedIn(s, run)
    ensures End(s, run).inventory.warehouseCalls == s.inventory.warehouseCalls + CallsIn(s, run)
    decreases |run|
  {
    if run != [] {
      CountsOneStep(s, run[0]);
      RunCounts(Next(s, run[0]), run[1..]);
    }
  }

  lemma CountsOneStep(s: System, a: Action)
    requires Enabled(s, a)
    ensures Next(s, a).payments.duplicatesRefused
            == s.payments.duplicatesRefused + if a.Act? && FindsItsClaim(s, s.work[a.index]) then 1 else 0
    ensures Next(s, a).inventory.warehouseCalls
            == s.inventory.warehouseCalls + if a.Act? && s.work[a.index].ToReserve? then 1 else 0
  {
    if a.SendFails? || a.Redeliver? {
      StopTakesNothing(s, s.work[a.index]);
    }
  }

  /** The duplicates refused are the charge deliveries that found their claim in the store:
      the announcements, and the deliveries of them that came back or were made once more,
      less the claims won and what still waits. */
  lemma DuplicatesAreCounted(stock: map<string, int>, failures: int, run: seq<Action>)
    requires Runs(Initial(stock, failures), run)
    ensures var s := End(Initial(stock, failures), run);
            && s.payments.duplicatesRefused == RefusedIn(Initial(stock, failures), run)
            && s.payments.duplicatesRefused ==
                 Sum(IsAnnouncement(), s.log) + |s.past.stopped| + Sum(IsToCharge(), s.past.repeated)
                 - |s.past.won| - Sum(IsToCharge(), s.work)
  {
    RunCounts(Initial(stock, failures), run);
    RunAddsUpRefusals(Initial(stock, failures), run);
  }

  /** A claim is confirmed only when its outcome is in the log. */
  lemma ConfirmedMeansTold(stock: map<string, int>, failures: int, run: seq<Action>, id: string)
    requires Runs(Initial(stock, failures), run)
    requires var store := End(Initial(stock, failures), run).payments.store; id in store && store[id].Confirmed?
    ensures Outcomes(End(Initial(stock, failures), run).log, id) > 0
  {
    RunAddsUpRefusals(Initial(stock, failures), run);
  }

  /** Every delivery to the inventory is one call of its warehouse, answered or not. */
  lemma WarehouseCallsAreCounted(stock: map<string, int>, failures: int, run: seq<Action>)
    requires Runs(Initial(stock, failures), run)
    ensures End(Initial(stock, failures), run).inventory.warehouseCalls == CallsIn(Initial(stock, failures), run)
  {
    RunCounts(Initial(stock, failures), run);
  }

  lemma {:induction false} RunKeepsStrandedGenuine(s: System, run: seq<Action>)
    requires Runs(s, run) && Causal(s) && StrandedGenuine(s)
    ensures StrandedGenuine(End(s, run))
    decreases |run|
  {
    if run != [] {
      CausalNext(s, run[0]);
      StrandedGenuineNext(s, run[0]);
      RunKeepsStrandedGenuine(Next(s, run[0]), run[1..]);
    }
  }

  /** Stock is conserved and never negative: what is not left is published as reserved, in
      a handler's hands, or stranded. With no negative quantity ordered, what is published
      as reserved never exceeds the stock there was. */
  lemma NeverOversold(stock: map<string, int>, failures: int, run: seq<Action>, sku: string)
    requires Runs(Initial(stock, failures), run) && Initial(stock, failures).inventory.Left(sku) >= 0
    ensures var s := End(Initial(stock, failures), run);
            var initial := Initial(stock, failures).inventory.Left(sku);
            && s.inventory.Left(sku) >= 0
            && s.inventory.Left(sku) + Sum(ReservedOf(sku), s.log) + Sum(HeldBy(sku), s.work)
               + Sum(ReservedOf(sku), s.past.stranded) == initial
            && (NothingNegative(s) ==> Sum(ReservedOf(sku), s.log) <= initial)
  {
    var s := End(Initial(stock, failures), run);
    RunIsStocked(Initial(stock, failures), run, Initial(stock, failures).inventory.Left(sku), sku);
    RunIsCausal(Initial(stock, failures), run);
    RunKeepsStrandedGenuine(Initial(stock, failures), run);
    if NothingNegative(s) {
      NothingNegativeHeld(s, sku);
    }
  }

  lemma NothingNegativeHeld(s: System, sku: string)
    requires Causal(s) && StrandedGenuine(s) && NothingNegative(s)
    ensures Sum(HeldBy(sku), s.work) >= 0 && Sum(ReservedOf(sku), s.past.stranded) >= 0
  {
    forall m | Genuine(s.orders, m) ensures ReservedOf(sku)(m) >= 0 {
      assert s.orders[m.event.orderId].quantity >= 0;
    }
    forall x | x in s.work ensures HeldBy(sku)(x) >= 0 {
      assert x.Holding? ==> Genuine(s.orders, x.answer);
    }
    SumNonNegative(HeldBy(sku), s.work);
    SumNonNegative(ReservedOf(sku), s.past.stranded);
  }

  /** Once nothing is left to do, the stock taken is the stock published exactly when no
      handler stopped while it held some. */
  lemma TakenIsPublishedIff(stock: map<string, int>, failures: int, run: seq<Action>, sku: string)
    requires Runs(Initial(stock, failures), run) && Initial(stock, failures).inventory.Left(sku) >= 0
    requires var s := End(Initial(stock, failures), run);
             s.work == [] && forall id :: id in s.orders ==> s.orders[id].quantity > 0
    ensures var s := End(Initial(stock, failures), run);
            Sum(ReservedOf(sku), s.log) == Initial(stock, failures).inventory.Left(sku) - s.inventory.Left(sku)
            <==> forall m :: m in s.past.stranded ==> !(m.event.StockReserved? && m.event.sku == sku)
  {
    var s := End(Initial(stock, failures), run);
    NeverOversold(stock, failures, run, sku);
    RunKeepsStrandedGenuine(Initial(stock, failures), run);
    forall m | m in s.past.stranded ensures ReservedOf(sku)(m) >= 0 {
      assert Genuine(s.orders, m) && s.orders[m.event.orderId].quantity > 0;
    }
    SumNonNegative(ReservedOf(sku), s.past.stranded);
    if forall m :: m in s.past.stranded ==> !(m.event.StockReserved? && m.event.sku == sku) {
      SumZero(ReservedOf(sku), s.past.stranded);
    } else {
      var m :| m in s.past.stranded && m.event.StockReserved? && m.event.sku == sku;
      assert Genuine(s.orders, m) && ReservedOf(sku)(m) > 0;
    }
  }

  lemma {:induction false} RunIsAnswered(s: System, run: seq<Action>, id: string)
    requires Runs(s, run) && Causal(s) && AnsweredFor(s, id)
    ensures AnsweredFor(End(s, run), id)
    decreases |run|
  {
    if run != [] {
      CausalNext(s, run[0]);
      AnsweredForNext(s, run[0], id);
      RunIsAnswered(Next(s, run[0]), run[1..], id);
    }
  }

  /** Inventory cannot be handed a message twice to the same end. Once nothing is left to do,
      the reservations and refusals of stock published for an order are its captures and
      the deliveries of them made once more, less the dead letters: one for one capture
      exactly when as many were dead-lettered as repeated, so when neither happened. */
  lemma AnswersOfAnOrder(stock: map<string, int>, failures: int, run: seq<Action>, id: string)
    requires Runs(Initial(stock, failures), run)
    ensures var s := End(Initial(stock, failures), run);
            var answers, captures := Sum(AnswerOf(id), s.log), Sum(CaptureOf(id), s.log);
            var repeats, buried := Sum(Reserving(id), s.past.repeated), Sum(OfOrder(id), s.past.dead);
            && answers + Sum(Reserving(id), s.work) + buried == captures + repeats
            && (s.work == [] && captures == 1 ==> (answers == 1 <==> repeats == buried))
            && (s.work == [] && captures == 1 && NotRepeated(s, id) ==> answers == 1)
  {
    RunIsAnswered(Initial(stock, failures), run, id);
    var s := End(Initial(stock, failures), run);
    if NotRepeated(s, id) {
      SumZero(Reserving(id), s.past.repeated);
      SumZero(OfOrder(id), s.past.dead);
    }
  }

  /** No delivery of the order's capture was made once more, and none was dead-lettered. */
  predicate NotRepeated(s: System, id: string) {
    (forall x :: x in s.past.repeated ==> !IsReserving(x, id)) && forall m :: m in s.past.dead ==> m.event.orderId != id
  }

  /** Retries are failed attempts less dead letters; a dead letter takes four attempts, made
      by its own delivery or inherited from the one it duplicates; and three failures
      dead-letter nothing, duplicated or not. */
  lemma RetriesAreCounted(stock: map<string, int>, failures: int, run: seq<Action>)
    requires Runs(Initial(stock, failures), run)
    ensures var s := End(Initial(stock, failures), run);
            && s.past.retried == FailedAttempts(s) - |s.past.dead|
            && 4 * |s.past.dead| <= FailedAttempts(s) + s.past.inherited
            && (FailedAttempts(s) <= 3 ==> s.past.dead == [])
            && (s.past.sendFailures == 0 && failures >= 0 ==> FailedAttempts(s) <= failures)
            && (s.past.sendFailures == 0 && failures <= 3 ==> s.past.dead == [])
  {
    var s := End(Initial(stock, failures), run);
    RunIsCounted(Initial(stock, failures), run);
    SumNonNegative(FailedOf(), s.work);
    RunKeepsFailures(Initial(stock, failures), run);
  }

  lemma {:induction false} RunKeepsFailures(s: System, run: seq<Action>)
    requires Runs(s, run)
    ensures End(s, run).inventory.failuresToSimulate == s.inventory.failuresToSimulate
    decreases |run|
  {
    if run != [] {
      RunKeepsFailures(Next(s, run[0]), run[1..]);
    }
  }

  lemma {:induction false} RunNeverOvercounts(s: System, run: seq<Action>, t: EventType)
    requires Runs(s, run) && Causal(s) && !t.TypePlaced? && Uncounted(s, t) >= 0
    ensures Uncounted(End(s, run), t) >= 0
    decreases |run|
  {
    if run != [] {
      CausalNext(s, run[0]);
      UncountedNext(s, run[0], t);
      RunNeverOvercounts(Next(s, run[0]), run[1..], t);
    }
  }

  /** No service ever claims more outcomes than it published. */
  lemma CountersNeverOverstate(stock: map<string, int>, failures: int, run: seq<Action>, t: EventType)
    requires Runs(Initial(stock, failures), run) && !t.TypePlaced?
    ensures var s := End(Initial(stock, failures), run); Counter(s, t) <= Sum(OfType(t), s.log)
  {
    RunNeverOvercounts(Initial(stock, failures), run, t);
    SumNonNegative(ToCount(t), End(Initial(stock, failures), run).work);
  }
}
