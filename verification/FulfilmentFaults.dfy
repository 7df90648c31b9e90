/** The shortest runs in which a fault costs something, and how much. */
module FulfilmentFaults {
  import opened Sequences
  import opened Fulfilment
  import opened FulfilmentSystem
  import opened FulfilmentSafety
  import opened FulfilmentCounts
  import opened FulfilmentTheorems
  import Inventory

  // ---- one order by itself ---------------------------------------------------------------

  lemma SpliceOne<T>(x: T, rest: seq<T>, ys: seq<T>)
    ensures Splice([x] + rest, 0, ys) == ys + rest
  {
    assert ([x] + rest)[..0] == [] && ([x] + rest)[1..] == rest;
    assert [] + ys == ys;
  }

  /** The first item takes its next step. */
  lemma ActFirst(s0: System, before: seq<Action>, rest: seq<Item>) returns (run: seq<Action>)
    requires Runs(s0, before)
    requires var s := End(s0, before); s.work != [] && Startable(s.work[0]) && s.work[1..] == rest
    ensures run == before + [Act(0)] && Runs(s0, run)
    ensures var s := End(s0, before);
            End(s0, run) == Effect(s, s.work[0]).(work := Follow(s, s.work[0]) + rest)
  {
    var s := End(s0, before);
    RunsAppend(s0, before, Act(0));
    run := before + [Act(0)];
    assert s.work == [s.work[0]] + rest;
    SpliceOne(s.work[0], rest, Follow(s, s.work[0]));
  }

  /** An order is placed and announced, and payments wins its claim. */
  lemma ReachCharging(stock: map<string, int>, failures: int, o: Order) returns (run: seq<Action>)
    ensures run == [Place(o), Act(0), Act(0), Act(0)] && Runs(Initial(stock, failures), run)
    ensures var s0, s := Initial(stock, failures), End(Initial(stock, failures), run);
            && s.orders == map[o.id := o] && s.work == [Charging(Placed(o))] && s.log == [Placed(o)]
            && o.id in s.payments.store && s.inventory == s0.inventory
            && s.past == s0.past.(won := multiset{o.id})
  {
    var s0 := Initial(stock, failures);
    run := [];
    RunsAppend(s0, run, Place(o));
    run := run + [Place(o)];
    assert End(s0, run).work == [Outbox(Placed(o))];
    run := ActFirst(s0, run, []);
    assert End(s0, run).work == [Sent(Outbox(Placed(o)))] + [ToCharge(Placed(o))];
    run := ActFirst(s0, run, [ToCharge(Placed(o))]);
    assert End(s0, run).work == [ToCharge(Placed(o))];
    run := ActFirst(s0, run, []);
  }

  /** And its outcome, captured, reaches the inventory. */
  lemma ReachCaptured(stock: map<string, int>, failures: int, o: Order) returns (run: seq<Action>)
    requires Affordable(o)
    ensures Runs(Initial(stock, failures), run)
    ensures var s0, s := Initial(stock, failures), End(Initial(stock, failures), run);
            && s.orders == map[o.id := o] && s.work == [ToReserve(Captured(o), 0)] && s.log == [Placed(o), Captured(o)]
            && s.inventory == s0.inventory && s.past == s0.past.(won := multiset{o.id})
  {
    var s0 := Initial(stock, failures);
    run := ReachCharging(stock, failures, o);
    var s := End(s0, run);
    assert ToSend(Charging(Placed(o))) == Captured(o);
    run := ActFirst(s0, run, []);
    assert End(s0, run).work == [Sent(Charging(Placed(o)))] + [ToReserve(Captured(o), 0)];
    run := ActFirst(s0, run, [ToReserve(Captured(o), 0)]);
    assert End(s0, run).work == [ToReserve(Captured(o), 0)];
  }

  // ---- a claim that stops before its send --------------------------------------------------

  /** A crash between the claim and the send, or a send that raises, leaves a committed and
      announced order with nothing more to be done for it, and its outcome never told. */
  lemma AStoppedChargeIsNeverTold(stock: map<string, int>, failures: int, o: Order, stop: Action)
    requires stop == Redeliver(0) || stop == SendFails(0)
    ensures var run := [Place(o), Act(0), Act(0), Act(0), stop, Act(0)];
            && Runs(Initial(stock, failures), run)
            && var s := End(Initial(stock, failures), run);
               && s.orders == map[o.id := o] && s.log == [Placed(o)] && s.work == []
               && s.past.lapses == multiset{} && s.past.stopped == multiset{o.id}
  {
    var s0 := Initial(stock, failures);
    var run := ReachCharging(stock, failures, o);
    run := ClaimStops(s0, run, Placed(o), stop);
    run := ActFirst(s0, run, []);
    assert run == [Place(o), Act(0), Act(0), Act(0), stop, Act(0)];
  }

  lemma ClaimStops(s0: System, before: seq<Action>, m: Message, stop: Action) returns (run: seq<Action>)
    requires Runs(s0, before) && End(s0, before).work == [Charging(m)] && m.event.OrderPlaced?
    requires stop == Redeliver(0) || stop == SendFails(0)
    ensures run == before + [stop] && Runs(s0, run)
    ensures End(s0, run) == Abandoned(End(s0, before), Charging(m)).(work := [ToCharge(m)])
  {
    SpliceOne(Charging(m), [], [ToCharge(m)]);
    assert [Charging(m)] == [Charging(m)] + [] && [ToCharge(m)] + [] == [ToCharge(m)];
    RunsAppend(s0, before, stop);
    run := before + [stop];
  }

  // ---- an order announced twice ------------------------------------------------------------

  /** The relay stops between publishing and marking, and publishes again: the order is
      charged once, and the duplicate refused and counted. */
  lemma AnnouncedTwiceIsChargedOnce(stock: map<string, int>, failures: int, o: Order) returns (run: seq<Action>)
    requires Affordable(o)
    ensures Runs(Initial(stock, failures), run)
    ensures var s := End(Initial(stock, failures), run);
            && s.log == [Placed(o), Placed(o), Captured(o)]
            && s.payments.duplicatesRefused == 1 && s.payments.captured == 1
            && o.id in s.payments.store && s.payments.store[o.id].Confirmed?
            && s.work == [ToReserve(Captured(o), 0)]
  {
    var s0 := Initial(stock, failures);
    run := AnnouncedTwice(stock, failures, o);
    run := ActFirst(s0, run, [ToCharge(Placed(o))]);
    assert End(s0, run).work == [Charging(Placed(o))] + [ToCharge(Placed(o))];
    run := ActFirst(s0, run, [ToCharge(Placed(o))]);
    assert End(s0, run).work == [Sent(Charging(Placed(o)))] + [ToReserve(Captured(o), 0), ToCharge(Placed(o))];
    run := ActFirst(s0, run, [ToReserve(Captured(o), 0), ToCharge(Placed(o))]);
    assert End(s0, run).work == [ToReserve(Captured(o), 0), ToCharge(Placed(o))];
    RunsAppend(s0, run, Act(1));
    run := run + [Act(1)];
    assert End(s0, run).work == [ToReserve(Captured(o), 0)];
  }

  lemma AnnouncedTwice(stock: map<string, int>, failures: int, o: Order) returns (run: seq<Action>)
    ensures Runs(Initial(stock, failures), run)
    ensures var s0, s := Initial(stock, failures), End(Initial(stock, failures), run);
            && s.work == [ToCharge(Placed(o)), ToCharge(Placed(o))] && s.log == [Placed(o), Placed(o)]
            && s.payments == s0.payments && s.inventory == s0.inventory && s.past.lapses == multiset{}
  {
    var s0 := Initial(stock, failures);
    run := [];
    RunsAppend(s0, run, Place(o));
    run := run + [Place(o)];
    assert End(s0, run).work == [Outbox(Placed(o))];
    run := ActFirst(s0, run, []);
    assert End(s0, run).work == [Sent(Outbox(Placed(o)))] + [ToCharge(Placed(o))];
    RunsAppend(s0, run, Redeliver(0));
    run := run + [Redeliver(0)];
    assert End(s0, run).work == [Outbox(Placed(o))] + [ToCharge(Placed(o))];
    run := ActFirst(s0, run, [ToCharge(Placed(o))]);
    assert End(s0, run).work == [Sent(Outbox(Placed(o)))] + [ToCharge(Placed(o)), ToCharge(Placed(o))];
    run := ActFirst(s0, run, [ToCharge(Placed(o)), ToCharge(Placed(o))]);
  }

  /** A claim that lapses between the two lets both through: the customer is charged twice. */
  lemma ALapsedClaimIsChargedTwice(stock: map<string, int>, failures: int, o: Order) returns (run: seq<Action>)
    requires Affordable(o)
    ensures Runs(Initial(stock, failures), run)
    ensures var s := End(Initial(stock, failures), run);
            && s.log == [Placed(o), Placed(o), Captured(o), Captured(o)]
            && s.past.lapses == multiset{o.id} && s.payments.captured == 2 && s.payments.duplicatesRefused == 0
  {
    var s0 := Initial(stock, failures);
    run := AnnouncedTwice(stock, failures, o);
    assert End(s0, run).work == [] + [ToCharge(Placed(o))] + [ToCharge(Placed(o))];
    run := ChargeAt(s0, run, o, [], [ToCharge(Placed(o))]);
    run := ClaimLapses(s0, run, o.id);
    assert End(s0, run).work == [ToReserve(Captured(o), 0)] + [ToCharge(Placed(o))] + [];
    run := ChargeAt(s0, run, o, [ToReserve(Captured(o), 0)], []);
  }

  lemma ClaimLapses(s0: System, before: seq<Action>, id: string) returns (run: seq<Action>)
    requires Runs(s0, before) && id in End(s0, before).payments.store
    ensures Runs(s0, run) && run == before + [Lapse(id)]
    ensures var s, e := End(s0, before), End(s0, run);
            && e.work == s.work && e.log == s.log && id !in e.payments.store
            && e.payments.captured == s.payments.captured && e.payments.duplicatesRefused == s.payments.duplicatesRefused
            && e.past.lapses == s.past.lapses + multiset{id}
  {
    RunsAppend(s0, before, Lapse(id));
    run := before + [Lapse(id)];
  }

  /** One delivery is charged to the end, whatever else is queued. */
  lemma ChargeAt(s0: System, before: seq<Action>, o: Order, pre: seq<Item>, post: seq<Item>) returns (run: seq<Action>)
    requires Runs(s0, before) && Affordable(o)
    requires var s := End(s0, before);
             s.work == pre + [ToCharge(Placed(o))] + post && o.id !in s.payments.store
    ensures Runs(s0, run)
    ensures var s, e := End(s0, before), End(s0, run);
            && e.work == pre + [ToReserve(Captured(o), 0)] + post && e.log == s.log + [Captured(o)]
            && o.id in e.payments.store && e.payments.captured == s.payments.captured + 1
            && e.payments.duplicatesRefused == s.payments.duplicatesRefused && e.past.lapses == s.past.lapses
  {
    var reserve := [ToReserve(Captured(o), 0)] + post;
    run := ActAt(s0, before, pre, ToCharge(Placed(o)), post);
    run := PublishAt(s0, run, o, pre, post);
    run := ActAt(s0, run, pre, Sent(Charging(Placed(o))), reserve);
    assert pre + [] + reserve == pre + [ToReserve(Captured(o), 0)] + post;
  }

  lemma PublishAt(s0: System, before: seq<Action>, o: Order, pre: seq<Item>, post: seq<Item>) returns (run: seq<Action>)
    requires Runs(s0, before) && Affordable(o) && End(s0, before).work == pre + [Charging(Placed(o))] + post
    ensures Runs(s0, run)
    ensures var s := End(s0, before);
            End(s0, run) == s.(log := s.log + [Captured(o)],
                               work := pre + [Sent(Charging(Placed(o)))] + ([ToReserve(Captured(o), 0)] + post))
  {
    run := ActAt(s0, before, pre, Charging(Placed(o)), post);
    assert ToSend(Charging(Placed(o))) == Captured(o);
    assert End(s0, run).work == pre + [Sent(Charging(Placed(o)))] + ([ToReserve(Captured(o), 0)] + post);
  }

  lemma ActAt(s0: System, before: seq<Action>, pre: seq<Item>, x: Item, post: seq<Item>) returns (run: seq<Action>)
    requires Runs(s0, before) && End(s0, before).work == pre + [x] + post && Startable(x)
    ensures run == before + [Act(|pre|)] && Runs(s0, run)
    ensures var s := End(s0, before); End(s0, run) == Effect(s, x).(work := pre + Follow(s, x) + post)
  {
    var s := End(s0, before);
    assert s.work[|pre|] == x && s.work[..|pre|] == pre && s.work[|pre| + 1..] == post;
    RunsAppend(s0, before, Act(|pre|));
    run := before + [Act(|pre|)];
  }

  // ---- stock that is taken twice -------------------------------------------------------------

  /** Stock moves before its reservation is published. A reservation whose send raised takes
      it again when it is retried: one order, reserved once, costs its quantity twice. */
  lemma AFailedReservationHoldsTwice(o: Order, initial: int) returns (run: seq<Action>)
    requires Affordable(o) && 0 <= o.quantity && 2 * o.quantity <= initial
    ensures Runs(Initial(map[o.sku := initial], 0), run)
    ensures var s := End(Initial(map[o.sku := initial], 0), run);
            && s.orders == map[o.id := o] && s.log == [Placed(o), Captured(o), Reserved(o)]
            && s.inventory.Left(o.sku) == initial - 2 * o.quantity
            && s.past.stranded == [Reserved(o)]
  {
    var stock := map[o.sku := initial];
    var s0 := Initial(stock, 0);
    run := ReachCaptured(stock, 0, o);
    run := ActFirst(s0, run, []);
    var holding := End(s0, run).work[0];
    assert End(s0, run).work == [Holding(Captured(o), 0, Reserved(o))] + [];
    SpliceOne(holding, [], [ToReserve(Captured(o), 1)]);
    RunsAppend(s0, run, SendFails(0));
    run := run + [SendFails(0)];
    assert End(s0, run).work == [ToReserve(Captured(o), 1)];
    assert End(s0, run).past.stranded == [Reserved(o)];
    run := ActFirst(s0, run, []);
    assert End(s0, run).work == [Holding(Captured(o), 1, Reserved(o))];
    run := ActFirst(s0, run, []);
  }

  // ---- what duplicates do to the retry limit ---------------------------------------------------

  function Copies(m: Message, k: nat): seq<Item> {
    if k == 0 then [] else [ToReserve(m, 1)] + Copies(m, k - 1)
  }

  lemma {:induction false} CopiesEnd(m: Message, k: nat)
    ensures Copies(m, k) + [ToReserve(m, 1)] == Copies(m, k + 1)
  {
    if k > 0 {
      CopiesEnd(m, k - 1);
      assert Copies(m, k) + [ToReserve(m, 1)] == [ToReserve(m, 1)] + (Copies(m, k - 1) + [ToReserve(m, 1)]);
    } else {
      assert Copies(m, 1) == [ToReserve(m, 1)] + [];
    }
  }

  lemma {:induction false} Duplicated(s0: System, before: seq<Action>, m: Message, n: nat) returns (run: seq<Action>)
    requires Runs(s0, before) && End(s0, before).work == Copies(m, 1)
    ensures Runs(s0, run)
    ensures var s := End(s0, before);
            End(s0, run) ==
              s.(work := Copies(m, n + 1),
                 past := s.past.(inherited := s.past.inherited + n, repeated := End(s0, run).past.repeated))
  {
    if n == 0 {
      run := before;
    } else {
      run := Duplicated(s0, before, m, n - 1);
      CopiesEnd(m, n);
      RunsAppend(s0, run, Duplicate(0));
      run := run + [Duplicate(0)];
    }
  }

  /** The first item's call fails once more. */
  lemma Fails(s0: System, before: seq<Action>, m: Message, failed: nat, rest: seq<Item>) returns (run: seq<Action>)
    requires Runs(s0, before) && m.event.PaymentCaptured?
    requires var s := End(s0, before); s.work == [ToReserve(m, failed)] + rest && s.inventory.Flaky()
    ensures Runs(s0, run)
    ensures var s := End(s0, before);
            End(s0, run) == CountRetry(s.(inventory := s.inventory.Called()), m, failed).(work := Retried(m, failed) + rest)
  {
    assert ([ToReserve(m, failed)] + rest)[1..] == rest;
    run := ActFirst(s0, before, rest);
  }

  /** Three more failures, and the first copy is dead-lettered. */
  lemma PerishOne(s0: System, before: seq<Action>, m: Message, rest: seq<Item>) returns (run: seq<Action>)
    requires Runs(s0, before) && m.event.PaymentCaptured?
    requires var s := End(s0, before);
             s.work == [ToReserve(m, 1)] + rest && s.inventory.warehouseCalls + 3 <= s.inventory.failuresToSimulate
    ensures Runs(s0, run)
    ensures var s, e := End(s0, before), End(s0, run);
            && e.work == rest && |e.past.dead| == |s.past.dead| + 1
            && e.inventory == s.inventory.(warehouseCalls := s.inventory.warehouseCalls + 3)
            && e.past.inherited == s.past.inherited && e.past.sendFailures == s.past.sendFailures
  {
    run := Fails(s0, before, m, 1, rest);
    run := Fails(s0, run, m, 2, rest);
    run := Fails(s0, run, m, 3, rest);
    assert [] + rest == rest;
  }

  /** And so every copy. */
  lemma {:induction false} Perish(s0: System, before: seq<Action>, m: Message, k: nat) returns (run: seq<Action>)
    requires Runs(s0, before) && m.event.PaymentCaptured?
    requires var s := End(s0, before);
             s.work == Copies(m, k) && s.inventory.warehouseCalls + 3 * k <= s.inventory.failuresToSimulate
    ensures Runs(s0, run)
    ensures var s, e := End(s0, before), End(s0, run);
            && |e.past.dead| == |s.past.dead| + k
            && e.inventory == s.inventory.(warehouseCalls := s.inventory.warehouseCalls + 3 * k)
            && e.past.inherited == s.past.inherited && e.past.sendFailures == s.past.sendFailures
    decreases k
  {
    run := before;
    if k > 0 {
      run := PerishOne(s0, run, m, Copies(m, k - 1));
      run := Perish(s0, run, m, k - 1);
    }
  }

  /** However many failed attempts are inherited, the bound is met exactly. */
  lemma RetryBoundIsTight(n: nat) returns (run: seq<Action>)
    ensures Runs(Initial(map[], 3 * n + 4), run)
    ensures var s := End(Initial(map[], 3 * n + 4), run);
            && s.past.inherited == n && s.past.sendFailures == 0
            && 4 * |s.past.dead| == FailedAttempts(s) + n && |s.past.dead| == n + 1
  {
    var s0 := Initial(map[], 3 * n + 4);
    var o := Order("ord-", "", "", 1, 0.0);
    run := ReachCaptured(map[], 3 * n + 4, o);
    run := ActFirst(s0, run, []);
    assert End(s0, run).work == Copies(Captured(o), 1) by {
      assert Copies(Captured(o), 1) == [ToReserve(Captured(o), 1)] + [];
    }
    run := Duplicated(s0, run, Captured(o), n);
    run := Perish(s0, run, Captured(o), n + 1);
  }

  /** One dead letter for every four simulated failures is the limit exactly when no failed
      attempt is inherited by a duplicate. */
  lemma DeadLettersAreOneInFourIff(n: nat)
    ensures (forall stock: map<string, int>, failures: nat, run: seq<Action> ::
               Runs(Initial(stock, failures), run)
               && End(Initial(stock, failures), run).past.sendFailures == 0
               && End(Initial(stock, failures), run).past.inherited == n ==>
                 |End(Initial(stock, failures), run).past.dead| <= failures / 4)
            <==> n == 0
  {
    forall stock: map<string, int>, failures: nat, run: seq<Action> |
      Runs(Initial(stock, failures), run)
      && End(Initial(stock, failures), run).past.sendFailures == 0
      && End(Initial(stock, failures), run).past.inherited == 0
      ensures |End(Initial(stock, failures), run).past.dead| <= failures / 4
    {
      RetriesAreCounted(stock, failures, run);
    }
    if n > 0 {
      var run := RetryBoundIsTight(n);
      var failures: nat := 3 * n + 4;
      assert |End(Initial(map[], failures), run).past.dead| == n + 1 > failures / 4;
    }
  }
}
