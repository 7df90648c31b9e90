/** How order fulfilment comes to rest: whatever faults there were, within a known number of
    steps; and without faults with every order's timeline one of the three stories an order
    can have. */
module FulfilmentDrain {
  import opened Sequences
  import opened Fulfilment
  import opened FulfilmentSystem
  import opened FulfilmentSafety
  import opened FulfilmentCounts
  import opened FulfilmentTheorems
  import Notifications
  import Inventory

  predicate FaultFree(a: Action) {
    a.Place? || a.Act? || a.Note?
  }

  predicate Draining(a: Action) {
    a.Act? || a.Note?
  }

  // ---- what an order's customer has been told --------------------------------------

  function Told(log: seq<Message>, id: string): seq<EventType> {
    if log == [] then [] else
      var m := log[|log| - 1];
      Told(log[..|log| - 1], id) + if m.correlation == id then [m.event.Type()] else []
  }

  lemma ToldAppend(log: seq<Message>, m: Message, id: string)
    ensures Told(log + [m], id) == Told(log, id) + if m.correlation == id then [m.event.Type()] else []
  {
    assert (log + [m])[..|log|] == log;
  }

  /** The stories an order can have, by what it costs. */
  predicate Finished(o: Order, told: seq<EventType>) {
    if Affordable(o) then
      || told == [TypePlaced, TypeCaptured, TypeReserved, TypeShipped]
      || told == [TypePlaced, TypeCaptured, TypeUnavailable]
    else
      told == [TypePlaced, TypeDeclined]
  }

  // ---- each unfinished order has exactly one live item -----------------------------

  function LiveFor(id: string): Item -> bool {
    (x: Item) => !x.Sent? && x.m.event.orderId == id
  }

  function Live(s: System, id: string): seq<Item> {
    Filter(LiveFor(id), s.work)
  }

  /** What has been told by the time an item is there. */
  function Before(x: Item): seq<EventType> {
    match x
    case Outbox(_) => []
    case ToCharge(_) => [TypePlaced]
    case Charging(_) => [TypePlaced]
    case ToReserve(_, _) => [TypePlaced, TypeCaptured]
    case Holding(_, _, _) => [TypePlaced, TypeCaptured]
    case ToShip(_) => [TypePlaced, TypeCaptured, TypeReserved]
    case Sent(_) => []
  }

  predicate OnItsWay(s: System, id: string) {
    var live := Live(s, id);
    var told := Told(s.log, id);
    if id !in s.orders then
      live == [] && told == [] && id !in s.payments.store
    else if live == [] then
      Finished(s.orders[id], told)
    else
      && |live| == 1
      && told == Before(live[0])
      && (live[0].Outbox? || live[0].ToCharge? ==> id !in s.payments.store)
  }

  /** Without lapses, a claim that was won is still there. */
  predicate HoldsClaim(s: System, x: Item) {
    var y := if x.Sent? then x.of else x;
    y.Charging? ==> y.m.event.orderId in s.payments.store
  }

  predicate FewFailures(s: System) {
    Counted(s) && s.past.sendFailures == 0 && s.inventory.failuresToSimulate <= 3
  }

  ghost predicate ClaimsHeld(s: System) {
    forall x :: x in s.work ==> HoldsClaim(s, x)
  }

  predicate Handles(x: Item, id: string) {
    var y := if x.Sent? then x.of else x;
    y.Charging? && y.m.event.orderId == id
  }

  /** A claim that is not confirmed has its handler at work; an outcome has its claim. */
  ghost predicate LeasesAtWork(s: System) {
    && (forall id :: id in s.payments.store && s.payments.store[id].Leased? ==> exists x :: x in s.work && Handles(x, id))
    && (forall m :: m in s.log && (m.event.PaymentCaptured? || m.event.PaymentDeclined?) ==>
          m.event.orderId in s.payments.store)
  }

  ghost predicate AllCounted(s: System) {
    forall t: EventType :: !t.TypePlaced? ==> Uncounted(s, t) == 0
  }

  ghost predicate InTime(s: System) {
    s.noted <= |s.log| && forall id :: Notifications.TimelineOf(s.timeline, id) == Told(s.log[..s.noted], id)
  }

  ghost predicate AllOnTheirWay(s: System) {
    forall id :: OnItsWay(s, id)
  }

  /** Everything a fault-free run keeps. */
  ghost predicate Steady(s: System) {
    && Causal(s)
    && FewFailures(s)
    && ClaimsHeld(s)
    && LeasesAtWork(s)
    && AllCounted(s)
    && s.payments.duplicatesRefused == 0
    && InTime(s)
    && AllOnTheirWay(s)
  }

  lemma NothingIsDeadLettered(s: System, x: Item)
    requires FewFailures(s) && x in s.work && x.ToReserve? && s.inventory.Flaky()
    ensures Retried(x.m, x.failed) == [ToReserve(x.m, x.failed + 1)]
  {
    assert x.Failed() == x.failed;
  }

  lemma OnItsWayStep(s: System, i: nat, id: string)
    requires i < |s.work| && Startable(s.work[i]) && GoodItem(s.orders, s.log, s.work[i]) && OnItsWay(s, id)
    requires HoldsClaim(s, s.work[i])
    requires var x := s.work[i];
             x.ToReserve? && s.inventory.Flaky() ==> Retried(x.m, x.failed) == [ToReserve(x.m, x.failed + 1)]
    ensures OnItsWay(Next(s, Act(i)), id)
  {
    var x := s.work[i];
    FilterSplice(LiveFor(id), s.work, i, Follow(s, x));
    if x.Sent? || x.m.event.orderId != id {
      NotLive(s, x, id);
      assert Live(Next(s, Act(i)), id) == Live(s, id);
      ToldUnchanged(s, x, id);
    } else {
      assert LiveFor(id)(x);
      assert Live(s, id) == [x];
      LiveMovesOn(s, Next(s, Act(i)), x);
    }
  }

  lemma LiveMovesOn(s: System, s': System, x: Item)
    requires Startable(x) && !x.Sent? && GoodItem(s.orders, s.log, x) && HoldsClaim(s, x)
    requires Live(s, x.m.event.orderId) == [x] && OnItsWay(s, x.m.event.orderId)
    requires s' == Effect(s, x).(work := s'.work)
    requires Live(s', x.m.event.orderId) == Filter(LiveFor(x.m.event.orderId), Follow(s, x))
    requires x.ToReserve? && s.inventory.Flaky() ==> Retried(x.m, x.failed) == [ToReserve(x.m, x.failed + 1)]
    ensures OnItsWay(s', x.m.event.orderId)
  {
    if AtSend(x) {
      SendMovesOn(s, x);
    } else {
      WaitMovesOn(s, x);
      assert s'.log == s.log && s'.orders == s.orders;
    }
  }

  lemma NotLive(s: System, x: Item, id: string)
    requires Startable(x) && GoodItem(s.orders, s.log, x)
    requires x.Sent? || x.m.event.orderId != id
    ensures !LiveFor(id)(x) && Filter(LiveFor(id), Follow(s, x)) == []
  {
    FilterNone(LiveFor(id), Follow(s, x));
  }

  lemma ToldUnchanged(s: System, x: Item, id: string)
    requires Startable(x) && GoodItem(s.orders, s.log, x) && HoldsClaim(s, x)
    requires x.Sent? || x.m.event.orderId != id
    ensures Told(Effect(s, x).log, id) == Told(s.log, id)
    ensures id in Effect(s, x).payments.store <==> id in s.payments.store
    ensures Effect(s, x).orders == s.orders
  {
    if AtSend(x) {
      PublishedIsGood(s, x);
      assert ToSend(x).correlation != id;
      ToldAppend(s.log, ToSend(x), id);
    } else {
      assert Effect(s, x).log == s.log;
    }
  }

  lemma WaitMovesOn(s: System, x: Item)
    requires Startable(x) && !x.Sent? && !AtSend(x)
    requires x.ToCharge? ==> x.m.event.orderId !in s.payments.store
    requires x.ToReserve? && s.inventory.Flaky() ==> Retried(x.m, x.failed) == [ToReserve(x.m, x.failed + 1)]
    ensures var live := Filter(LiveFor(x.m.event.orderId), Follow(s, x));
            |live| == 1 && Before(live[0]) == Before(x) && !live[0].Outbox? && !live[0].ToCharge?
  {
    var next :=
      if x.ToCharge? then Charging(x.m)
      else if s.inventory.Flaky() then ToReserve(x.m, x.failed + 1)
      else Holding(x.m, x.failed, s.inventory.Answer(x.m));
    assert Follow(s, x) == [next];
    OneLive(next);
  }

  lemma OneLive(x: Item)
    requires !x.Sent?
    ensures Filter(LiveFor(x.m.event.orderId), [x]) == [x]
  {
    FilterAppend(LiveFor(x.m.event.orderId), [], x);
    assert [] + [x] == [x];
  }

  lemma SendMovesOn(s: System, x: Item)
    requires AtSend(x) && GoodItem(s.orders, s.log, x) && Told(s.log, x.m.event.orderId) == Before(x)
    requires x.Outbox? ==> x.m.event.orderId !in s.payments.store
    ensures var id := x.m.event.orderId;
            var live := Filter(LiveFor(id), Follow(s, x));
            var told := Told(s.log + [ToSend(x)], id);
            if live == [] then Finished(s.orders[id], told)
            else |live| == 1 && told == Before(live[0]) && !live[0].Outbox? && (live[0].ToCharge? ==> x.Outbox?)
  {
    var id := x.m.event.orderId;
    ToldAppend(s.log, ToSend(x), id);
    PublishedIsGood(s, x);
    LiveAfterSend(s, x);
    StoryMovesOn(s.orders[id], x, ToSend(x));
  }

  /** Each send takes the story one event further. */
  lemma StoryMovesOn(o: Order, x: Item, m: Message)
    requires AtSend(x) && m.event.Type() in AfterStage(x)
    requires m.event.PaymentDeclined? <==> !x.Outbox? && !Affordable(o)
    ensures var told := Before(x) + [m.event.Type()];
            if Routed(m) == [] then Finished(o, told) else told == Before(Routed(m)[0])
  {}

  /** What can be published from where an item is. */
  function AfterStage(x: Item): set<EventType>
    requires AtSend(x)
  {
    match x
    case Outbox(_) => {TypePlaced}
    case Charging(_) => {TypeCaptured, TypeDeclined}
    case Holding(_, _, _) => {TypeReserved, TypeUnavailable}
    case ToShip(_) => {TypeShipped}
  }

  lemma LiveAfterSend(s: System, x: Item)
    requires AtSend(x) && ToSend(x).event.orderId == x.m.event.orderId
    ensures Filter(LiveFor(x.m.event.orderId), Follow(s, x)) == Routed(ToSend(x))
  {
    var p := LiveFor(x.m.event.orderId);
    var routed := Routed(ToSend(x));
    FilterConcat(p, [Sent(x)], routed);
    FilterNone(p, [Sent(x)]);
    if routed != [] {
      assert routed == [routed[0]] && routed[0].m == ToSend(x);
      OneLive(routed[0]);
    }
  }

  lemma OnItsWayPlace(s: System, o: Order, id: string)
    requires OnItsWay(s, id) && o.id !in s.orders
    ensures OnItsWay(Next(s, Place(o)), id)
  {
    FilterAppend(LiveFor(id), s.work, Outbox(Placed(o)));
  }

  lemma OnItsWayNext(s: System, a: Action, id: string)
    requires Causal(s) && FewFailures(s) && ClaimsHeld(s) && OnItsWay(s, id) && Enabled(s, a) && FaultFree(a)
    ensures OnItsWay(Next(s, a), id)
  {
    match a
    case Place(o) => OnItsWayPlace(s, o, id);
    case Act(i) =>
      var x := s.work[i];
      assert x in s.work && GoodItem(s.orders, s.log, x);
      if x.ToReserve? && s.inventory.Flaky() {
        NothingIsDeadLettered(s, x);
      }
      OnItsWayStep(s, i, id);
    case Note =>
  }

  lemma ClaimsNext(s: System, a: Action)
    requires Causal(s) && ClaimsHeld(s) && Enabled(s, a) && FaultFree(a)
    ensures ClaimsHeld(Next(s, a))
  {
    if a.Act? {
      var x := s.work[a.index];
      assert x in s.work && GoodItem(s.orders, s.log, x) && HoldsClaim(s, x);
      SpliceMembers(s.work, a.index, Follow(s, x));
      ClaimsFollow(s, x);
    }
  }

  lemma ClaimsFollow(s: System, x: Item)
    requires Startable(x) && GoodItem(s.orders, s.log, x) && HoldsClaim(s, x)
    ensures forall y :: y in Follow(s, x) ==> HoldsClaim(Effect(s, x), y)
    ensures forall id :: id in s.payments.store ==> id in Effect(s, x).payments.store
  {}

  lemma LeasesNext(s: System, a: Action)
    requires Causal(s) && ClaimsHeld(s) && LeasesAtWork(s) && Enabled(s, a) && FaultFree(a)
    ensures LeasesAtWork(Next(s, a))
  {
    match a
    case Place(o) => LeasesPlace(s, o);
    case Act(i) => LeasesStep(s, i);
    case Note =>
  }

  lemma LeasesPlace(s: System, o: Order)
    requires LeasesAtWork(s) && Enabled(s, Place(o))
    ensures LeasesAtWork(Next(s, Place(o)))
  {
    assert forall x :: x in s.work ==> x in Next(s, Place(o)).work;
  }

  lemma LeasesStep(s: System, i: nat)
    requires Causal(s) && ClaimsHeld(s) && LeasesAtWork(s) && Enabled(s, Act(i))
    ensures LeasesAtWork(Next(s, Act(i)))
  {
    var x, s' := s.work[i], Next(s, Act(i));
    assert x in s.work && GoodItem(s.orders, s.log, x) && HoldsClaim(s, x);
    SpliceMembers(s.work, i, Follow(s, x));
    LeasesFollow(s, x);
    forall id | id in s'.payments.store && s'.payments.store[id].Leased? ensures exists y :: y in s'.work && Handles(y, id) {
      if y :| y in Follow(s, x) && Handles(y, id) {
        assert y in s'.work;
      } else {
        var y :| y in s.work && Handles(y, id);
        assert y in s'.work;
      }
    }
  }

  lemma LeasesFollow(s: System, x: Item)
    requires Startable(x) && GoodItem(s.orders, s.log, x) && HoldsClaim(s, x)
    ensures var s' := Effect(s, x);
            && (forall id :: id in s'.payments.store && s'.payments.store[id].Leased? ==>
                  || (exists y :: y in Follow(s, x) && Handles(y, id))
                  || (id in s.payments.store && s.payments.store[id].Leased? && !Handles(x, id)))
            && (forall id :: id in s.payments.store ==> id in s'.payments.store)
            && (forall m :: m in s'.log ==>
                  || m in s.log
                  || ((m.event.PaymentCaptured? || m.event.PaymentDeclined?) ==> m.event.orderId in s.payments.store))
  {
    if x.Charging? {
      assert Follow(s, x)[0] == Sent(x) && Handles(Sent(x), x.m.event.orderId);
    } else if x.ToCharge? && x.m.event.orderId !in s.payments.store {
      assert Follow(s, x)[0] == Charging(x.m) && Handles(Charging(x.m), x.m.event.orderId);
    }
  }

  lemma TimelineNext(s: System, a: Action, id: string)
    requires Enabled(s, a) && FaultFree(a) && s.noted <= |s.log|
    requires Notifications.TimelineOf(s.timeline, id) == Told(s.log[..s.noted], id)
    ensures var s' := Next(s, a);
            s'.noted <= |s'.log| && Notifications.TimelineOf(s'.timeline, id) == Told(s'.log[..s'.noted], id)
  {
    if a.Note? {
      assert s.log[..s.noted + 1] == s.log[..s.noted] + [s.log[s.noted]];
      ToldAppend(s.log[..s.noted], s.log[s.noted], id);
    } else {
      LogGrows(s, a);
      assert Next(s, a).log[..s.noted] == s.log[..s.noted];
    }
  }

  lemma LogGrows(s: System, a: Action)
    requires Enabled(s, a) && (a.Act? || a.Place?)
    ensures s.log <= Next(s, a).log && Next(s, a).noted == s.noted && Next(s, a).timeline == s.timeline
  {}

  lemma NoDuplicates(s: System, a: Action)
    requires Causal(s) && AllOnTheirWay(s) && s.payments.duplicatesRefused == 0 && Enabled(s, a) && FaultFree(a)
    ensures Next(s, a).payments.duplicatesRefused == 0
  {
    if a.Act? && s.work[a.index].ToCharge? {
      var x := s.work[a.index];
      var id := x.m.event.orderId;
      assert OnItsWay(s, id) && LiveFor(id)(x);
      assert x in s.work;
      FilterMembers(LiveFor(id), s.work, x);
      assert Live(s, id) == [x];
    }
  }

  lemma SteadyNext(s: System, a: Action)
    requires Steady(s) && Enabled(s, a) && FaultFree(a)
    ensures Steady(Next(s, a))
  {
    CausalNext(s, a);
    FewFailuresNext(s, a);
    ClaimsNext(s, a);
    LeasesNext(s, a);
    AllCountedNext(s, a);
    NoDuplicates(s, a);
    InTimeNext(s, a);
    AllOnTheirWayNext(s, a);
  }

  lemma FewFailuresNext(s: System, a: Action)
    requires FewFailures(s) && Enabled(s, a) && FaultFree(a)
    ensures FewFailures(Next(s, a))
  {
    CountedNext(s, a);
  }

  lemma AllCountedNext(s: System, a: Action)
    requires Causal(s) && AllCounted(s) && Enabled(s, a) && FaultFree(a)
    ensures AllCounted(Next(s, a))
  {
    forall t: EventType | !t.TypePlaced? ensures Uncounted(Next(s, a), t) == 0 {
      UncountedNext(s, a, t);
    }
  }

  lemma InTimeNext(s: System, a: Action)
    requires InTime(s) && Enabled(s, a) && FaultFree(a)
    ensures InTime(Next(s, a))
  {
    forall id
      ensures var s' := Next(s, a);
              s'.noted <= |s'.log| && Notifications.TimelineOf(s'.timeline, id) == Told(s'.log[..s'.noted], id)
    {
      TimelineNext(s, a, id);
    }
  }

  lemma AllOnTheirWayNext(s: System, a: Action)
    requires Causal(s) && FewFailures(s) && ClaimsHeld(s) && AllOnTheirWay(s) && Enabled(s, a) && FaultFree(a)
    ensures AllOnTheirWay(Next(s, a))
  {
    forall id ensures OnItsWay(Next(s, a), id) {
      OnItsWayNext(s, a, id);
    }
  }

  // ---- a measure every step brings down ----------------------------------------------

  function Weight(): Item -> int {
    (x: Item) =>
      match x
      case Outbox(_) => 14
      case ToCharge(_) => 11
      case Charging(_) => 10
      case ToReserve(_, _) => 7
      case Holding(_, _, _) => 6
      case ToShip(_) => 3
      case Sent(_) => 1
  }

  function Remaining(i: Inventory.Inventory): int {
    if i.warehouseCalls < i.failuresToSimulate then i.failuresToSimulate - i.warehouseCalls else 0
  }

  function Measure(s: System): int {
    Sum(Weight(), s.work) + Remaining(s.inventory) + |s.log| - s.noted
  }

  lemma MeasureDrops(s: System, a: Action)
    requires Causal(s) && Enabled(s, a) && Draining(a)
    ensures Measure(Next(s, a)) < Measure(s)
  {
    if a.Act? {
      var x := s.work[a.index];
      assert x in s.work;
      SumPut(Weight(), s.work, a.index, Follow(s, x));
      StepIsLighter(s, x);
    }
  }

  lemma StepIsLighter(s: System, x: Item)
    requires Startable(x) && GoodItem(s.orders, s.log, x)
    ensures var items, s' := Follow(s, x), Effect(s, x);
            Few(Weight(), items) + Remaining(s'.inventory) + |s'.log|
            < Weight()(x) + Remaining(s.inventory) + |s.log|
  {}

  lemma {:induction false} RunIsSteady(s: System, run: seq<Action>)
    requires Steady(s) && Runs(s, run) && forall a :: a in run ==> FaultFree(a)
    ensures Steady(End(s, run))
    decreases |run|
  {
    if run != [] {
      assert run[0] in run;
      SteadyNext(s, run[0]);
      RunIsSteady(Next(s, run[0]), run[1..]);
    }
  }

  lemma {:induction false} DrainIsBounded(s: System, drain: seq<Action>)
    requires Causal(s) && s.noted <= |s.log| && Runs(s, drain) && forall a :: a in drain ==> Draining(a)
    ensures |drain| <= Measure(s)
    decreases |drain|
  {
    if drain != [] {
      assert drain[0] in drain;
      MeasureDrops(s, drain[0]);
      CausalNext(s, drain[0]);
      NotedNext(s, drain[0]);
      DrainIsBounded(Next(s, drain[0]), drain[1..]);
    } else {
      SumNonNegative(Weight(), s.work);
    }
  }

  lemma NotedNext(s: System, a: Action)
    requires s.noted <= |s.log| && Enabled(s, a)
    ensures Next(s, a).noted <= |Next(s, a).log|
  {
    if a.Act? || a.Place? {
      LogGrows(s, a);
    }
  }

  lemma {:induction false} RunIsNoted(s: System, run: seq<Action>)
    requires Runs(s, run) && s.noted <= |s.log|
    ensures End(s, run).noted <= |End(s, run).log|
    decreases |run|
  {
    if run != [] {
      NotedNext(s, run[0]);
      RunIsNoted(Next(s, run[0]), run[1..]);
    }
  }

  ghost predicate NothingLeftToDo(s: System) {
    forall a :: Draining(a) ==> !Enabled(s, a)
  }

  lemma NothingLeftIff(s: System)
    requires Causal(s) && s.noted <= |s.log|
    ensures NothingLeftToDo(s) <==> s.work == [] && s.noted == |s.log|
  {
    if s.work != [] {
      assert s.work[0] in s.work && GoodItem(s.orders, s.log, s.work[0]);
      assert Draining(Act(0)) && Enabled(s, Act(0));
    }
    if s.noted < |s.log| {
      assert Draining(Note) && Enabled(s, Note);
    }
  }

  /** Whatever faults a run had, every schedule of relay and services from where it left off
      ends within a known number of steps; and nothing is left to do exactly when the
      outbox and the queues are empty and the timelines have caught up. */
  lemma DrainingEnds(stock: map<string, int>, failures: int, run: seq<Action>, drain: seq<Action>)
    requires Runs(Initial(stock, failures), run)
    requires var s := End(Initial(stock, failures), run);
             Runs(s, drain) && forall a :: a in drain ==> Draining(a)
    ensures var s := End(Initial(stock, failures), run);
            var e := End(s, drain);
            && |drain| <= Measure(s)
            && (NothingLeftToDo(e) <==> e.work == [] && e.noted == |e.log|)
  {
    var s := End(Initial(stock, failures), run);
    RunIsCausal(Initial(stock, failures), run);
    RunIsNoted(Initial(stock, failures), run);
    DrainIsBounded(s, drain);
    RunIsCausal(s, drain);
    RunIsNoted(s, drain);
    NothingLeftIff(End(s, drain));
  }

  /** Without faults, and with at most three failures simulated: once nothing is left to do,
      every order's timeline is one of its three stories, with one payment outcome and its
      claim confirmed, nobody refused a duplicate, and every counter says what was
      published. */
  lemma DrainingIsComplete(stock: map<string, int>, failures: int, run: seq<Action>, drain: seq<Action>)
    requires failures <= 3 && Runs(Initial(stock, failures), run)
    requires forall a :: a in run ==> FaultFree(a)
    requires var s := End(Initial(stock, failures), run);
             Runs(s, drain) && forall a :: a in drain ==> Draining(a)
    ensures var s := End(Initial(stock, failures), run);
            var e := End(s, drain);
            && |drain| <= Measure(s)
            && (NothingLeftToDo(e) <==> e.work == [] && e.noted == |e.log|)
            && (NothingLeftToDo(e) ==> forall id :: id in e.orders ==>
                  && Finished(e.orders[id], Notifications.TimelineOf(e.timeline, id))
                  && Outcomes(e.log, id) == 1
                  && id in e.payments.store && e.payments.store[id].Confirmed?)
            && (NothingLeftToDo(e) ==>
                  && e.payments.duplicatesRefused == 0
                  && forall t: EventType :: !t.TypePlaced? ==> Counter(e, t) == Sum(OfType(t), e.log))
  {
    InitialIsSteady(stock, failures);
    RunIsSteady(Initial(stock, failures), run);
    var s := End(Initial(stock, failures), run);
    DrainingEnds(stock, failures, run, drain);
    RunIsSteady(s, drain);
    DrainedIsComplete(End(s, drain));
  }

  lemma DrainedIsComplete(e: System)
    requires Steady(e)
    ensures NothingLeftToDo(e) ==> forall id :: id in e.orders ==>
              && Finished(e.orders[id], Notifications.TimelineOf(e.timeline, id))
              && Outcomes(e.log, id) == 1
              && id in e.payments.store && e.payments.store[id].Confirmed?
    ensures NothingLeftToDo(e) ==> forall t: EventType :: !t.TypePlaced? ==> Counter(e, t) == Sum(OfType(t), e.log)
  {
    NothingLeftIff(e);
    if e.work == [] && e.noted == |e.log| {
      assert forall t: EventType :: !t.TypePlaced? ==> Uncounted(e, t) == 0;
      forall id | id in e.orders
        ensures Finished(e.orders[id], Notifications.TimelineOf(e.timeline, id)) && Outcomes(e.log, id) == 1
        ensures id in e.payments.store && e.payments.store[id].Confirmed?
      {
        DrainedStory(e, id);
        DrainedClaim(e, id);
      }
    }
  }

  lemma DrainedStory(e: System, id: string)
    requires Causal(e) && InTime(e) && AllOnTheirWay(e) && e.work == [] && e.noted == |e.log| && id in e.orders
    ensures Finished(e.orders[id], Notifications.TimelineOf(e.timeline, id)) && Outcomes(e.log, id) == 1
  {
    assert e.log[..e.noted] == e.log;
    assert OnItsWay(e, id);
    forall m | m in e.log ensures m.correlation == m.event.orderId {
      assert Genuine(e.orders, m);
    }
    OutcomesTold(e.log, id);
    OneOutcome(e.orders[id], Told(e.log, id));
  }

  lemma DrainedClaim(e: System, id: string)
    requires LeasesAtWork(e) && e.work == [] && Outcomes(e.log, id) == 1
    ensures id in e.payments.store && e.payments.store[id].Confirmed?
  {
    if forall m :: m in e.log ==> OutcomeFor(id)(m) == 0 {
      SumZero(OutcomeFor(id), e.log);
    }
  }

  lemma OneOutcome(o: Order, told: seq<EventType>)
    requires Finished(o, told)
    ensures OutcomesIn(told) == 1
  {
    assert OutcomesIn([TypePlaced]) == 0 && [TypePlaced, TypeCaptured][..1] == [TypePlaced];
    assert OutcomesIn([TypePlaced, TypeCaptured]) == 1;
    if told == [TypePlaced, TypeDeclined] {
      assert told[..1] == [TypePlaced];
    } else {
      assert told[..2] == [TypePlaced, TypeCaptured];
      if |told| == 4 {
        assert told[..3][..2] == told[..2];
        assert OutcomesIn(told[..3]) == 1;
      }
    }
  }

  lemma InitialIsSteady(stock: map<string, int>, failures: int)
    requires failures <= 3
    ensures Steady(Initial(stock, failures))
  {
    forall id ensures OnItsWay(Initial(stock, failures), id) {}
  }

  function OutcomesIn(told: seq<EventType>): nat {
    if told == [] then 0 else
      var t := told[|told| - 1];
      OutcomesIn(told[..|told| - 1]) + if t == TypeCaptured || t == TypeDeclined then 1 else 0
  }

  lemma OutcomesInAppend(told: seq<EventType>, t: EventType)
    ensures OutcomesIn(told + [t]) == OutcomesIn(told) + if t == TypeCaptured || t == TypeDeclined then 1 else 0
  {
    assert (told + [t])[..|told|] == told;
  }

  lemma {:induction false} OutcomesTold(log: seq<Message>, id: string)
    requires forall m :: m in log ==> m.correlation == m.event.orderId
    ensures Outcomes(log, id) == OutcomesIn(Told(log, id))
  {
    if log != [] {
      var n := |log| - 1;
      OutcomesTold(log[..n], id);
      assert log == log[..n] + [log[n]];
      OutcomeTold(log[..n], log[n], id);
    }
  }

  lemma OutcomeTold(log: seq<Message>, m: Message, id: string)
    requires m.correlation == m.event.orderId && Outcomes(log, id) == OutcomesIn(Told(log, id))
    ensures Outcomes(log + [m], id) == OutcomesIn(Told(log + [m], id))
  {
    SumAppend(OutcomeFor(id), log, m);
    ToldAppend(log, m, id);
    OutcomesInAppend(Told(log, id), m.event.Type());
    assert Told(log, id) + [] == Told(log, id);
  }

  // ---- whatever is delivered to the timeline is on it -----------------------------------

  /** What one step hands over. */
  function Handed(s: System, a: Action): seq<Message>
    requires Enabled(s, a)
  {
    if a.Note? then [s.log[s.noted]] else if a.NoteAgain? then [s.log[a.index]] else []
  }

  /** The messages handed to the timeline, first and repeated deliveries alike. */
  function NotedIn(s: System, run: seq<Action>): seq<Message>
    requires Runs(s, run)
    decreases |run|
  {
    if run == [] then [] else
      Handed(s, run[0]) + NotedIn(Next(s, run[0]), run[1..])
  }

  lemma {:induction false} ToldConcat(log: seq<Message>, more: seq<Message>, id: string)
    ensures Told(log + more, id) == Told(log, id) + Told(more, id)
  {
    if more == [] {
      assert log + more == log && Told(log, id) + [] == Told(log, id);
    } else {
      var n := |more| - 1;
      assert log + more == (log + more[..n]) + [more[n]];
      ToldAppend(log + more[..n], more[n], id);
      ToldConcat(log, more[..n], id);
    }
  }

  lemma {:induction false} RunTells(s: System, run: seq<Action>, id: string)
    requires Runs(s, run)
    ensures Notifications.TimelineOf(End(s, run).timeline, id)
            == Notifications.TimelineOf(s.timeline, id) + Told(NotedIn(s, run), id)
    decreases |run|
  {
    if run != [] {
      var a := run[0];
      RunTells(Next(s, a), run[1..], id);
      StepTells(s, a, id);
      ToldConcat(Handed(s, a), NotedIn(Next(s, a), run[1..]), id);
    }
  }

  lemma StepTells(s: System, a: Action, id: string)
    requires Enabled(s, a)
    ensures Notifications.TimelineOf(Next(s, a).timeline, id)
            == Notifications.TimelineOf(s.timeline, id) + Told(Handed(s, a), id)
  {
    if a.Note? || a.NoteAgain? {
      TellsOne(s.timeline, Handed(s, a)[0], id);
    } else {
      TimelineStays(s, a);
      assert Notifications.TimelineOf(s.timeline, id) + [] == Notifications.TimelineOf(s.timeline, id);
    }
  }

  lemma TellsOne(timeline: Notifications.Timeline, m: Message, id: string)
    ensures Notifications.TimelineOf(Notifications.Record(timeline, m), id)
            == Notifications.TimelineOf(timeline, id) + Told([m], id)
  {
    ToldAppend([], m, id);
    assert [] + [m] == [m];
  }

  lemma TimelineStays(s: System, a: Action)
    requires Enabled(s, a) && !a.Note? && !a.NoteAgain?
    ensures Next(s, a).timeline == s.timeline
  {
    match a
    case Act(i) => LogGrows(s, a);
    case Place(_) => LogGrows(s, a);
    case SendFails(i) => FailureKeepsTimeline(s, s.work[i]);
    case Redeliver(i) => FailureKeepsTimeline(s, s.work[i]);
    case Duplicate(_) =>
    case Lapse(_) =>
  }

  lemma FailureKeepsTimeline(s: System, x: Item)
    requires InHand(x)
    ensures Abandoned(s, x).timeline == Failing(Abandoned(s, x), x).timeline == s.timeline
  {}

  /** In every run a timeline holds the types of the messages handed to it for its order, in
      the order they were handed, a repeated one as often as it came. */
  lemma EveryDeliveryIsOnTheTimeline(stock: map<string, int>, failures: int, run: seq<Action>, id: string)
    requires Runs(Initial(stock, failures), run)
    ensures Notifications.TimelineOf(End(Initial(stock, failures), run).timeline, id)
            == Told(NotedIn(Initial(stock, failures), run), id)
  {
    RunTells(Initial(stock, failures), run, id);
  }
}
