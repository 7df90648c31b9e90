/** How policy administration comes to rest: always, and without faults with every
    application declined, or accepted, issued and charged once. And what one redelivered
    acceptance does to that. */
module PolicyDrain {
  import opened Sequences
  import opened PolicyContracts
  import opened PolicySystem
  import opened PolicySafety
  import opened PolicyTheorems
  import opened PolicyFlow
  import U = Underwriting

  // ---- a measure every step brings down ----------------------------------------------------

  function Weight(): Item -> int {
    (x: Item) =>
      match x
      case Outbox(m) => if m.event.ApplicationSubmitted? then 17 else 5
      case ToEnter(_) => 15
      case AtRegister(_) => 13
      case AtPrice(_) => 11
      case AtDecide(_) => 9
      case ToIssue(_) => 7
      case ToBill(_) => 3
      case Billing(_) => 2
      case Asking(_, _, _) => 3
      case Replying(_, _, _, _) => 2
      case Sent(_) => 1
  }

  function Measure(s: System): int {
    Sum(Weight(), s.work)
  }

  lemma MeasureDrops(s: System, i: nat, freshId: string)
    requires Causal(s) && Enabled(s, Act(i, freshId))
    ensures Measure(Next(s, Act(i, freshId))) < Measure(s)
  {
    var x := s.work[i];
    assert x in s.work;
    SumPut(Weight(), s.work, i, Follow(s, x, freshId));
    StepIsLighter(s, x, freshId);
  }

  lemma StepIsLighter(s: System, x: Item, freshId: string)
    requires Startable(x) && !Waiting(s, x) && GoodItem(s.applications, s.policies, s.log, x)
    ensures Few(Weight(), Follow(s, x, freshId)) < Weight()(x)
  {}

  lemma {:induction false} DrainIsBounded(s: System, drain: seq<Action>)
    requires Causal(s) && Runs(s, drain) && forall a :: a in drain ==> a.Act?
    ensures |drain| <= Measure(s)
    decreases |drain|
  {
    if drain != [] {
      assert drain[0] in drain;
      MeasureDrops(s, drain[0].index, drain[0].freshId);
      CausalNext(s, drain[0]);
      DrainIsBounded(Next(s, drain[0]), drain[1..]);
    } else {
      SumNonNegative(Weight(), s.work);
    }
  }

  ghost predicate NothingLeftToDo(s: System) {
    forall i, freshId :: !Enabled(s, Act(i, freshId))
  }

  /** There is always an id that no policy has. */
  lemma FreshId(ids: set<string>) returns (id: string)
    ensures id !in ids
  {
    var n := LongerThanAll(ids);
    id := seq(n, _ => 'x');
  }

  lemma {:induction false} LongerThanAll(ids: set<string>) returns (n: nat)
    ensures forall id :: id in ids ==> |id| < n
    decreases |ids|
  {
    if ids == {} {
      n := 0;
    } else {
      var id :| id in ids;
      n := LongerThanAll(ids - {id});
      n := if |id| < n then n else |id| + 1;
    }
  }

  /** No delivery is queued but those whose id is leased. */
  predicate OnlyWaiting(s: System) {
    forall x :: x in s.work ==> Waiting(s, x)
  }

  lemma NothingLeftIff(s: System)
    requires Causal(s)
    ensures NothingLeftToDo(s) <==> OnlyWaiting(s)
  {
    if !OnlyWaiting(s) {
      var x :| x in s.work && !Waiting(s, x);
      var i :| 0 <= i < |s.work| && s.work[i] == x;
      var freshId := FreshId(s.policies.Keys);
      assert GoodItem(s.applications, s.policies, s.log, x);
      assert Enabled(s, Act(i, freshId));
    } else {
      forall i: nat, freshId | i < |s.work| ensures !Enabled(s, Act(i, freshId)) {
        assert s.work[i] in s.work;
      }
    }
  }

  /** Whatever faults a run had, every schedule of relay and modules from where it left off
      ends within a known number of steps; and nothing is left to do exactly when all that
      is queued are deliveries whose id is leased, with no handler at work on any of them. */
  lemma DrainingEnds(run: seq<Action>, drain: seq<Action>)
    requires Runs(Initial(), run) && Runs(End(Initial(), run), drain) && forall a :: a in drain ==> a.Act?
    ensures var s := End(Initial(), run);
            |drain| <= Measure(s) && (NothingLeftToDo(End(s, drain)) <==> OnlyWaiting(End(s, drain)))
  {
    var s := End(Initial(), run);
    RunIsCausal(Initial(), run);
    DrainIsBounded(s, drain);
    RunIsCausal(s, drain);
    NothingLeftIff(End(s, drain));
  }

  // ---- leases that lapse ---------------------------------------------------------------------

  predicate IsHandling(x: Item, id: string) {
    var y := if x.Sent? then x.of else x;
    y.Billing? && y.m.event.PolicyIssued? && y.m.event.policyId == id
  }

  /** Every lease belongs to a handler at work: none was left behind by one that stopped. */
  ghost predicate Tended(s: System) {
    forall id :: id in s.seen && s.seen[id].Leased? ==> exists x :: x in s.work && IsHandling(x, id)
  }

  lemma TendedNext(s: System, a: Action)
    requires Tended(s) && Enabled(s, a) && !a.Redeliver?
    ensures Tended(Next(s, a))
  {
    match a
    case Act(i, freshId) => TendedStep(s, i, freshId);
    case TimesOut(i) => TendedPut(s, Next(s, a), i, []);
    case ClaimFails(i) => TendedPut(s, Next(s, a), i, []);
    case Submit(_) => TendedGrows(s, Next(s, a));
    case Duplicate(_) => TendedGrows(s, Next(s, a));
    case Claim(_, _, _) => TendedGrows(s, Next(s, a));
    case PutBack(_) =>
    case Lapse(_) => TendedGrows(s, Next(s, a));
  }

  lemma TendedGrows(s: System, s': System)
    requires Tended(s) && (forall x :: x in s.work ==> x in s'.work)
    requires forall id :: id in s'.seen && s'.seen[id].Leased? ==> id in s.seen && s.seen[id].Leased?
    ensures Tended(s')
  {}

  lemma TendedStep(s: System, i: nat, freshId: string)
    requires Tended(s) && Enabled(s, Act(i, freshId))
    ensures Tended(Next(s, Act(i, freshId)))
  {
    LeasesFollow(s, s.work[i], freshId);
    TendedPut(s, Next(s, Act(i, freshId)), i, Follow(s, s.work[i], freshId));
  }

  lemma LeasesFollow(s: System, x: Item, freshId: string)
    requires Startable(x) && !Waiting(s, x)
    ensures var s', items := Effect(s, x, freshId), Follow(s, x, freshId);
            forall id :: id in s'.seen && s'.seen[id].Leased? ==>
              || (exists y :: y in items && IsHandling(y, id))
              || (id in s.seen && s.seen[id].Leased? && !IsHandling(x, id))
  {
    var items := Follow(s, x, freshId);
    if x.ToBill? && x.m.event.policyId !in s.seen {
      assert items[0] == Billing(x.m) && IsHandling(items[0], x.m.event.policyId);
    } else if x.Billing? {
      assert items[0] == Sent(x) && IsHandling(items[0], x.m.event.policyId);
    }
  }

  lemma TendedPut(s: System, s': System, i: nat, items: seq<Item>)
    requires Tended(s) && i < |s.work| && s'.work == Splice(s.work, i, items)
    requires forall id :: id in s'.seen && s'.seen[id].Leased? ==>
               || (exists y :: y in items && IsHandling(y, id))
               || (id in s.seen && s.seen[id].Leased? && !IsHandling(s.work[i], id))
    ensures Tended(s')
  {
    SpliceMembers(s.work, i, items);
    forall id | id in s'.seen && s'.seen[id].Leased? ensures exists x :: x in s'.work && IsHandling(x, id) {
      if y :| y in items && IsHandling(y, id) {
        assert y in s'.work;
      } else {
        var x :| x in s.work && IsHandling(x, id);
        assert x in s'.work;
      }
    }
  }

  lemma {:induction false} RunIsTended(s: System, run: seq<Action>)
    requires Runs(s, run) && Tended(s) && forall a :: a in run ==> !a.Redeliver?
    ensures Tended(End(s, run))
    decreases |run|
  {
    if run != [] {
      assert run[0] in run;
      TendedNext(s, run[0]);
      RunIsTended(Next(s, run[0]), run[1..]);
    }
  }

  /** Once the leases left behind have lapsed, nothing is left to do exactly when nothing is
      queued; and then every application and every policy was announced, and every policy's
      premium published as charged. */
  lemma LapsedLeasesLetAllFinish(run: seq<Action>, drain: seq<Action>)
    requires Runs(Initial(), run) && Tended(End(Initial(), run))
    requires Runs(End(Initial(), run), drain) && forall a :: a in drain ==> a.Act?
    ensures var e := End(End(Initial(), run), drain);
            && (NothingLeftToDo(e) <==> e.work == [])
            && (NothingLeftToDo(e) ==>
                  && (forall id :: id in e.applications ==> Submitted(e.applications[id]) in e.log)
                  && (forall id :: id in e.policies ==> Issued(e.policies[id]) in e.log && Charged(e.policies[id]) in e.log))
  {
    var s := End(Initial(), run);
    var e := End(s, drain);
    RunIsTended(s, drain);
    DrainingEnds(run, drain);
    NobodyWaits(e);
    RunIsCausal(Initial(), run);
    RunIsCausal(s, drain);
    RunIsAnnounced(Initial(), run);
    RunIsAnnounced(s, drain);
    RunIsTakenUp(Initial(), run, "");
    RunIsTakenUp(s, drain, "");
    if e.work == [] {
      AllAreCharged(e);
    }
  }

  lemma NobodyWaits(e: System)
    requires Tended(e)
    ensures OnlyWaiting(e) <==> e.work == []
  {
    if e.work != [] && Waiting(e, e.work[0]) {
      var y := HandlerOf(e, e.work[0].m.event.policyId);
      HandlersDoNotWait(e, y, e.work[0].m.event.policyId);
    }
  }

  lemma HandlerOf(e: System, id: string) returns (y: Item)
    requires Tended(e) && id in e.seen && e.seen[id].Leased?
    ensures y in e.work && IsHandling(y, id)
  {
    y :| y in e.work && IsHandling(y, id);
  }

  lemma HandlersDoNotWait(e: System, y: Item, id: string)
    requires IsHandling(y, id)
    ensures !Waiting(e, y)
  {}

  lemma AllAreCharged(e: System)
    requires Causal(e) && Announced(e) && TakenUp(e) && e.work == []
    ensures forall id :: id in e.policies ==> Issued(e.policies[id]) in e.log && Charged(e.policies[id]) in e.log
  {
    forall id | id in e.policies ensures Issued(e.policies[id]) in e.log && Charged(e.policies[id]) in e.log {
      assert Genuine(e.applications, e.policies, Issued(e.policies[id]));
      assert Pursued(e, Issued(e.policies[id]));
    }
  }

  /** And lapse they can, one after the other, whatever state a run has come to. */
  lemma {:induction false} AllLapse(s: System, ids: set<string>) returns (run: seq<Action>)
    requires ids <= s.seen.Keys
    ensures Runs(s, run) && forall a :: a in run ==> a.Lapse?
    ensures End(s, run).seen == s.seen - ids && End(s, run).work == s.work
    decreases |ids|
  {
    if ids == {} {
      run := [];
      assert s.seen - ids == s.seen;
    } else {
      var id :| id in ids;
      var rest := AllLapse(Next(s, Lapse(id)), ids - {id});
      run := [Lapse(id)] + rest;
      assert run[1..] == rest;
      assert s.seen - {id} - (ids - {id}) == s.seen - ids;
    }
  }

  /** So from wherever a run has come to, leases lapse and steps are taken until nothing is
      queued and every premium has been published. */
  lemma RestIsReached(run: seq<Action>) returns (lapses: seq<Action>, drain: seq<Action>)
    requires Runs(Initial(), run)
    ensures var s := End(Initial(), run);
            && Runs(s, lapses) && (forall a :: a in lapses ==> a.Lapse?)
            && Runs(End(s, lapses), drain) && (forall a :: a in drain ==> a.Act?)
            && var e := End(End(s, lapses), drain);
               e.work == [] && forall id :: id in e.policies ==> Charged(e.policies[id]) in e.log
  {
    var s := End(Initial(), run);
    lapses := AllLapse(s, s.seen.Keys);
    var lapsed := End(s, lapses);
    assert lapsed.seen == map[];
    RunIsCausal(Initial(), run);
    RunIsCausal(s, lapses);
    drain := DrainFrom(lapsed);
    RunsConcat(Initial(), run, lapses);
    LapsedLeasesLetAllFinish(run + lapses, drain);
  }

  lemma DrainFrom(s: System) returns (drain: seq<Action>)
    requires Causal(s)
    ensures Runs(s, drain) && (forall a :: a in drain ==> a.Act?) && NothingLeftToDo(End(s, drain))
    decreases Measure(s)
  {
    SumNonNegative(Weight(), s.work);
    if i: nat, freshId: string :| Enabled(s, Act(i, freshId)) {
      var a := Act(i, freshId);
      MeasureDrops(s, i, freshId);
      CausalNext(s, a);
      MeasureIsNatural(Next(s, a));
      var rest := DrainFrom(Next(s, a));
      drain := [a] + rest;
      assert drain[1..] == rest;
    } else {
      drain := [];
    }
  }

  lemma MeasureIsNatural(s: System)
    ensures Measure(s) >= 0
  {
    SumNonNegative(Weight(), s.work);
  }

  // ---- without faults ------------------------------------------------------------------------

  predicate FaultFree(a: Action) {
    !a.Redeliver? && !a.Duplicate? && !a.Lapse?
  }

  lemma {:induction false} NothingHappened(s: System, run: seq<Action>)
    requires Runs(s, run) && forall a :: a in run ==> FaultFree(a)
    ensures End(s, run).past == s.past
    decreases |run|
  {
    if run != [] {
      assert run[0] in run;
      assert run[0].Act? ==> Effect(s, s.work[run[0].index], run[0].freshId).past == s.past;
      NothingHappened(Next(s, run[0]), run[1..]);
    }
  }

  /** Without relay duplicates, redeliveries or lapses, once nothing is left to do every
      application has one decision: declined, and no policy, when it asks for more than
      500000; otherwise accepted, and one policy, announced once and charged once, at the
      quote for that application. */
  lemma EveryApplicationEnds(run: seq<Action>, app: string)
    requires Runs(Initial(), run) && forall a :: a in run ==> FaultFree(a)
    requires NothingLeftToDo(End(Initial(), run)) && app in End(Initial(), run).applications
    ensures var s := End(Initial(), run);
            var a := s.applications[app];
            && Sum(DecisionOf(app), s.log) == 1
            && (if a.sumAssured > 500_000 then
                  Declined(a) in s.log && PoliciesOf(s, app) == {}
                else
                  && Accepted(a) in s.log
                  && exists id :: PoliciesOf(s, app) == {id} && IssuedAndCharged(s, id) && s.policies[id].premium == U.Quote(a))
  {
    var s := End(Initial(), run);
    var a := s.applications[app];
    NothingHappened(Initial(), run);
    RunIsCausal(Initial(), run);
    RunIsTended(Initial(), run);
    NothingLeftIff(s);
    NobodyWaits(s);
    PoliciesOfAnApplication(run, app);
    DecisionIsThere(s, app);
    if a.sumAssured <= 500_000 {
      CopiesAreMade(s, app);
      var id := OnlyPolicy(s, app);
      PremiumsOfAPolicy(run, id);
      assert Quoted(s.applications, s.policies[id]);
      assert IssuedAndCharged(s, id);
    }
  }

  /** One announcement and one charge, of what the policy's row says. */
  predicate IssuedAndCharged(s: System, id: string) {
    && id in s.policies
    && Sum(IssuanceOf(id), s.log) == 1
    && Sum(ChargeFor(id), s.log) == 1
    && Charged(s.policies[id]) in s.log
  }

  lemma DecisionIsThere(s: System, app: string)
    requires Causal(s) && app in s.applications && Sum(DecisionOf(app), s.log) == 1
    ensures (if U.Acceptable(s.applications[app]) then Accepted(s.applications[app]) else Declined(s.applications[app])) in s.log
  {
    if forall m :: m in s.log ==> DecisionOf(app)(m) == 0 {
      SumZero(DecisionOf(app), s.log);
    } else {
      var m :| m in s.log && DecisionOf(app)(m) != 0;
      assert Genuine(s.applications, s.policies, m);
    }
  }

  lemma OnlyPolicy(s: System, app: string) returns (id: string)
    requires |PoliciesOf(s, app)| == 1
    ensures PoliciesOf(s, app) == {id}
  {
    var ids := PoliciesOf(s, app);
    id :| id in ids;
    assert |ids - {id}| == 0;
    assert ids == {id} + (ids - {id});
  }

  // ---- a redelivered acceptance ----------------------------------------------------------------

  lemma ActFirst(before: seq<Action>, freshId: string, rest: seq<Item>) returns (run: seq<Action>)
    requires Runs(Initial(), before)
    requires var s := End(Initial(), before);
             && s.work != [] && Startable(s.work[0]) && !Waiting(s, s.work[0])
             && s.work[1..] == rest && freshId !in s.policies
    ensures run == before + [Act(0, freshId)] && Runs(Initial(), run)
    ensures var s := End(Initial(), before);
            End(Initial(), run) == Effect(s, s.work[0], freshId).(work := Follow(s, s.work[0], freshId) + rest)
  {
    var s := End(Initial(), before);
    RunsAppend(Initial(), before, Act(0, freshId));
    run := before + [Act(0, freshId)];
    assert s.work[..0] == [] && [] + Follow(s, s.work[0], freshId) == Follow(s, s.work[0], freshId);
  }

  /** The tables and what billing keeps are as they were. */
  predicate SameTables(s: System, s': System) {
    && s'.applications == s.applications && s'.policies == s.policies
    && s'.seen == s.seen && s'.charges == s.charges && s'.past == s.past
  }

  /** An item that has one thing to hand on does so, and is done with. */
  lemma HandOn(before: seq<Action>, freshId: string, next: Item, rest: seq<Item>) returns (run: seq<Action>)
    requires Runs(Initial(), before)
    requires var s := End(Initial(), before);
             && s.work != [] && Startable(s.work[0]) && s.work[1..] == rest && freshId !in s.policies
             && !s.work[0].ToIssue? && !s.work[0].Billing? && !s.work[0].ToBill?
             && Follow(s, s.work[0], freshId) == [Sent(s.work[0])] + [next]
    ensures Runs(Initial(), run)
    ensures var s, s' := End(Initial(), before), End(Initial(), run);
            && SameTables(s, s') && s'.work == [next] + rest
            && s'.log == s.log + if Publishing(s.work[0]) then [ToPublish(s.work[0])] else []
  {
    run := Hand(before, freshId, next, rest);
    run := Finish(run, freshId, End(Initial(), before).work[0], [next] + rest);
  }

  lemma Hand(before: seq<Action>, freshId: string, next: Item, rest: seq<Item>) returns (run: seq<Action>)
    requires Runs(Initial(), before)
    requires var s := End(Initial(), before);
             && s.work != [] && Startable(s.work[0]) && s.work[1..] == rest && freshId !in s.policies
             && !s.work[0].ToIssue? && !s.work[0].Billing? && !s.work[0].ToBill?
             && Follow(s, s.work[0], freshId) == [Sent(s.work[0])] + [next]
    ensures Runs(Initial(), run)
    ensures var s, s' := End(Initial(), before), End(Initial(), run);
            && SameTables(s, s') && s'.work == [Sent(s.work[0])] + ([next] + rest)
            && s'.log == s.log + if Publishing(s.work[0]) then [ToPublish(s.work[0])] else []
  {
    var s := End(Initial(), before);
    run := ActFirst(before, freshId, rest);
    StepKeepsTables(s, s.work[0], freshId);
    assert End(Initial(), run).work == [Sent(s.work[0])] + ([next] + rest);
  }

  lemma StepKeepsTables(s: System, x: Item, freshId: string)
    requires Startable(x) && !x.ToIssue? && !x.Billing? && !x.ToBill? && !(x.Sent? && x.of.Billing?)
    ensures SameTables(s, Effect(s, x, freshId))
    ensures Effect(s, x, freshId).log == s.log + if Publishing(x) then [ToPublish(x)] else []
  {
    assert s.log + [] == s.log;
  }

  lemma Finish(before: seq<Action>, freshId: string, x: Item, rest: seq<Item>) returns (run: seq<Action>)
    requires Runs(Initial(), before) && !x.Billing?
    requires var s := End(Initial(), before);
             s.work == [Sent(x)] + rest && Startable(Sent(x)) && freshId !in s.policies
    ensures Runs(Initial(), run)
    ensures var s, s' := End(Initial(), before), End(Initial(), run);
            SameTables(s, s') && s'.work == rest && s'.log == s.log
  {
    var s := End(Initial(), before);
    assert s.work[1..] == rest;
    run := ActFirst(before, freshId, rest);
    StepKeepsTables(s, Sent(x), freshId);
    assert s.log + [] == s.log && [] + rest == rest;
  }

  /** A submitted application on its way through underwriting, to its acceptance. */
  lemma ReachAcceptance(a: Application, freshId: string) returns (run: seq<Action>)
    requires U.Acceptable(a)
    ensures Runs(Initial(), run)
    ensures var s := End(Initial(), run);
            && s.applications == map[a.id := a] && s.policies == map[] && s.work == [ToIssue(Accepted(a))]
            && s.log == [Submitted(a), Accepted(a)] && s.seen == map[] && s.charges == [] && s.past == Initial().past
  {
    var c := U.CheckRegister(a);
    U.StagesAreOneRule(a);
    RunsAppend(Initial(), [], Submit(a));
    run := [] + [Submit(a)];
    assert End(Initial(), run).work == [Outbox(Submitted(a))] + [];
    run := HandOn(run, freshId, ToEnter(Submitted(a)), []);
    run := HandOn(run, freshId, AtRegister(a), []);
    run := HandOn(run, freshId, AtPrice(c), []);
    run := HandOn(run, freshId, AtDecide(U.Price(c)), []);
    run := HandOn(run, freshId, ToIssue(Accepted(a)), []);
  }

  /** A policy in the outbox is announced, and its premium charged. */
  lemma Charge(before: seq<Action>, freshId: string, p: Policy, rest: seq<Item>) returns (run: seq<Action>)
    requires Runs(Initial(), before)
    requires var s := End(Initial(), before);
             s.work == [Outbox(Issued(p))] + rest && p.id !in s.seen && freshId !in s.policies
    ensures Runs(Initial(), run)
    ensures var s, s' := End(Initial(), before), End(Initial(), run);
            && s'.work == rest && s'.log == s.log + [Issued(p), Charged(p)] && s'.seen == s.seen[p.id := Confirmed]
            && s'.applications == s.applications && s'.policies == s.policies && s'.past == s.past
  {
    run := HandOn(before, freshId, ToBill(Issued(p)), rest);
    run := Bill(run, freshId, p, rest);
  }

  lemma Bill(before: seq<Action>, freshId: string, p: Policy, rest: seq<Item>) returns (run: seq<Action>)
    requires Runs(Initial(), before)
    requires var s := End(Initial(), before);
             s.work == [ToBill(Issued(p))] + rest && p.id !in s.seen && freshId !in s.policies
    ensures Runs(Initial(), run)
    ensures var s, s' := End(Initial(), before), End(Initial(), run);
            && s'.work == rest && s'.log == s.log + [Charged(p)] && s'.seen == s.seen[p.id := Confirmed]
            && s'.applications == s.applications && s'.policies == s.policies && s'.past == s.past
  {
    assert End(Initial(), before).work[1..] == rest;
    run := ActFirst(before, freshId, rest);
    assert End(Initial(), run).work == [Billing(Issued(p))] + rest;
    run := ActFirst(run, freshId, rest);
    assert End(Initial(), run).work == [Sent(Billing(Issued(p)))] + rest;
    run := ActFirst(run, freshId, rest);
    assert End(Initial(), run).work == rest;
  }

  /** One acceptance, issued and then redelivered before it was acknowledged: two policies
      for one application, two announcements and two premiums. */
  lemma RedeliveredAcceptanceIsChargedTwice(a: Application, first: string, second: string) returns (run: seq<Action>)
    requires U.Acceptable(a) && first != second
    ensures Runs(Initial(), run)
    ensures var s := End(Initial(), run);
            var p, q := PolicyOf(Accepted(a), first), PolicyOf(Accepted(a), second);
            && s.applications == map[a.id := a] && s.policies == map[first := p, second := q] && s.work == []
            && s.log == [Submitted(a), Accepted(a), Issued(q), Charged(q), Issued(p), Charged(p)]
            && s.past.lapses == [] && s.past.copies == [ToIssue(Accepted(a))]
  {
    var x := ToIssue(Accepted(a));
    var p, q := PolicyOf(Accepted(a), first), PolicyOf(Accepted(a), second);
    var unused := FreshId({first, second});
    run := ReachAcceptance(a, unused);
    run := IssueAgain(run, x, first, second, unused);
    run := Charge(run, unused, q, [Outbox(Issued(p))]);
    assert End(Initial(), run).work == [Outbox(Issued(p))] + [];
    run := Charge(run, unused, p, []);
  }

  /** The redelivery itself: the record of the second policy comes before that of the first. */
  lemma IssueAgain(before: seq<Action>, x: Item, first: string, second: string, unused: string) returns (run: seq<Action>)
    requires Runs(Initial(), before) && x.ToIssue? && Startable(x) && first != second && unused !in {first, second}
    requires var s := End(Initial(), before); s.work == [x] && {first, second, unused} !! s.policies.Keys
    ensures Runs(Initial(), run)
    ensures var s, s' := End(Initial(), before), End(Initial(), run);
            var p, q := PolicyOf(x.m, first), PolicyOf(x.m, second);
            && s'.work == [Outbox(Issued(q)), Outbox(Issued(p))]
            && s'.policies == s.policies[first := p][second := q]
            && s'.applications == s.applications && s'.log == s.log && s'.seen == s.seen
            && s'.past == s.past.(copies := s.past.copies + [x])
  {
    var p, q := PolicyOf(x.m, first), PolicyOf(x.m, second);
    run := IssueAndReturn(before, x, first);
    run := ActFirst(run, second, [Outbox(Issued(p))]);
    assert End(Initial(), run).work == [Sent(x)] + [Outbox(Issued(q)), Outbox(Issued(p))];
    run := ActFirst(run, unused, [Outbox(Issued(q)), Outbox(Issued(p))]);
  }

  lemma IssueAndReturn(before: seq<Action>, x: Item, first: string) returns (run: seq<Action>)
    requires Runs(Initial(), before) && x.ToIssue? && Startable(x)
    requires var s := End(Initial(), before); s.work == [x] && first !in s.policies
    ensures Runs(Initial(), run)
    ensures var s := End(Initial(), before);
            var p := PolicyOf(x.m, first);
            End(Initial(), run) == s.(policies := s.policies[first := p], work := [x] + [Outbox(Issued(p))],
                                      past := s.past.(copies := s.past.copies + [x]))
  {
    var p := PolicyOf(x.m, first);
    run := ActFirst(before, first, []);
    assert End(Initial(), run).work == [Sent(x)] + [Outbox(Issued(p))];
    RunsAppend(Initial(), run, Redeliver(0));
    run := run + [Redeliver(0)];
    assert End(Initial(), run).work == [x] + [Outbox(Issued(p))];
  }
}
