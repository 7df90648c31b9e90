/** What becomes of an application: every delivery on its way is accounted for, from the
    submission to the decision, the policies and their premiums. */
module PolicyFlow {
  import opened Sequences
  import opened PolicyContracts
  import opened PolicySystem
  import opened PolicySafety
  import opened PolicyTheorems
  import U = Underwriting

  // ---- the way to a decision, and from there to a policy ----------------------------------

  predicate IsDeciding(x: Item, app: string) {
    match x
    case Outbox(m) => m.event.ApplicationSubmitted? && m.event.application.id == app
    case ToEnter(m) => m.event.ApplicationSubmitted? && m.event.application.id == app
    case AtRegister(a) => a.id == app
    case AtPrice(c) => c.application.id == app
    case AtDecide(p) => p.application.id == app
    case _ => false
  }

  predicate IsIssuing(x: Item, app: string) {
    x.ToIssue? && x.m.event.ApplicationAccepted? && x.m.event.applicationId == app
  }

  predicate IsAnnouncing(x: Item, id: string) {
    x.Outbox? && x.m.event.PolicyIssued? && x.m.event.policyId == id
  }

  function Deciding(app: string): Item -> int {
    (x: Item) => if IsDeciding(x, app) then 1 else 0
  }

  function Issuing(app: string): Item -> int {
    (x: Item) => if IsIssuing(x, app) then 1 else 0
  }

  function Announcing(id: string): Item -> int {
    (x: Item) => if IsAnnouncing(x, id) then 1 else 0
  }

  predicate IsAcceptance(m: Message, app: string) {
    m.event.ApplicationAccepted? && m.event.applicationId == app
  }

  predicate IsDeclinature(m: Message, app: string) {
    m.event.ApplicationDeclined? && m.event.applicationId == app
  }

  function DecisionOf(app: string): Message -> int {
    (m: Message) => if IsAcceptance(m, app) || IsDeclinature(m, app) then 1 else 0
  }

  function AcceptanceOf(app: string): Message -> int {
    (m: Message) => if IsAcceptance(m, app) then 1 else 0
  }

  function IssuanceOf(id: string): Message -> int {
    (m: Message) => if m.event.PolicyIssued? && m.event.policyId == id then 1 else 0
  }

  function PoliciesOf(s: System, app: string): set<string> {
    set id | id in s.policies && s.policies[id].applicationId == app
  }

  function One(b: bool): int {
    if b then 1 else 0
  }

  /** A submission, and every delivery made once more on the way, is decided once. */
  predicate DecidedFor(s: System, app: string) {
    Sum(DecisionOf(app), s.log) + Sum(Deciding(app), s.work)
    == One(app in s.applications) + Sum(Deciding(app), s.past.copies)
  }

  /** An acceptance, and every delivery of one made once more, is issued once. */
  predicate IssuedFor(s: System, app: string) {
    |PoliciesOf(s, app)| + Sum(Issuing(app), s.work)
    == Sum(AcceptanceOf(app), s.log) + Sum(Issuing(app), s.past.copies)
  }

  /** A policy, and every time its record is relayed once more, is announced once. */
  predicate AnnouncedFor(s: System, id: string) {
    Sum(IssuanceOf(id), s.log) + Sum(Announcing(id), s.work)
    == One(id in s.policies) + Sum(Announcing(id), s.past.copies)
  }

  // ---- one step ----------------------------------------------------------------------------

  /** What one item's step does to a count of messages and a count of items: what it
      publishes and what it leaves to do make up for itself, but for `made` new ones. */
  lemma FlowStep(f: Message -> int, g: Item -> int, s: System, i: nat, freshId: string, made: int)
    requires Enabled(s, Act(i, freshId))
    requires var x := s.work[i];
             (if Publishing(x) then f(ToPublish(x)) else 0) + Few(g, Follow(s, x, freshId)) == g(x) + made
    ensures var s' := Next(s, Act(i, freshId));
            Sum(f, s'.log) + Sum(g, s'.work) == Sum(f, s.log) + Sum(g, s.work) + made
  {
    var x := s.work[i];
    SumPut(g, s.work, i, Follow(s, x, freshId));
    if Publishing(x) {
      SumAppend(f, s.log, ToPublish(x));
    } else {
      assert Effect(s, x, freshId).log == s.log;
    }
  }

  /** A count of deliveries: not of claims, nor of what is past its send. */
  ghost predicate CountsDeliveries(g: Item -> int) {
    && (forall x: Item :: x.Sent? || x.Billing? || x.Asking? || x.Replying? ==> g(x) == 0)
    && (forall m :: g(ToBill(m)) == 0)
  }

  lemma AllCountDeliveries(id: string)
    ensures CountsDeliveries(Deciding(id)) && CountsDeliveries(Issuing(id)) && CountsDeliveries(Announcing(id))
  {}

  /** What any other action does to such a count: a copy is recorded, and nothing that
      counts is lost. */
  lemma FlowElse(g: Item -> int, s: System, a: Action)
    requires Enabled(s, a) && !a.Act? && !a.Submit? && CountsDeliveries(g)
    ensures Sum(g, Next(s, a).work) - Sum(g, Next(s, a).past.copies) == Sum(g, s.work) - Sum(g, s.past.copies)
  {
    match a
    case Redeliver(i) =>
      SumPut(g, s.work, i, [Returned(s.work[i])]);
      SumAppend(g, s.past.copies, Returned(s.work[i]));
    case Duplicate(i) =>
      SumAppend(g, s.work, s.work[i]);
      SumAppend(g, s.past.copies, s.work[i]);
    case Claim(claimId, policyId, amount) => SumAppend(g, s.work, Asking(claimId, policyId, amount));
    case PutBack(_) =>
    case Lapse(_) =>
    case TimesOut(i) => SumPut(g, s.work, i, []);
    case ClaimFails(i) => SumPut(g, s.work, i, []);
  }

  lemma DecidedForNext(s: System, a: Action, app: string)
    requires Causal(s) && DecidedFor(s, app) && Enabled(s, a)
    ensures DecidedFor(Next(s, a), app)
  {
    var g := Deciding(app);
    match a
    case Submit(submitted) => SumAppend(g, s.work, Outbox(Submitted(submitted)));
    case Act(i, freshId) => DecidedForStep(s, i, freshId, app);
    case _ =>
      AllCountDeliveries(app);
      FlowElse(g, s, a);
  }

  lemma DecidedForStep(s: System, i: nat, freshId: string, app: string)
    requires Causal(s) && DecidedFor(s, app) && Enabled(s, Act(i, freshId))
    ensures DecidedFor(Next(s, Act(i, freshId)), app)
  {
    assert s.work[i] in s.work;
    DecidingFollows(s, s.work[i], freshId, app);
    FlowStep(DecisionOf(app), Deciding(app), s, i, freshId, 0);
  }

  lemma DecidingFollows(s: System, x: Item, freshId: string, app: string)
    requires Startable(x) && GoodItem(s.applications, s.policies, s.log, x)
    ensures (if Publishing(x) then DecisionOf(app)(ToPublish(x)) else 0) + Few(Deciding(app), Follow(s, x, freshId))
            == Deciding(app)(x)
    ensures Effect(s, x, freshId).past == s.past && Effect(s, x, freshId).applications == s.applications
  {}

  lemma IssuedForNext(s: System, a: Action, app: string)
    requires Causal(s) && IssuedFor(s, app) && Enabled(s, a)
    ensures IssuedFor(Next(s, a), app)
  {
    match a
    case Submit(submitted) => IssuedForSubmit(s, submitted, app);
    case Act(i, freshId) => IssuedForStep(s, i, freshId, app);
    case _ => IssuedForElse(s, a, app);
  }

  lemma IssuedForSubmit(s: System, submitted: Application, app: string)
    requires IssuedFor(s, app) && Enabled(s, Submit(submitted))
    ensures IssuedFor(Next(s, Submit(submitted)), app)
  {
    SumAppend(Issuing(app), s.work, Outbox(Submitted(submitted)));
    assert PoliciesOf(Next(s, Submit(submitted)), app) == PoliciesOf(s, app);
  }

  lemma IssuedForElse(s: System, a: Action, app: string)
    requires IssuedFor(s, app) && Enabled(s, a) && !a.Act? && !a.Submit?
    ensures IssuedFor(Next(s, a), app)
  {
    AllCountDeliveries(app);
    FlowElse(Issuing(app), s, a);
    assert Next(s, a).policies == s.policies && Next(s, a).log == s.log;
    assert PoliciesOf(Next(s, a), app) == PoliciesOf(s, app);
  }

  lemma IssuedForStep(s: System, i: nat, freshId: string, app: string)
    requires Causal(s) && IssuedFor(s, app) && Enabled(s, Act(i, freshId))
    ensures IssuedFor(Next(s, Act(i, freshId)), app)
  {
    var x := s.work[i];
    assert x in s.work;
    IssuingFollows(s, x, freshId, app);
    NewPolicies(s, i, freshId, app);
    FlowStep((m: Message) => -AcceptanceOf(app)(m), Issuing(app), s, i, freshId, -One(IsIssuing(x, app)));
    SumNegated(AcceptanceOf(app), s.log);
    SumNegated(AcceptanceOf(app), Next(s, Act(i, freshId)).log);
  }

  lemma {:induction false} SumNegated(f: Message -> int, log: seq<Message>)
    ensures Sum((m: Message) => -f(m), log) == -Sum(f, log)
  {
    if log != [] {
      SumNegated(f, log[..|log| - 1]);
    }
  }

  lemma IssuingFollows(s: System, x: Item, freshId: string, app: string)
    requires Startable(x) && GoodItem(s.applications, s.policies, s.log, x)
    ensures Few(Issuing(app), Follow(s, x, freshId)) == if Publishing(x) then AcceptanceOf(app)(ToPublish(x)) else 0
    ensures x.ToIssue? ==> !Publishing(x)
    ensures Effect(s, x, freshId).past == s.past
  {}

  lemma NewPolicies(s: System, i: nat, freshId: string, app: string)
    requires Enabled(s, Act(i, freshId))
    ensures |PoliciesOf(Next(s, Act(i, freshId)), app)| == |PoliciesOf(s, app)| + One(IsIssuing(s.work[i], app))
  {
    var x, s' := s.work[i], Next(s, Act(i, freshId));
    PoliciesAfter(s, x, freshId);
    if IsIssuing(x, app) {
      assert PoliciesOf(s', app) == PoliciesOf(s, app) + {freshId};
    } else {
      assert PoliciesOf(s', app) == PoliciesOf(s, app);
    }
  }

  lemma PoliciesAfter(s: System, x: Item, freshId: string)
    requires Startable(x)
    ensures Effect(s, x, freshId).policies == if x.ToIssue? then s.policies[freshId := PolicyOf(x.m, freshId)] else s.policies
  {}

  lemma AnnouncedForNext(s: System, a: Action, id: string)
    requires Causal(s) && AnnouncedFor(s, id) && Enabled(s, a)
    ensures AnnouncedFor(Next(s, a), id)
  {
    var g := Announcing(id);
    match a
    case Submit(submitted) => SumAppend(g, s.work, Outbox(Submitted(submitted)));
    case Act(i, freshId) =>
      assert s.work[i] in s.work;
      AnnouncingFollows(s, s.work[i], freshId, id);
      FlowStep(IssuanceOf(id), g, s, i, freshId, One(s.work[i].ToIssue? && freshId == id));
    case _ =>
      AllCountDeliveries(id);
      FlowElse(g, s, a);
  }

  lemma AnnouncingFollows(s: System, x: Item, freshId: string, id: string)
    requires Startable(x) && freshId !in s.policies && GoodItem(s.applications, s.policies, s.log, x)
    ensures (if Publishing(x) then IssuanceOf(id)(ToPublish(x)) else 0) + Few(Announcing(id), Follow(s, x, freshId))
            == Announcing(id)(x) + One(x.ToIssue? && freshId == id)
    ensures Effect(s, x, freshId).past == s.past
    ensures One(id in Effect(s, x, freshId).policies) == One(id in s.policies) + One(x.ToIssue? && freshId == id)
  {}

  // ---- what was announced is charged ---------------------------------------------------------

  /** The policy's premium was published as charged. */
  predicate ChargedOut(s: System, id: string) {
    id in s.policies && Charged(s.policies[id]) in s.log
  }

  predicate SentIsOut(s: System, x: Item) {
    x.Sent? && x.of.Billing? && x.of.m.event.PolicyIssued? ==> ChargedOut(s, x.of.m.event.policyId)
  }

  predicate Pursued(s: System, m: Message)
    requires m.event.PolicyIssued?
  {
    ChargedOut(s, m.event.policyId) || ToBill(m) in s.work || Billing(m) in s.work
  }

  /** A confirmed id, or a handler past its send, has its premium published; and a policy that
      was announced has its own, or a delivery or a handler that still means to. */
  ghost predicate TakenUp(s: System) {
    && (forall id :: id in s.seen && s.seen[id].Confirmed? ==> ChargedOut(s, id))
    && (forall x :: x in s.work ==> SentIsOut(s, x))
    && (forall m :: m in s.log && m.event.PolicyIssued? ==> Pursued(s, m))
  }

  lemma TakenUpNext(s: System, a: Action)
    requires Causal(s) && TakenUp(s) && Enabled(s, a)
    ensures TakenUp(Next(s, a))
  {
    match a
    case Act(i, freshId) => TakenUpStep(s, i, freshId);
    case Redeliver(i) => TakenUpBack(s, i);
    case TimesOut(i) => TakenUpPut(s, Next(s, a), i, []);
    case ClaimFails(i) => TakenUpPut(s, Next(s, a), i, []);
    case _ =>
  }

  lemma TakenUpBack(s: System, i: nat)
    requires TakenUp(s) && Enabled(s, Redeliver(i))
    ensures TakenUp(Next(s, Redeliver(i)))
  {
    TakenUpPut(s, Next(s, Redeliver(i)), i, [Returned(s.work[i])]);
  }

  lemma TakenUpStep(s: System, i: nat, freshId: string)
    requires Causal(s) && TakenUp(s) && Enabled(s, Act(i, freshId))
    ensures TakenUp(Next(s, Act(i, freshId)))
  {
    var x := s.work[i];
    assert x in s.work && GoodItem(s.applications, s.policies, s.log, x) && SentIsOut(s, x);
    ChargesStayOut(s, x, freshId);
    StepTakesUp(s, x, freshId);
    TakenUpPut(s, Next(s, Act(i, freshId)), i, Follow(s, x, freshId));
  }

  /** Tables and log only grow. */
  lemma ChargesStayOut(s: System, x: Item, freshId: string)
    requires Startable(x) && freshId !in s.policies
    ensures forall id :: ChargedOut(s, id) ==> ChargedOut(Effect(s, x, freshId), id)
    ensures var s' := Effect(s, x, freshId);
            s'.log == if Publishing(x) then s.log + [ToPublish(x)] else s.log
  {}

  lemma StepTakesUp(s: System, x: Item, freshId: string)
    requires Startable(x) && !Waiting(s, x) && freshId !in s.policies
    requires GoodItem(s.applications, s.policies, s.log, x) && SentIsOut(s, x)
    requires forall id :: id in s.seen && s.seen[id].Confirmed? ==> ChargedOut(s, id)
    ensures var s', items := Effect(s, x, freshId), Follow(s, x, freshId);
            && (forall id :: id in s'.seen && s'.seen[id].Confirmed? ==> ChargedOut(s', id))
            && (forall y :: y in items ==> SentIsOut(s', y))
            && (x.ToBill? ==> ChargedOut(s', x.m.event.policyId) || Billing(x.m) in items)
            && (x.Billing? ==> ChargedOut(s', x.m.event.policyId))
            && (Publishing(x) && ToPublish(x).event.PolicyIssued? ==> ToBill(ToPublish(x)) in items)
  {
    ChargesStayOut(s, x, freshId);
    if x.Billing? {
      assert ToPublish(x) == Charged(s.policies[x.m.event.policyId]);
      assert Effect(s, x, freshId).log[|s.log|] == ToPublish(x);
    } else if Publishing(x) && ToPublish(x).event.PolicyIssued? {
      assert Follow(s, x, freshId)[1] == ToBill(ToPublish(x));
    } else if x.ToBill? {
      assert x.m.event.policyId !in s.seen ==> Follow(s, x, freshId)[0] == Billing(x.m);
    }
  }

  lemma TakenUpPut(s: System, s': System, i: nat, items: seq<Item>)
    requires TakenUp(s) && i < |s.work| && s'.work == Splice(s.work, i, items)
    requires forall id :: ChargedOut(s, id) ==> ChargedOut(s', id)
    requires forall id :: id in s'.seen && s'.seen[id].Confirmed? ==> ChargedOut(s', id)
    requires forall y :: y in items ==> SentIsOut(s', y)
    requires var x := s.work[i];
             (x.ToBill? || x.Billing?) && x.m.event.PolicyIssued? ==>
               ChargedOut(s', x.m.event.policyId) || ToBill(x.m) in items || Billing(x.m) in items
    requires forall m :: m in s'.log && m.event.PolicyIssued? ==> m in s.log || ToBill(m) in items
    ensures TakenUp(s')
  {
    SpliceMembers(s.work, i, items);
    forall m | m in s'.log && m.event.PolicyIssued? ensures Pursued(s', m) {
      assert m in s.log ==> Pursued(s, m);
    }
  }

  // ---- over whole runs -------------------------------------------------------------------------

  lemma {:induction false} RunFlows(s: System, run: seq<Action>, app: string)
    requires Runs(s, run) && Causal(s) && DecidedFor(s, app) && IssuedFor(s, app)
    ensures Causal(End(s, run)) && DecidedFor(End(s, run), app) && IssuedFor(End(s, run), app)
    decreases |run|
  {
    if run != [] {
      CausalNext(s, run[0]);
      DecidedForNext(s, run[0], app);
      IssuedForNext(s, run[0], app);
      RunFlows(Next(s, run[0]), run[1..], app);
    }
  }

  lemma {:induction false} RunIsTakenUp(s: System, run: seq<Action>, id: string)
    requires Runs(s, run) && Causal(s) && TakenUp(s) && AnnouncedFor(s, id)
    ensures TakenUp(End(s, run)) && AnnouncedFor(End(s, run), id)
    decreases |run|
  {
    if run != [] {
      CausalNext(s, run[0]);
      TakenUpNext(s, run[0]);
      AnnouncedForNext(s, run[0], id);
      RunIsTakenUp(Next(s, run[0]), run[1..], id);
    }
  }

  /** The issues an application's acceptances came to. */
  function IssueSteps(s: System, run: seq<Action>, app: string): nat
    requires Runs(s, run)
    decreases |run|
  {
    if run == [] then 0 else
      (if run[0].Act? && IsIssuing(s.work[run[0].index], app) then 1 else 0) + IssueSteps(Next(s, run[0]), run[1..], app)
  }

  lemma {:induction false} IssuesAreCounted(s: System, run: seq<Action>, app: string)
    requires Runs(s, run)
    ensures |PoliciesOf(End(s, run), app)| == |PoliciesOf(s, app)| + IssueSteps(s, run, app)
    decreases |run|
  {
    if run != [] {
      var a := run[0];
      if a.Act? {
        NewPolicies(s, a.index, a.freshId, app);
      } else {
        assert PoliciesOf(Next(s, a), app) == PoliciesOf(s, app);
      }
      IssuesAreCounted(Next(s, a), run[1..], app);
    }
  }

  /** The deliveries made once more between an application's submission and its issue. */
  function CopiesOf(s: System, app: string): int {
    Sum(Deciding(app), s.past.copies) + Sum(Issuing(app), s.past.copies)
  }

  /** An application has as many policies as its acceptances had issue steps. Once nothing is
      left to do for it, an acceptable one has one policy, and one more for each delivery
      made once more on its way, by a relay, a duplicate or a handler that stopped before
      its acknowledgement; any other has none. So it has exactly one when there was no such
      delivery, and only then. */
  lemma PoliciesOfAnApplication(run: seq<Action>, app: string)
    requires Runs(Initial(), run)
    ensures var s := End(Initial(), run);
            && |PoliciesOf(s, app)| == IssueSteps(Initial(), run, app)
            && (s.work == [] && app in s.applications ==>
                  && Sum(DecisionOf(app), s.log) == 1 + Sum(Deciding(app), s.past.copies)
                  && (if U.Acceptable(s.applications[app]) then
                        && |PoliciesOf(s, app)| == 1 + CopiesOf(s, app)
                        && (|PoliciesOf(s, app)| == 1 <==> NoCopies(s, app))
                      else
                        |PoliciesOf(s, app)| == 0))
  {
    var s := End(Initial(), run);
    assert PoliciesOf(Initial(), app) == {};
    IssuesAreCounted(Initial(), run, app);
    RunFlows(Initial(), run, app);
    if s.work == [] && app in s.applications {
      CopiesAreMade(s, app);
      if U.Acceptable(s.applications[app]) {
        OnlyAccepted(s, s.log, app);
      } else {
        OnlyDeclined(s, app);
        NoneIssued(s, app);
      }
    }
  }

  predicate NoCopies(s: System, app: string) {
    forall x :: x in s.past.copies ==> !IsDeciding(x, app) && !IsIssuing(x, app)
  }

  lemma CopiesAreMade(s: System, app: string)
    ensures CopiesOf(s, app) >= 0
    ensures CopiesOf(s, app) == 0 <==> NoCopies(s, app)
  {
    SumNonNegative(Deciding(app), s.past.copies);
    SumNonNegative(Issuing(app), s.past.copies);
    if NoCopies(s, app) {
      SumZero(Deciding(app), s.past.copies);
      SumZero(Issuing(app), s.past.copies);
    } else {
      var x :| x in s.past.copies && (IsDeciding(x, app) || IsIssuing(x, app));
      assert Deciding(app)(x) + Issuing(app)(x) > 0;
    }
  }

  lemma {:induction false} OnlyAccepted(s: System, log: seq<Message>, app: string)
    requires Causal(s) && app in s.applications && U.Acceptable(s.applications[app])
    requires forall m :: m in log ==> m in s.log
    ensures Sum(DecisionOf(app), log) == Sum(AcceptanceOf(app), log)
  {
    if log != [] {
      var m := log[|log| - 1];
      OnlyAccepted(s, log[..|log| - 1], app);
      assert m in s.log && Genuine(s.applications, s.policies, m);
    }
  }

  lemma OnlyDeclined(s: System, app: string)
    requires Causal(s) && app in s.applications && !U.Acceptable(s.applications[app])
    ensures Sum(AcceptanceOf(app), s.log) == 0
  {
    forall m | m in s.log ensures AcceptanceOf(app)(m) == 0 {
      assert Genuine(s.applications, s.policies, m);
    }
    SumZero(AcceptanceOf(app), s.log);
  }

  lemma NoneIssued(s: System, app: string)
    requires Causal(s) && app in s.applications && !U.Acceptable(s.applications[app])
    ensures PoliciesOf(s, app) == {}
  {
    forall id | id in s.policies ensures s.policies[id].applicationId != app {
      assert Quoted(s.applications, s.policies[id]);
    }
  }

  /** A policy is announced once, and once more for each time its record was relayed once
      more. Once nothing is left to do its premium has been published as charged: exactly
      the charges taken and not stopped, at least one, and one only when its message's lease
      never lapsed. */
  lemma PremiumsOfAPolicy(run: seq<Action>, id: string)
    requires Runs(Initial(), run)
    requires var s := End(Initial(), run); s.work == [] && id in s.policies
    ensures var s := End(Initial(), run);
            var told, taken, stopped := Sum(ChargeFor(id), s.log), Sum(SameId(id), s.charges), Sum(StoppedFor(id), s.past.stopped);
            && Sum(IssuanceOf(id), s.log) == 1 + Sum(Announcing(id), s.past.copies)
            && Charged(s.policies[id]) in s.log
            && 1 <= told <= told + stopped == taken <= 1 + Sum(SameId(id), s.past.lapses)
            && (id !in s.past.lapses ==> told == 1 && stopped == 0)
  {
    var s := End(Initial(), run);
    RunIsCausal(Initial(), run);
    RunIsBilled(Initial(), run, id);
    RunIsTakenUp(Initial(), run, id);
    RunIsAnnounced(Initial(), run);
    assert Issued(s.policies[id]) in s.log;
    assert Genuine(s.applications, s.policies, Issued(s.policies[id]));
    assert Pursued(s, Issued(s.policies[id]));
    ChargesAddUp(s, id);
  }

  lemma ChargesAddUp(s: System, id: string)
    requires BilledFor(s, id) && s.work == [] && ChargedOut(s, id) && s.policies[id].id == id
    ensures var told, taken, stopped := Sum(ChargeFor(id), s.log), Sum(SameId(id), s.charges), Sum(StoppedFor(id), s.past.stopped);
            && 1 <= told <= told + stopped == taken <= 1 + Sum(SameId(id), s.past.lapses)
            && (id !in s.past.lapses ==> told == 1 && stopped == 0)
  {
    SumNonNegative(ChargeFor(id), s.log);
    SumNonNegative(StoppedFor(id), s.past.stopped);
    assert ChargeFor(id)(Charged(s.policies[id])) == 1;
    if id !in s.past.lapses {
      SumZero(SameId(id), s.past.lapses);
    }
  }

  // ---- an application's premiums, all its policies together ---------------------------------------

  function ChargesOver(ids: set<string>): Message -> int {
    (m: Message) => if m.event.PremiumCharged? && m.event.policyId in ids then 1 else 0
  }

  function IdsOver(ids: set<string>): string -> int {
    (id: string) => if id in ids then 1 else 0
  }

  lemma {:induction false} SplitCharges(ids: set<string>, id: string, log: seq<Message>)
    requires id in ids
    ensures Sum(ChargesOver(ids), log) == Sum(ChargesOver(ids - {id}), log) + Sum(ChargeFor(id), log)
  {
    if log != [] {
      SplitCharges(ids, id, log[..|log| - 1]);
    }
  }

  lemma {:induction false} SplitIds(ids: set<string>, id: string, all: seq<string>)
    requires id in ids
    ensures Sum(IdsOver(ids), all) == Sum(IdsOver(ids - {id}), all) + Sum(SameId(id), all)
  {
    if all != [] {
      SplitIds(ids, id, all[..|all| - 1]);
    }
  }

  lemma {:induction false} ChargesAdd(s: System, ids: set<string>)
    requires forall id :: id in ids ==> Sum(ChargeFor(id), s.log) <= 1 + Sum(SameId(id), s.past.lapses)
    ensures Sum(ChargesOver(ids), s.log) <= |ids| + Sum(IdsOver(ids), s.past.lapses)
    decreases |ids|
  {
    if ids == {} {
      SumZero(ChargesOver(ids), s.log);
      SumZero(IdsOver(ids), s.past.lapses);
    } else {
      var id :| id in ids;
      ChargesAdd(s, ids - {id});
      SplitCharges(ids, id, s.log);
      SplitIds(ids, id, s.past.lapses);
    }
  }

  /** Premiums published for an application, over all its policies, are at most its issue
      steps and the times the billing store let one of those policies' messages go. */
  lemma ChargesOfAnApplication(run: seq<Action>, app: string)
    requires Runs(Initial(), run)
    ensures var s := End(Initial(), run);
            var ids := PoliciesOf(s, app);
            Sum(ChargesOver(ids), s.log) <= IssueSteps(Initial(), run, app) + Sum(IdsOver(ids), s.past.lapses)
  {
    var s := End(Initial(), run);
    assert PoliciesOf(Initial(), app) == {};
    IssuesAreCounted(Initial(), run, app);
    forall id | id in PoliciesOf(s, app) ensures Sum(ChargeFor(id), s.log) <= 1 + Sum(SameId(id), s.past.lapses) {
      RunIsBilled(Initial(), run, id);
      SumNonNegative(BillingFor(id), s.work);
      SumNonNegative(StoppedFor(id), s.past.stopped);
    }
    ChargesAdd(s, PoliciesOf(s, app));
  }
}
