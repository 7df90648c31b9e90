/** What every run of policy administration keeps. */
module PolicySafety {
  import opened Sequences
  import opened PolicyContracts
  import opened PolicySystem
  import U = Underwriting

  type Applications = map<string, Application>
  type Policies = map<string, Policy>

  // ---- what a committed application and a committed policy give rise to -----------------

  function Accepted(a: Application): Message {
    Message(ApplicationAccepted(a.id, a.applicant, a.product, a.sumAssured, U.Quote(a)), a.id)
  }

  function Declined(a: Application): Message {
    Message(ApplicationDeclined(a.id, a.applicant, a.sumAssured), a.id)
  }

  function Charged(p: Policy): Message {
    Message(PremiumCharged(p.id, p.applicant, p.premium), p.applicationId)
  }

  /** A policy row says what the quote for a committed, acceptable application says. */
  predicate Quoted(apps: Applications, p: Policy) {
    && p.applicationId in apps
    && var a := apps[p.applicationId];
       U.Acceptable(a) && a.id == p.applicationId && p.applicant == a.applicant && p.product == a.product && p.premium == U.Quote(a)
  }

  predicate Genuine(apps: Applications, policies: Policies, m: Message) {
    match m.event
    case ApplicationSubmitted(a) => a.id in apps && apps[a.id] == a && m == Submitted(a)
    case ApplicationAccepted(id, _, _, _, _) => id in apps && U.Acceptable(apps[id]) && m == Accepted(apps[id])
    case ApplicationDeclined(id, _, _) => id in apps && !U.Acceptable(apps[id]) && m == Declined(apps[id])
    case PolicyIssued(id, _, _, _, _) => id in policies && policies[id].id == id && m == Issued(policies[id])
    case PremiumCharged(id, _, _) => id in policies && policies[id].id == id && m == Charged(policies[id])
    case ClaimSettled(_, policyId, _) => policyId in policies && m.correlation == policyId
    case ClaimRejected(_, policyId) => m.correlation == policyId
  }

  /** What must have been published before a message is. */
  predicate Caused(apps: Applications, policies: Policies, before: seq<Message>, m: Message)
    requires Genuine(apps, policies, m)
  {
    match m.event
    case ApplicationAccepted(id, _, _, _, _) => Submitted(apps[id]) in before
    case ApplicationDeclined(id, _, _) => Submitted(apps[id]) in before
    case PolicyIssued(id, _, _, _, _) =>
      policies[id].applicationId in apps && Accepted(apps[policies[id].applicationId]) in before
    case PremiumCharged(id, _, _) => Issued(policies[id]) in before
    case _ => true
  }

  predicate Underway(apps: Applications, log: seq<Message>, a: Application) {
    a.id in apps && apps[a.id] == a && Submitted(a) in log
  }

  predicate GoodReady(apps: Applications, policies: Policies, log: seq<Message>, x: Item) {
    match x
    case Outbox(m) =>
      && Genuine(apps, policies, m)
      && (m.event.ApplicationSubmitted? || m.event.PolicyIssued?)
      && Caused(apps, policies, log, m)
    case ToEnter(m) => Genuine(apps, policies, m) && m.event.ApplicationSubmitted? && m in log
    case AtRegister(a) => Underway(apps, log, a)
    case AtPrice(c) => Underway(apps, log, c.application) && c == U.CheckRegister(c.application)
    case AtDecide(p) => Underway(apps, log, p.application) && p == U.Price(U.CheckRegister(p.application))
    case ToIssue(m) => Genuine(apps, policies, m) && m.event.ApplicationAccepted? && m in log
    case ToBill(m) => Genuine(apps, policies, m) && m.event.PolicyIssued? && m in log
    case Billing(m) => Genuine(apps, policies, m) && m.event.PolicyIssued? && m in log
    case Asking(_, _, _) => true
    case Replying(_, policyId, _, inForce) => inForce ==> policyId in policies
    case Sent(_) => false
  }

  predicate GoodItem(apps: Applications, policies: Policies, log: seq<Message>, x: Item) {
    if x.Sent? then !x.of.Asking? && !x.of.ToBill? && GoodReady(apps, policies, log, x.of)
    else GoodReady(apps, policies, log, x)
  }

  ghost predicate Causal(s: System) {
    && (forall id :: id in s.applications ==> s.applications[id].id == id)
    && (forall id :: id in s.policies ==> s.policies[id].id == id && Quoted(s.applications, s.policies[id]))
    && (forall x :: x in s.work ==> GoodItem(s.applications, s.policies, s.log, x))
    && (forall m :: m in s.log ==> Genuine(s.applications, s.policies, m))
    && (forall j :: 0 <= j < |s.log| ==> Caused(s.applications, s.policies, s.log[..j], s.log[j]))
  }

  /** The tables and the log only grow, which keeps good items good. */
  lemma GoodItemGrows(s: System, s': System, x: Item)
    requires GoodItem(s.applications, s.policies, s.log, x)
    requires forall id :: id in s.applications ==> id in s'.applications && s'.applications[id] == s.applications[id]
    requires forall id :: id in s.policies ==> id in s'.policies && s'.policies[id] == s.policies[id]
    requires forall m :: m in s.log ==> m in s'.log
    ensures GoodItem(s'.applications, s'.policies, s'.log, x)
  {}

  lemma GenuineGrows(s: System, s': System, before: seq<Message>, m: Message)
    requires Genuine(s.applications, s.policies, m)
    requires forall id :: id in s.applications ==> id in s'.applications && s'.applications[id] == s.applications[id]
    requires forall id :: id in s.policies ==> id in s'.policies && s'.policies[id] == s.policies[id]
    ensures Genuine(s'.applications, s'.policies, m)
    ensures Caused(s.applications, s.policies, before, m) ==> Caused(s'.applications, s'.policies, before, m)
  {}

  /** A step that leaves the log alone keeps everything if what it adds is good. */
  lemma CausalGrows(s: System, s': System, i: nat, items: seq<Item>)
    requires Causal(s) && i < |s.work| && s'.work == Splice(s.work, i, items) && s'.log == s.log
    requires s'.applications == s.applications
    requires forall id :: id in s.policies ==> id in s'.policies && s'.policies[id] == s.policies[id]
    requires forall id :: id in s'.policies ==> s'.policies[id].id == id && Quoted(s.applications, s'.policies[id])
    requires forall y :: y in items ==> GoodItem(s'.applications, s'.policies, s'.log, y)
    ensures Causal(s')
  {
    SpliceMembers(s.work, i, items);
    forall x | x in s'.work ensures GoodItem(s'.applications, s'.policies, s'.log, x) {
      if x in s.work {
        GoodItemGrows(s, s', x);
      }
    }
    forall m | m in s'.log ensures Genuine(s'.applications, s'.policies, m) {
      GenuineGrows(s, s', [], m);
    }
    forall j | 0 <= j < |s'.log| ensures Caused(s'.applications, s'.policies, s'.log[..j], s'.log[j]) {
      assert s.log[j] in s.log;
      GenuineGrows(s, s', s.log[..j], s.log[j]);
    }
  }

  lemma CausalPublish(s: System, i: nat, freshId: string)
    requires Causal(s) && i < |s.work| && Publishing(s.work[i]) && freshId !in s.policies
    ensures Causal(Next(s, Act(i, freshId)))
  {
    var x := s.work[i];
    var s' := Next(s, Act(i, freshId));
    assert x in s.work && GoodItem(s.applications, s.policies, s.log, x);
    PublishedIsGood(s, x);
    assert s'.log == s.log + [ToPublish(x)];
    PublishedWork(s, s', i);
    forall j | 0 <= j < |s'.log| ensures Caused(s'.applications, s'.policies, s'.log[..j], s'.log[j]) {
      assert s.log[..|s.log|] == s.log;
      assert s'.log[..j] == s.log[..j];
    }
  }

  lemma PublishedWork(s: System, s': System, i: nat)
    requires Causal(s) && i < |s.work| && Publishing(s.work[i])
    requires Genuine(s.applications, s.policies, ToPublish(s.work[i]))
    requires s'.applications == s.applications && s'.policies == s.policies && s'.log == s.log + [ToPublish(s.work[i])]
    requires s'.work == Splice(s.work, i, [Sent(s.work[i])] + Routed(ToPublish(s.work[i])))
    ensures forall y :: y in s'.work ==> GoodItem(s'.applications, s'.policies, s'.log, y)
  {
    var x, m := s.work[i], ToPublish(s.work[i]);
    var items := [Sent(x)] + Routed(m);
    SpliceMembers(s.work, i, items);
    assert x in s.work;
    forall y | y in s'.work ensures GoodItem(s'.applications, s'.policies, s'.log, y) {
      if y in items {
        GoodItemGrows(s, s', Sent(x));
        assert y == Sent(x) || y in Routed(m);
      } else {
        GoodItemGrows(s, s', y);
      }
    }
  }

  lemma PublishedIsGood(s: System, x: Item)
    requires Causal(s) && Publishing(x) && GoodItem(s.applications, s.policies, s.log, x)
    ensures Genuine(s.applications, s.policies, ToPublish(x))
    ensures Caused(s.applications, s.policies, s.log, ToPublish(x))
  {
    if x.AtDecide? {
      U.StagesAreOneRule(x.priced.application);
    }
  }

  lemma CausalStep(s: System, i: nat, freshId: string)
    requires Causal(s) && Enabled(s, Act(i, freshId)) && !Publishing(s.work[i])
    ensures Causal(Next(s, Act(i, freshId)))
  {
    var x := s.work[i];
    assert x in s.work && GoodItem(s.applications, s.policies, s.log, x);
    if x.ToIssue? {
      CausalIssue(s, i, freshId);
    } else {
      StepIsGood(s, x, freshId);
      CausalGrows(s, Next(s, Act(i, freshId)), i, Follow(s, x, freshId));
    }
  }

  lemma StepIsGood(s: System, x: Item, freshId: string)
    requires Causal(s) && Startable(x) && !Publishing(x) && !x.ToIssue?
    requires GoodItem(s.applications, s.policies, s.log, x)
    ensures forall y :: y in Follow(s, x, freshId) ==> GoodItem(s.applications, s.policies, s.log, y)
    ensures var s' := Effect(s, x, freshId);
            s'.applications == s.applications && s'.policies == s.policies && s'.log == s.log
  {}

  lemma CausalIssue(s: System, i: nat, freshId: string)
    requires Causal(s) && i < |s.work| && s.work[i].ToIssue? && freshId !in s.policies
    requires GoodItem(s.applications, s.policies, s.log, s.work[i])
    ensures Causal(Next(s, Act(i, freshId)))
  {
    IssueAdds(s, i, freshId);
    CausalIssued(s, Next(s, Act(i, freshId)), i, freshId);
  }

  lemma CausalIssued(s: System, s': System, i: nat, freshId: string)
    requires Causal(s) && i < |s.work| && s.work[i].ToIssue? && freshId !in s.policies
    requires GoodItem(s.applications, s.policies, s.log, s.work[i])
    requires var p := PolicyOf(s.work[i].m, freshId);
             && s'.policies == s.policies[freshId := p] && s'.applications == s.applications && s'.log == s.log
             && s'.work == Splice(s.work, i, [Sent(s.work[i])] + [Outbox(Issued(p))])
    ensures Causal(s')
  {
    var x := s.work[i];
    assert GoodItem(s'.applications, s'.policies, s'.log, Sent(x)) by {
      GoodItemGrows(s, s', Sent(x));
    }
    IssueIsGood(s.applications, s.policies, s.log, x.m, freshId);
    CausalGrows(s, s', i, [Sent(x)] + [Outbox(Issued(PolicyOf(x.m, freshId)))]);
  }

  lemma IssueAdds(s: System, i: nat, freshId: string)
    requires i < |s.work| && s.work[i].ToIssue? && Startable(s.work[i]) && freshId !in s.policies
    ensures var s', p := Next(s, Act(i, freshId)), PolicyOf(s.work[i].m, freshId);
            && s'.policies == s.policies[freshId := p] && s'.applications == s.applications && s'.log == s.log
            && s'.work == Splice(s.work, i, [Sent(s.work[i])] + [Outbox(Issued(p))])
  {}

  lemma IssueIsGood(apps: Applications, policies: Policies, log: seq<Message>, m: Message, freshId: string)
    requires m.event.ApplicationAccepted? && Genuine(apps, policies, m) && m in log
    ensures var p := PolicyOf(m, freshId);
            Quoted(apps, p) && GoodItem(apps, policies[freshId := p], log, Outbox(Issued(p)))
  {}

  lemma CausalSubmit(s: System, a: Application)
    requires Causal(s) && a.id !in s.applications
    ensures Causal(Next(s, Submit(a)))
  {
    var s' := Next(s, Submit(a));
    forall x | x in s'.work ensures GoodItem(s'.applications, s'.policies, s'.log, x) {
      if x in s.work {
        GoodItemGrows(s, s', x);
      }
    }
    forall m | m in s'.log ensures Genuine(s'.applications, s'.policies, m) {
      GenuineGrows(s, s', [], m);
    }
    forall j | 0 <= j < |s'.log| ensures Caused(s'.applications, s'.policies, s'.log[..j], s'.log[j]) {
      assert s.log[j] in s.log;
      GenuineGrows(s, s', s.log[..j], s.log[j]);
    }
  }

  lemma CausalBack(s: System, i: nat)
    requires Causal(s) && Enabled(s, Redeliver(i))
    ensures Causal(Next(s, Redeliver(i)))
  {
    assert s.work[i] in s.work;
    CausalGrows(s, Next(s, Redeliver(i)), i, [Returned(s.work[i])]);
  }

  lemma CausalNext(s: System, a: Action)
    requires Causal(s) && Enabled(s, a)
    ensures Causal(Next(s, a))
  {
    match a
    case Submit(app) => CausalSubmit(s, app);
    case Act(i, freshId) =>
      if Publishing(s.work[i]) {
        CausalPublish(s, i, freshId);
      } else {
        CausalStep(s, i, freshId);
      }
    case Redeliver(i) => CausalBack(s, i);
    case TimesOut(i) => CausalGrows(s, Next(s, a), i, []);
    case ClaimFails(i) => CausalGrows(s, Next(s, a), i, []);
    case Duplicate(i) => assert s.work[i] in s.work;
    case _ =>
  }

  // ---- counting --------------------------------------------------------------------------

  function ChargeFor(id: string): Message -> int {
    (m: Message) => if m.event.PremiumCharged? && m.event.policyId == id then 1 else 0
  }

  function BillingFor(id: string): Item -> int {
    (x: Item) => if x.Billing? && x.m.event.PolicyIssued? && x.m.event.policyId == id then 1 else 0
  }

  function SameId(id: string): string -> int {
    (other: string) => if other == id then 1 else 0
  }

  function StoppedFor(id: string): Message -> int {
    (m: Message) => if m.event.PolicyIssued? && m.event.policyId == id then 1 else 0
  }

  /** Premiums billing counted for a policy: published, about to be, or stopped short of it;
      one, and one more for each time the store let its message go. */
  predicate BilledFor(s: System, id: string) {
    && Sum(ChargeFor(id), s.log) + Sum(BillingFor(id), s.work) + Sum(StoppedFor(id), s.past.stopped)
       == Sum(SameId(id), s.charges)
    && Sum(SameId(id), s.charges) <= Sum(SameId(id), s.past.lapses) + (if id in s.seen then 1 else 0)
  }

  lemma BilledNext(s: System, a: Action, id: string)
    requires Causal(s) && BilledFor(s, id) && Enabled(s, a)
    ensures BilledFor(Next(s, a), id)
  {
    var f := BillingFor(id);
    match a
    case Submit(app) => SumAppend(f, s.work, Outbox(Submitted(app)));
    case Act(i, freshId) =>
      assert s.work[i] in s.work;
      BilledStep(s, i, freshId, id);
    case Redeliver(i) => BilledBack(s, i, id);
    case Duplicate(i) => SumAppend(f, s.work, s.work[i]);
    case Claim(claimId, policyId, amount) => SumAppend(f, s.work, Asking(claimId, policyId, amount));
    case TimesOut(i) => SumPut(f, s.work, i, []);
    case ClaimFails(i) => SumPut(f, s.work, i, []);
    case PutBack(_) =>
    case Lapse(lapsed) => SumAppend(SameId(id), s.past.lapses, lapsed);
  }

  lemma BilledBack(s: System, i: nat, id: string)
    requires BilledFor(s, id) && Enabled(s, Redeliver(i))
    ensures BilledFor(Next(s, Redeliver(i)), id)
  {
    var x := s.work[i];
    SumPut(BillingFor(id), s.work, i, [Returned(x)]);
    BackKeeps(s, x);
    if x.Billing? {
      SumAppend(StoppedFor(id), s.past.stopped, x.m);
      assert BillingFor(id)(x) == StoppedFor(id)(x.m) && BillingFor(id)(Returned(x)) == 0;
    } else {
      assert BillingFor(id)(x) == 0 == BillingFor(id)(Returned(x));
    }
  }

  lemma BackKeeps(s: System, x: Item)
    ensures var s' := Back(s, x);
            && s'.log == s.log && s'.claims == s.claims && s'.charges == s.charges && s'.seen == s.seen
            && s'.past.lapses == s.past.lapses
            && s'.past.stopped == if x.Billing? then s.past.stopped + [x.m] else s.past.stopped
  {}

  lemma BilledStep(s: System, i: nat, freshId: string, id: string)
    requires BilledFor(s, id) && Enabled(s, Act(i, freshId))
    requires GoodItem(s.applications, s.policies, s.log, s.work[i])
    ensures BilledFor(Next(s, Act(i, freshId)), id)
  {
    var x := s.work[i];
    SumPut(BillingFor(id), s.work, i, Follow(s, x, freshId));
    BillingFollows(s, x, freshId, id);
    BillingEffect(s, x, freshId, id);
  }

  lemma BillingFollows(s: System, x: Item, freshId: string, id: string)
    requires Startable(x) && GoodItem(s.applications, s.policies, s.log, x)
    ensures Few(BillingFor(id), Follow(s, x, freshId)) ==
      if x.ToBill? && x.m.event.policyId == id && id !in s.seen then 1 else 0
  {}

  lemma BillingEffect(s: System, x: Item, freshId: string, id: string)
    requires Startable(x) && GoodItem(s.applications, s.policies, s.log, x)
    ensures var s' := Effect(s, x, freshId);
            var won := if x.ToBill? && x.m.event.policyId == id && id !in s.seen then 1 else 0;
            && Sum(ChargeFor(id), s'.log) == Sum(ChargeFor(id), s.log) + BillingFor(id)(x)
            && Sum(SameId(id), s'.charges) == Sum(SameId(id), s.charges) + won
            && s'.past == s.past
            && (if id in s'.seen then 1 else 0) >= (if id in s.seen then 1 else 0) + won
  {
    if Publishing(x) {
      SumAppend(ChargeFor(id), s.log, ToPublish(x));
    } else if x.ToBill? {
      SumAppend(SameId(id), s.charges, x.m.event.policyId);
    }
  }

  function DecisionFor(claimId: string): Message -> int {
    (m: Message) => if (m.event.ClaimSettled? || m.event.ClaimRejected?) && m.event.claimId == claimId then 1 else 0
  }

  function UndecidedFor(claimId: string): Item -> int {
    (x: Item) => if (x.Asking? || x.Replying?) && x.claimId == claimId then 1 else 0
  }

  /** A claim is being looked up, or was decided, at most once. */
  predicate DecidedOnce(s: System, claimId: string) {
    Sum(DecisionFor(claimId), s.log) + Sum(UndecidedFor(claimId), s.work) <= if claimId in s.claims then 1 else 0
  }

  lemma DecidedNext(s: System, a: Action, claimId: string)
    requires Causal(s) && DecidedOnce(s, claimId) && Enabled(s, a)
    ensures DecidedOnce(Next(s, a), claimId)
  {
    var f := UndecidedFor(claimId);
    match a
    case Submit(app) => SumAppend(f, s.work, Outbox(Submitted(app)));
    case Act(i, freshId) =>
      assert s.work[i] in s.work;
      DecidedStep(s, i, freshId, claimId);
    case Redeliver(i) => DecidedBack(s, i, claimId);
    case Duplicate(i) => SumAppend(f, s.work, s.work[i]);
    case Claim(c, policyId, amount) => DecidedClaim(s, c, policyId, amount, claimId);
    case TimesOut(i) => DecidedStopped(s, i, claimId);
    case ClaimFails(i) => DecidedStopped(s, i, claimId);
    case PutBack(_) =>
    case Lapse(_) =>
  }

  lemma DecidedBack(s: System, i: nat, claimId: string)
    requires DecidedOnce(s, claimId) && Enabled(s, Redeliver(i))
    ensures DecidedOnce(Next(s, Redeliver(i)), claimId)
  {
    BackKeeps(s, s.work[i]);
    DecidedStopped(s, i, claimId);
  }

  lemma DecidedClaim(s: System, c: string, policyId: string, amount: int, claimId: string)
    requires DecidedOnce(s, claimId) && Enabled(s, Claim(c, policyId, amount))
    ensures DecidedOnce(Next(s, Claim(c, policyId, amount)), claimId)
  {
    SumAppend(UndecidedFor(claimId), s.work, Asking(c, policyId, amount));
    assert UndecidedFor(claimId)(Asking(c, policyId, amount)) == if c == claimId then 1 else 0;
  }

  lemma DecidedStopped(s: System, i: nat, claimId: string)
    requires i < |s.work|
    ensures Sum(UndecidedFor(claimId), Splice(s.work, i, [])) <= Sum(UndecidedFor(claimId), s.work)
    ensures Startable(s.work[i]) && (s.work[i].Billing? || (s.work[i].Sent? && Delivered(s.work[i].of))) ==>
      Sum(UndecidedFor(claimId), Splice(s.work, i, [Returned(s.work[i])])) == Sum(UndecidedFor(claimId), s.work)
  {
    SumPut(UndecidedFor(claimId), s.work, i, []);
    SumPut(UndecidedFor(claimId), s.work, i, [Returned(s.work[i])]);
  }

  lemma DecidedStep(s: System, i: nat, freshId: string, claimId: string)
    requires DecidedOnce(s, claimId) && Enabled(s, Act(i, freshId))
    requires GoodItem(s.applications, s.policies, s.log, s.work[i])
    ensures DecidedOnce(Next(s, Act(i, freshId)), claimId)
  {
    var x := s.work[i];
    SumPut(UndecidedFor(claimId), s.work, i, Follow(s, x, freshId));
    UndecidedFollows(s, x, freshId, claimId);
    if Publishing(x) {
      SumAppend(DecisionFor(claimId), s.log, ToPublish(x));
    }
  }

  lemma UndecidedFollows(s: System, x: Item, freshId: string, claimId: string)
    requires Startable(x) && GoodItem(s.applications, s.policies, s.log, x)
    ensures Few(UndecidedFor(claimId), Follow(s, x, freshId)) == if x.Asking? && x.claimId == claimId then 1 else 0
    ensures Publishing(x) ==> DecisionFor(claimId)(ToPublish(x)) == UndecidedFor(claimId)(x)
  {}

  function OpenClaim(): Item -> int {
    (x: Item) => if x.Asking? || x.Replying? || (x.Sent? && x.of.Replying?) then 1 else 0
  }

  /** Every claim ever submitted is open, or finished and counted under one heading. */
  predicate ClaimsAddUp(s: System) {
    |s.claims| == s.counters.settled + s.counters.rejected + s.counters.undecided + s.counters.failed + Sum(OpenClaim(), s.work)
  }

  lemma ClaimsAddUpNext(s: System, a: Action)
    requires ClaimsAddUp(s) && Enabled(s, a)
    ensures ClaimsAddUp(Next(s, a))
  {
    var f := OpenClaim();
    match a
    case Submit(app) => SumAppend(f, s.work, Outbox(Submitted(app)));
    case Act(i, freshId) => ClaimsAddUpStep(s, i, freshId);
    case Redeliver(i) => SumPut(f, s.work, i, [Returned(s.work[i])]);
    case Duplicate(i) => SumAppend(f, s.work, s.work[i]);
    case Claim(claimId, policyId, amount) => ClaimsAddUpClaim(s, claimId, policyId, amount);
    case TimesOut(i) => SumPut(f, s.work, i, []);
    case ClaimFails(i) => SumPut(f, s.work, i, []);
    case PutBack(_) =>
    case Lapse(_) =>
  }

  lemma ClaimsAddUpStep(s: System, i: nat, freshId: string)
    requires ClaimsAddUp(s) && Enabled(s, Act(i, freshId))
    ensures ClaimsAddUp(Next(s, Act(i, freshId)))
  {
    SumPut(OpenClaim(), s.work, i, Follow(s, s.work[i], freshId));
    OpenFollows(s, s.work[i], freshId);
  }

  lemma ClaimsAddUpClaim(s: System, claimId: string, policyId: string, amount: int)
    requires ClaimsAddUp(s) && Enabled(s, Claim(claimId, policyId, amount))
    ensures ClaimsAddUp(Next(s, Claim(claimId, policyId, amount)))
  {
    SumAppend(OpenClaim(), s.work, Asking(claimId, policyId, amount));
    assert |s.claims[claimId := Request(policyId, amount)]| == |s.claims| + 1;
  }

  lemma OpenFollows(s: System, x: Item, freshId: string)
    requires Startable(x)
    ensures var c, c' := s.counters, Effect(s, x, freshId).counters;
            && Effect(s, x, freshId).claims == s.claims
            && c'.settled + c'.rejected + c'.undecided + c'.failed + Few(OpenClaim(), Follow(s, x, freshId))
               == c.settled + c.rejected + c.undecided + c.failed + OpenClaim()(x)
  {}

  // ---- lookups ---------------------------------------------------------------------------

  /** Some lookup of this claim found, or did not find, its policy. */
  predicate LookedUp(lookups: seq<Lookup>, claimId: string, policyId: string, found: bool) {
    exists l :: l in lookups && l.claimId == claimId && l.policyId == policyId && (policyId in l.known) == found
  }

  ghost predicate Answered(s: System) {
    && (forall l :: l in s.lookups ==> l.known <= s.policies.Keys)
    && (forall x :: x in s.work && x.Replying? ==> LookedUp(s.lookups, x.claimId, x.policyId, x.inForce))
    && (forall m :: m in s.log && m.event.ClaimSettled? ==> LookedUp(s.lookups, m.event.claimId, m.event.policyId, true))
    && (forall m :: m in s.log && m.event.ClaimRejected? ==> LookedUp(s.lookups, m.event.claimId, m.event.policyId, false))
  }

  lemma LookedUpGrows(before: seq<Lookup>, after: seq<Lookup>)
    requires before <= after
    ensures forall c, p, found :: LookedUp(before, c, p, found) ==> LookedUp(after, c, p, found)
  {
    forall c, p, found | LookedUp(before, c, p, found) ensures LookedUp(after, c, p, found) {
      var l :| l in before && l.claimId == c && l.policyId == p && (p in l.known) == found;
      assert l in after;
    }
  }

  lemma AnsweredNext(s: System, a: Action)
    requires Causal(s) && Answered(s) && Enabled(s, a)
    ensures Answered(Next(s, a))
  {
    match a
    case Act(i, freshId) => AnsweredStep(s, i, freshId);
    case Redeliver(i) => SpliceMembers(s.work, i, [Returned(s.work[i])]);
    case TimesOut(i) => SpliceMembers(s.work, i, []);
    case ClaimFails(i) => SpliceMembers(s.work, i, []);
    case _ =>
  }

  lemma AnsweredStep(s: System, i: nat, freshId: string)
    requires Causal(s) && Answered(s) && Enabled(s, Act(i, freshId))
    ensures Answered(Next(s, Act(i, freshId)))
  {
    var x := s.work[i];
    assert x in s.work && GoodItem(s.applications, s.policies, s.log, x);
    SpliceMembers(s.work, i, Follow(s, x, freshId));
    if x.Asking? {
      AnsweredLookup(s, i, freshId);
    } else {
      AnswerFollows(s, x, freshId);
    }
  }

  lemma AnsweredLookup(s: System, i: nat, freshId: string)
    requires Answered(s) && Enabled(s, Act(i, freshId)) && s.work[i].Asking?
    requires forall x :: x in Splice(s.work, i, Follow(s, s.work[i], freshId)) ==>
               x in s.work || x in Follow(s, s.work[i], freshId)
    ensures Answered(Next(s, Act(i, freshId)))
  {
    var s' := Next(s, Act(i, freshId));
    LookedUpGrows(s.lookups, s'.lookups);
    assert s'.lookups[|s.lookups|] in s'.lookups;
  }

  lemma AnswerFollows(s: System, x: Item, freshId: string)
    requires Startable(x) && GoodItem(s.applications, s.policies, s.log, x)
    ensures !x.Asking? ==> Effect(s, x, freshId).lookups == s.lookups
    ensures !x.Asking? ==> forall y :: y in Follow(s, x, freshId) ==> !y.Replying?
    ensures s.policies.Keys <= Effect(s, x, freshId).policies.Keys
    ensures Publishing(x) && !x.Replying? ==> !ToPublish(x).event.ClaimSettled? && !ToPublish(x).event.ClaimRejected?
  {}

  /** A lookup is some claim's, and finds every policy there is. */
  ghost predicate LooksEverywhere(s: System, seen: set<string>, from: nat) {
    && (forall l :: l in s.lookups ==> l.claimId in s.claims)
    && (forall x :: x in s.work && x.Asking? ==> x.claimId in s.claims)
    && seen <= s.policies.Keys
    && from <= |s.lookups| && forall k :: from <= k < |s.lookups| ==> seen <= s.lookups[k].known
  }

  lemma LooksEverywhereNext(s: System, a: Action, seen: set<string>, from: nat)
    requires LooksEverywhere(s, seen, from) && Enabled(s, a)
    ensures LooksEverywhere(Next(s, a), seen, from)
  {
    match a
    case Act(i, freshId) => LooksEverywhereStep(s, i, freshId, seen, from);
    case Redeliver(i) => SpliceMembers(s.work, i, [Returned(s.work[i])]);
    case TimesOut(i) => SpliceMembers(s.work, i, []);
    case ClaimFails(i) => SpliceMembers(s.work, i, []);
    case _ =>
  }

  lemma LooksEverywhereStep(s: System, i: nat, freshId: string, seen: set<string>, from: nat)
    requires LooksEverywhere(s, seen, from) && Enabled(s, Act(i, freshId))
    ensures LooksEverywhere(Next(s, Act(i, freshId)), seen, from)
  {
    var x := s.work[i];
    assert x in s.work;
    SpliceMembers(s.work, i, Follow(s, x, freshId));
    NobodyNewAsks(s, x, freshId);
  }

  lemma NobodyNewAsks(s: System, x: Item, freshId: string)
    requires Startable(x) && freshId !in s.policies
    ensures forall y :: y in Follow(s, x, freshId) ==> !y.Asking?
    ensures s.policies.Keys <= Effect(s, x, freshId).policies.Keys && Effect(s, x, freshId).claims == s.claims
    ensures Effect(s, x, freshId).lookups ==
              s.lookups + if x.Asking? then [Lookup(x.claimId, x.policyId, s.policies.Keys)] else []
  {}

  // ---- what a claim asked for -----------------------------------------------------------

  predicate AsAsked(claims: map<string, Request>, x: Item) {
    var y := if x.Sent? then x.of else x;
    && (y.Asking? ==> y.claimId in claims && claims[y.claimId] == Request(y.policyId, y.amount))
    && (y.Replying? ==> y.claimId in claims && claims[y.claimId] == Request(y.policyId, y.amount))
  }

  predicate DecidedAsAsked(claims: map<string, Request>, m: Message) {
    match m.event
    case ClaimSettled(c, policyId, paid) => c in claims && claims[c] == Request(policyId, paid)
    case ClaimRejected(c, policyId) => c in claims && claims[c].policyId == policyId
    case _ => true
  }

  ghost predicate Faithful(s: System) {
    && (forall x :: x in s.work ==> AsAsked(s.claims, x))
    && (forall m :: m in s.log ==> DecidedAsAsked(s.claims, m))
  }

  lemma FaithfulNext(s: System, a: Action)
    requires Causal(s) && Faithful(s) && Enabled(s, a)
    ensures Faithful(Next(s, a))
  {
    match a
    case Act(i, freshId) => FaithfulAct(s, i, freshId);
    case Redeliver(i) => FaithfulBack(s, i);
    case TimesOut(i) => FaithfulPut(s, Next(s, a), i, []);
    case ClaimFails(i) => FaithfulPut(s, Next(s, a), i, []);
    case _ => FaithfulElse(s, a);
  }

  lemma FaithfulElse(s: System, a: Action)
    requires Faithful(s) && Enabled(s, a)
    requires a.Submit? || a.Duplicate? || a.PutBack? || a.Lapse? || a.Claim?
    ensures Faithful(Next(s, a))
  {}

  lemma FaithfulBack(s: System, i: nat)
    requires Faithful(s) && Enabled(s, Redeliver(i))
    ensures Faithful(Next(s, Redeliver(i)))
  {
    BackKeeps(s, s.work[i]);
    assert s.work[i] in s.work && AsAsked(s.claims, s.work[i]);
    FaithfulPut(s, Next(s, Redeliver(i)), i, [Returned(s.work[i])]);
  }

  lemma FaithfulPut(s: System, s': System, i: nat, items: seq<Item>)
    requires Faithful(s) && i < |s.work| && s'.work == Splice(s.work, i, items) && s'.claims == s.claims
    requires forall y :: y in items ==> AsAsked(s.claims, y)
    requires forall m :: m in s'.log ==> m in s.log || DecidedAsAsked(s.claims, m)
    ensures Faithful(s')
  {
    SpliceMembers(s.work, i, items);
  }

  lemma FaithfulAct(s: System, i: nat, freshId: string)
    requires Causal(s) && Faithful(s) && Enabled(s, Act(i, freshId))
    ensures Faithful(Next(s, Act(i, freshId)))
  {
    assert s.work[i] in s.work;
    FaithfulStep(s, s.work[i], freshId);
    FaithfulPut(s, Next(s, Act(i, freshId)), i, Follow(s, s.work[i], freshId));
  }

  lemma FaithfulStep(s: System, x: Item, freshId: string)
    requires Startable(x) && GoodItem(s.applications, s.policies, s.log, x) && AsAsked(s.claims, x)
    ensures forall y :: y in Follow(s, x, freshId) ==> AsAsked(s.claims, y)
    ensures Publishing(x) ==> DecidedAsAsked(s.claims, ToPublish(x))
    ensures Effect(s, x, freshId).claims == s.claims
    ensures !Publishing(x) ==> Effect(s, x, freshId).log == s.log
  {}

  // ---- nothing committed goes unannounced ----------------------------------------------

  /** Every application and every policy was announced, or waits in the outbox. */
  ghost predicate Announced(s: System) {
    && (forall id :: id in s.applications ==>
          Submitted(s.applications[id]) in s.log || Outbox(Submitted(s.applications[id])) in s.work)
    && (forall id :: id in s.policies ==>
          Issued(s.policies[id]) in s.log || Outbox(Issued(s.policies[id])) in s.work)
  }

  lemma AnnouncedNext(s: System, a: Action)
    requires Announced(s) && Enabled(s, a)
    ensures Announced(Next(s, a))
  {
    match a
    case Submit(app) => assert Outbox(Submitted(app)) in Next(s, a).work;
    case Act(i, freshId) => AnnouncedStep(s, i, freshId);
    case Redeliver(i) => AnnouncedPut(s, i, [Returned(s.work[i])]);
    case TimesOut(i) => AnnouncedPut(s, i, []);
    case ClaimFails(i) => AnnouncedPut(s, i, []);
    case _ =>
  }

  lemma AnnouncedStep(s: System, i: nat, freshId: string)
    requires Announced(s) && Enabled(s, Act(i, freshId))
    ensures Announced(Next(s, Act(i, freshId)))
  {
    AnnouncedPut(s, i, Follow(s, s.work[i], freshId));
    if s.work[i].ToIssue? {
      assert Outbox(Issued(PolicyOf(s.work[i].m, freshId))) in Follow(s, s.work[i], freshId);
    }
  }

  lemma AnnouncedPut(s: System, i: nat, items: seq<Item>)
    requires Announced(s) && i < |s.work|
    ensures forall m :: Outbox(m) in s.work ==> Outbox(m) in Splice(s.work, i, items) || s.work[i] == Outbox(m)
    ensures forall x :: x in items ==> x in Splice(s.work, i, items)
  {
    SpliceMembers(s.work, i, items);
  }

  // ---- the modules' own counters -----------------------------------------------------------

  datatype Kind = Acceptance | Declinature | Issue | Settlement | Rejection

  function Counter(c: Counters, k: Kind): nat {
    match k
    case Acceptance => c.accepted
    case Declinature => c.declined
    case Issue => c.issued
    case Settlement => c.settled
    case Rejection => c.rejected
  }

  function OfKind(k: Kind): Message -> int {
    (m: Message) =>
      match k
      case Acceptance => if m.event.ApplicationAccepted? then 1 else 0
      case Declinature => if m.event.ApplicationDeclined? then 1 else 0
      case Issue => 0
      case Settlement => if m.event.ClaimSettled? then 1 else 0
      case Rejection => if m.event.ClaimRejected? then 1 else 0
  }

  /** What there is to show for a counter: published events, or rows of the policy table. */
  function Made(s: System, k: Kind): int {
    if k.Issue? then |s.policies| else Sum(OfKind(k), s.log)
  }

  /** Handlers that did such a thing and have not counted it yet. */
  function ToCount(k: Kind): Item -> int {
    (x: Item) =>
      if x.Sent? && x.of.AtDecide? then (if k == (if x.of.priced.refer then Declinature else Acceptance) then 1 else 0)
      else if x.Sent? && x.of.ToIssue? then (if k.Issue? then 1 else 0)
      else if x.Sent? && x.of.Replying? then (if k == (if x.of.inForce then Settlement else Rejection) then 1 else 0)
      else 0
  }

  function Uncounted(s: System, k: Kind): int {
    Made(s, k) - Counter(s.counters, k) - Sum(ToCount(k), s.work)
  }

  /** Only a handler that stops short after its send leaves its work uncounted. */
  lemma UncountedNext(s: System, a: Action, k: Kind)
    requires Causal(s) && Enabled(s, a)
    ensures Uncounted(Next(s, a), k) >= Uncounted(s, k)
    ensures !a.Redeliver? && !a.ClaimFails? ==> Uncounted(Next(s, a), k) == Uncounted(s, k)
  {
    var f := ToCount(k);
    match a
    case Submit(app) => SumAppend(f, s.work, Outbox(Submitted(app)));
    case Act(i, freshId) =>
      assert s.work[i] in s.work;
      UncountedStep(s, i, freshId, k);
    case Redeliver(i) => UncountedStopped(s, i, k);
    case Duplicate(i) => SumAppend(f, s.work, s.work[i]);
    case Claim(claimId, policyId, amount) => SumAppend(f, s.work, Asking(claimId, policyId, amount));
    case TimesOut(i) => UncountedStopped(s, i, k);
    case ClaimFails(i) => UncountedStopped(s, i, k);
    case PutBack(_) =>
    case Lapse(_) =>
  }

  lemma UncountedStopped(s: System, i: nat, k: Kind)
    requires i < |s.work|
    ensures Sum(ToCount(k), Splice(s.work, i, [])) == Sum(ToCount(k), s.work) - ToCount(k)(s.work[i]) <= Sum(ToCount(k), s.work)
    ensures Startable(s.work[i]) && !s.work[i].Asking? && !s.work[i].Replying? ==>
      Sum(ToCount(k), Splice(s.work, i, [Returned(s.work[i])])) <= Sum(ToCount(k), s.work)
    ensures s.work[i].Asking? || s.work[i].Replying? ==> ToCount(k)(s.work[i]) == 0
  {
    SumPut(ToCount(k), s.work, i, []);
    SumPut(ToCount(k), s.work, i, [Returned(s.work[i])]);
  }

  lemma UncountedStep(s: System, i: nat, freshId: string, k: Kind)
    requires Enabled(s, Act(i, freshId)) && GoodItem(s.applications, s.policies, s.log, s.work[i])
    ensures Uncounted(Next(s, Act(i, freshId)), k) == Uncounted(s, k)
  {
    SumPut(ToCount(k), s.work, i, Follow(s, s.work[i], freshId));
    if Publishing(s.work[i]) {
      UncountedSend(s, i, freshId, k);
    } else {
      UncountedWait(s, i, freshId, k);
    }
  }

  lemma UncountedSend(s: System, i: nat, freshId: string, k: Kind)
    requires Enabled(s, Act(i, freshId)) && Publishing(s.work[i]) && GoodItem(s.applications, s.policies, s.log, s.work[i])
    requires var items := Follow(s, s.work[i], freshId);
             Sum(ToCount(k), Splice(s.work, i, items)) == Sum(ToCount(k), s.work) - ToCount(k)(s.work[i]) + Few(ToCount(k), items)
    ensures Uncounted(Next(s, Act(i, freshId)), k) == Uncounted(s, k)
  {
    SendToCount(s, s.work[i], freshId, k);
    assert Effect(s, s.work[i], freshId).counters == s.counters && Effect(s, s.work[i], freshId).policies == s.policies;
  }

  lemma UncountedWait(s: System, i: nat, freshId: string, k: Kind)
    requires Enabled(s, Act(i, freshId)) && !Publishing(s.work[i]) && GoodItem(s.applications, s.policies, s.log, s.work[i])
    requires var items := Follow(s, s.work[i], freshId);
             Sum(ToCount(k), Splice(s.work, i, items)) == Sum(ToCount(k), s.work) - ToCount(k)(s.work[i]) + Few(ToCount(k), items)
    ensures Uncounted(Next(s, Act(i, freshId)), k) == Uncounted(s, k)
  {
    WaitToCount(s, s.work[i], freshId, k);
  }

  lemma SendToCount(s: System, x: Item, freshId: string, k: Kind)
    requires Publishing(x) && GoodItem(s.applications, s.policies, s.log, x)
    ensures Sum(OfKind(k), s.log + [ToPublish(x)]) - Few(ToCount(k), Follow(s, x, freshId)) == Sum(OfKind(k), s.log)
    ensures ToCount(k)(x) == 0 && (k.Issue? ==> Few(ToCount(k), Follow(s, x, freshId)) == 0)
  {
    SumAppend(OfKind(k), s.log, ToPublish(x));
    assert Follow(s, x, freshId)[0] == Sent(x);
    assert Routed(ToPublish(x)) != [] ==> ToCount(k)(Routed(ToPublish(x))[0]) == 0;
  }

  lemma WaitToCount(s: System, x: Item, freshId: string, k: Kind)
    requires Startable(x) && !Publishing(x) && freshId !in s.policies
    requires GoodItem(s.applications, s.policies, s.log, x)
    ensures Effect(s, x, freshId).log == s.log
    ensures Few(ToCount(k), Follow(s, x, freshId)) == (if x.ToIssue? && k.Issue? then 1 else 0)
    ensures |Effect(s, x, freshId).policies| == |s.policies| + (if x.ToIssue? then 1 else 0)
    ensures Counter(Effect(s, x, freshId).counters, k) == Counter(s.counters, k) + ToCount(k)(x)
  {
    if x.Sent? {
      CountsItself(s.counters, x.of, k);
    } else {
      assert Effect(s, x, freshId).counters == s.counters;
    }
  }

  lemma CountsItself(c: Counters, of: Item, k: Kind)
    ensures Counter(Count(c, of), k) == Counter(c, k) + ToCount(k)(Sent(of))
  {}
}
