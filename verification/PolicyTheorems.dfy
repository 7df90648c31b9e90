/** The promises of policy administration, over whole runs from an empty system. */
module PolicyTheorems {
  import opened Sequences
  import opened PolicyContracts
  import opened PolicySystem
  import opened PolicySafety
  import U = Underwriting

  lemma {:induction false} RunIsCausal(s: System, run: seq<Action>)
    requires Runs(s, run) && Causal(s)
    ensures Causal(End(s, run))
    decreases |run|
  {
    if run != [] {
      CausalNext(s, run[0]);
      RunIsCausal(Next(s, run[0]), run[1..]);
    }
  }

  lemma {:induction false} RunIsBilled(s: System, run: seq<Action>, id: string)
    requires Runs(s, run) && Causal(s) && BilledFor(s, id)
    ensures BilledFor(End(s, run), id)
    decreases |run|
  {
    if run != [] {
      CausalNext(s, run[0]);
      BilledNext(s, run[0], id);
      RunIsBilled(Next(s, run[0]), run[1..], id);
    }
  }

  lemma {:induction false} RunIsAnswered(s: System, run: seq<Action>)
    requires Runs(s, run) && Causal(s) && Answered(s) && ClaimsAddUp(s) && Faithful(s)
    ensures Answered(End(s, run)) && ClaimsAddUp(End(s, run)) && Faithful(End(s, run))
    decreases |run|
  {
    if run != [] {
      CausalNext(s, run[0]);
      AnsweredNext(s, run[0]);
      FaithfulNext(s, run[0]);
      ClaimsAddUpNext(s, run[0]);
      RunIsAnswered(Next(s, run[0]), run[1..]);
    }
  }

  lemma {:induction false} RunIsAnnounced(s: System, run: seq<Action>)
    requires Runs(s, run) && Announced(s)
    ensures Announced(End(s, run))
    decreases |run|
  {
    if run != [] {
      AnnouncedNext(s, run[0]);
      RunIsAnnounced(Next(s, run[0]), run[1..]);
    }
  }

  /** An empty outbox means every committed application and policy was announced. */
  lemma EmptyOutboxMeansAnnounced(run: seq<Action>)
    requires Runs(Initial(), run) && forall x :: x in End(Initial(), run).work ==> !x.Outbox?
    ensures var s := End(Initial(), run);
            && (forall id :: id in s.applications ==> Submitted(s.applications[id]) in s.log)
            && (forall id :: id in s.policies ==> Issued(s.policies[id]) in s.log)
  {
    RunIsAnnounced(Initial(), run);
  }

  lemma {:induction false} RunIsDecidedOnce(s: System, run: seq<Action>, claimId: string)
    requires Runs(s, run) && Causal(s) && DecidedOnce(s, claimId)
    ensures DecidedOnce(End(s, run), claimId)
    decreases |run|
  {
    if run != [] {
      CausalNext(s, run[0]);
      DecidedNext(s, run[0], claimId);
      RunIsDecidedOnce(Next(s, run[0]), run[1..], claimId);
    }
  }

  /** Tables and log are append-only over any run. */
  lemma {:induction false} NothingIsUnwritten(s: System, run: seq<Action>)
    requires Runs(s, run)
    ensures s.log <= End(s, run).log
    ensures forall id :: id in s.policies ==> id in End(s, run).policies && End(s, run).policies[id] == s.policies[id]
    ensures forall id :: id in s.applications ==>
              id in End(s, run).applications && End(s, run).applications[id] == s.applications[id]
    decreases |run|
  {
    if run != [] {
      NothingIsUnwritten(Next(s, run[0]), run[1..]);
    }
  }

  /** Every premium ever charged is the premium of a committed policy, is the quote for the
      committed application behind it, which a rule was allowed to accept, and came after
      that application was submitted, accepted and issued, in that order. */
  lemma EveryPremiumIsAQuote(run: seq<Action>, j: nat) returns (submitted: nat, accepted: nat, issued: nat)
    requires Runs(Initial(), run) && j < |End(Initial(), run).log| && End(Initial(), run).log[j].event.PremiumCharged?
    ensures var s := End(Initial(), run);
            var charge := s.log[j].event;
            && charge.policyId in s.policies
            && var p := s.policies[charge.policyId];
               && p.premium == charge.amount
               && p.applicationId in s.applications
               && var a := s.applications[p.applicationId];
                  && a.sumAssured <= 500_000
                  && charge.amount == U.Quote(a)
                  && charge.applicant == a.applicant && s.log[j].correlation == a.id
                  && submitted < accepted < issued < j
                  && s.log[submitted] == Submitted(a) && s.log[accepted] == Accepted(a) && s.log[issued] == Issued(p)
  {
    RunIsCausal(Initial(), run);
    var s := End(Initial(), run);
    issued := CauseOf(s, j);
    accepted := CauseOf(s, issued);
    submitted := CauseOf(s, accepted);
  }

  /** The message that caused a charge, an issue or an acceptance. */
  lemma CauseOf(s: System, j: nat) returns (k: nat)
    requires Causal(s) && j < |s.log|
    requires var e := s.log[j].event; e.PremiumCharged? || e.PolicyIssued? || e.ApplicationAccepted?
    ensures k < j && Genuine(s.applications, s.policies, s.log[j])
    ensures match s.log[j].event
            case PremiumCharged(id, _, _) => s.log[k] == Issued(s.policies[id]) && Quoted(s.applications, s.policies[id])
            case PolicyIssued(id, _, _, _, _) =>
              Quoted(s.applications, s.policies[id]) && s.log[k] == Accepted(s.applications[s.policies[id].applicationId])
            case ApplicationAccepted(id, _, _, _, _) => s.log[k] == Submitted(s.applications[id])
            case _ => false
  {
    assert s.log[j] in s.log;
    assert Caused(s.applications, s.policies, s.log[..j], s.log[j]);
    match s.log[j].event
    case PremiumCharged(id, _, _) => k :| 0 <= k < j && s.log[k] == Issued(s.policies[id]);
    case PolicyIssued(id, _, _, _, _) =>
      k :| 0 <= k < j && s.log[k] == Accepted(s.applications[s.policies[id].applicationId]);
    case ApplicationAccepted(id, _, _, _, _) => k :| 0 <= k < j && s.log[k] == Submitted(s.applications[id]);
  }

  /** A policy is announced as what it is: for a committed, acceptable application, in its
      applicant's name, for the product asked for, at its quote. */
  lemma EveryIssueSaysItsApplication(run: seq<Action>, j: nat)
    requires Runs(Initial(), run) && j < |End(Initial(), run).log| && End(Initial(), run).log[j].event.PolicyIssued?
    ensures var s := End(Initial(), run);
            var e := s.log[j].event;
            && e.applicationId in s.applications
            && var a := s.applications[e.applicationId];
               && a.sumAssured <= 500_000
               && e == PolicyIssued(e.policyId, a.id, a.applicant, a.product, U.Quote(a))
               && s.log[j].correlation == a.id
               && e.policyId in s.policies
               && s.policies[e.policyId] == Policy(e.policyId, a.id, a.applicant, a.product, U.Quote(a))
  {
    RunIsCausal(Initial(), run);
    var s := End(Initial(), run);
    assert s.log[j] in s.log && Genuine(s.applications, s.policies, s.log[j]);
    assert Quoted(s.applications, s.policies[s.log[j].event.policyId]);
  }

  /** No application is both accepted and declined, however often its stages repeat. */
  lemma NeverBothAcceptedAndDeclined(run: seq<Action>, j: nat, k: nat)
    requires Runs(Initial(), run)
    requires var log := End(Initial(), run).log;
             && j < |log| && k < |log|
             && log[j].event.ApplicationAccepted? && log[k].event.ApplicationDeclined?
    ensures var log := End(Initial(), run).log; log[j].event.applicationId != log[k].event.applicationId
  {
    RunIsCausal(Initial(), run);
    var s := End(Initial(), run);
    assert s.log[j] in s.log && s.log[k] in s.log;
  }

  /** A policy's premium is taken at most once, plus once for every time the billing
      store let its message go; and every one taken is published, about to be, or stopped
      between billing's own list and its send. */
  lemma BilledOncePerMessage(run: seq<Action>, id: string)
    requires Runs(Initial(), run)
    ensures var s := End(Initial(), run);
            && Sum(SameId(id), s.charges) <= 1 + Sum(SameId(id), s.past.lapses)
            && Sum(ChargeFor(id), s.log) + Sum(BillingFor(id), s.work) + Sum(StoppedFor(id), s.past.stopped)
               == Sum(SameId(id), s.charges)
  {
    RunIsBilled(Initial(), run, id);
  }

  /** A settled claim pays what was asked on a policy there is, then and ever after; a
      rejected one names a policy that was not there when it was looked up; a claim is
      decided at most once. */
  lemma ClaimDecisionsAreSound(run: seq<Action>, later: seq<Action>, j: nat)
    requires Runs(Initial(), run) && j < |End(Initial(), run).log| && Runs(End(Initial(), run), later)
    ensures var s := End(Initial(), run);
            var e := s.log[j].event;
            && (e.ClaimSettled? ==>
                  && e.policyId in s.policies
                  && e.policyId in End(s, later).policies
                  && LookedUp(s.lookups, e.claimId, e.policyId, true))
            && (e.ClaimRejected? ==> LookedUp(s.lookups, e.claimId, e.policyId, false))
            && (e.ClaimSettled? || e.ClaimRejected? ==>
                  e.claimId in s.claims && Sum(DecisionFor(e.claimId), s.log) == 1)
            && (e.ClaimSettled? ==> s.claims[e.claimId] == Request(e.policyId, e.paid))
            && (e.ClaimRejected? ==> s.claims[e.claimId].policyId == e.policyId)
  {
    var s := End(Initial(), run);
    RunIsCausal(Initial(), run);
    RunIsAnswered(Initial(), run);
    NothingIsUnwritten(s, later);
    var m := s.log[j];
    assert m in s.log;
    if m.event.ClaimSettled? || m.event.ClaimRejected? {
      RunIsDecidedOnce(Initial(), run, m.event.claimId);
      DecidedExactlyOnce(s, m);
    }
  }

  lemma DecidedExactlyOnce(s: System, m: Message)
    requires m in s.log && (m.event.ClaimSettled? || m.event.ClaimRejected?)
    requires m.event.claimId in s.claims && DecidedOnce(s, m.event.claimId)
    ensures Sum(DecisionFor(m.event.claimId), s.log) == 1
  {
    SumNonNegative(UndecidedFor(m.event.claimId), s.work);
    SumNonNegative(DecisionFor(m.event.claimId), s.log);
    assert DecisionFor(m.event.claimId)(m) == 1;
  }

  lemma {:induction false} RunLooksEverywhere(s: System, run: seq<Action>, seen: set<string>, from: nat)
    requires Runs(s, run) && LooksEverywhere(s, seen, from)
    ensures LooksEverywhere(End(s, run), seen, from)
    ensures s.lookups <= End(s, run).lookups
    decreases |run|
  {
    if run != [] {
      LooksEverywhereNext(s, run[0], seen, from);
      LookupsGrow(s, run[0]);
      RunLooksEverywhere(Next(s, run[0]), run[1..], seen, from);
    }
  }

  lemma LookupsGrow(s: System, a: Action)
    requires Enabled(s, a)
    ensures s.lookups <= Next(s, a).lookups
  {
    if a.Act? {
      NobodyNewAsks(s, s.work[a.index], a.freshId);
    }
  }

  /** A claim on a policy that was in force when it was submitted is never rejected. */
  lemma APolicyInForceIsNotRejected(run: seq<Action>, claimId: string, policyId: string, amount: int, later: seq<Action>)
    requires Runs(Initial(), run) && policyId in End(Initial(), run).policies
    requires var a := Claim(claimId, policyId, amount);
             Enabled(End(Initial(), run), a) && Runs(Next(End(Initial(), run), a), later)
    ensures var e := End(Next(End(Initial(), run), Claim(claimId, policyId, amount)), later);
            forall m :: m in e.log && m.event.ClaimRejected? ==> m.event.claimId != claimId
  {
    var s, a := End(Initial(), run), Claim(claimId, policyId, amount);
    var s1 := Next(s, a);
    var e := End(s1, later);
    RunsAppend(Initial(), run, a);
    RunsConcat(Initial(), run + [a], later);
    RunIsAnsweredFromTheStart(run + [a] + later);
    RunLooksEverywhere(Initial(), run, {}, 0);
    RunLooksEverywhere(s1, later, {policyId}, |s.lookups|);
    NothingIsUnasked(s1, later, claimId);
    forall m | m in e.log && m.event.ClaimRejected? ensures m.event.claimId != claimId {
      if m.event.claimId == claimId {
        LookedUpLater(s, e, claimId, m.event.policyId);
      }
    }
  }

  lemma RunIsAnsweredFromTheStart(run: seq<Action>)
    requires Runs(Initial(), run)
    ensures Answered(End(Initial(), run)) && Faithful(End(Initial(), run))
  {
    RunIsAnswered(Initial(), run);
  }

  /** What a claim asked stays what it asked. */
  lemma {:induction false} NothingIsUnasked(s: System, run: seq<Action>, claimId: string)
    requires Runs(s, run) && claimId in s.claims
    ensures claimId in End(s, run).claims && End(s, run).claims[claimId] == s.claims[claimId]
    decreases |run|
  {
    if run != [] {
      assert run[0].Act? ==> Effect(s, s.work[run[0].index], run[0].freshId).claims == s.claims;
      NothingIsUnasked(Next(s, run[0]), run[1..], claimId);
    }
  }

  /** A claim's lookups come after it, and find its policy if it was there. */
  lemma LookedUpLater(s: System, e: System, claimId: string, policyId: string)
    requires claimId !in s.claims && (forall l :: l in s.lookups ==> l.claimId in s.claims) && s.lookups <= e.lookups
    requires forall k :: |s.lookups| <= k < |e.lookups| ==> policyId in e.lookups[k].known
    ensures !LookedUp(e.lookups, claimId, policyId, false)
  {
    forall k | 0 <= k < |s.lookups| ensures e.lookups[k].claimId != claimId {
      assert s.lookups[k] in s.lookups && e.lookups[k] == s.lookups[k];
    }
    forall l | l in e.lookups && l.claimId == claimId ensures policyId in l.known {
      var k :| 0 <= k < |e.lookups| && e.lookups[k] == l;
    }
  }

  /** Claims ever submitted are settled, rejected, undecided, or failed at their publish,
      once none is open; a lookup that timed out moves neither decision's counter. */
  lemma EveryClaimIsAccountedFor(run: seq<Action>)
    requires Runs(Initial(), run)
    ensures AccountedFor(End(Initial(), run))
  {
    ClaimsAddUpFromTheStart(run);
    OpenOrFinished(End(Initial(), run));
  }

  lemma ClaimsAddUpFromTheStart(run: seq<Action>)
    requires Runs(Initial(), run)
    ensures ClaimsAddUp(End(Initial(), run))
  {
    RunIsAnswered(Initial(), run);
  }

  lemma OpenOrFinished(s: System)
    requires ClaimsAddUp(s)
    ensures AccountedFor(s)
  {
    SumNonNegative(OpenClaim(), s.work);
    if NoneOpen(s.work) {
      SumZero(OpenClaim(), s.work);
    }
  }

  ghost predicate AccountedFor(s: System) {
    |s.claims| >= Finished(s.counters) && (NoneOpen(s.work) ==> |s.claims| == Finished(s.counters))
  }

  function Finished(c: Counters): nat {
    c.settled + c.rejected + c.undecided + c.failed
  }

  ghost predicate NoneOpen(work: seq<Item>) {
    forall x :: x in work ==> OpenClaim()(x) == 0
  }

  lemma {:induction false} RunNeverOvercounts(s: System, run: seq<Action>, k: Kind)
    requires Runs(s, run) && Causal(s) && Uncounted(s, k) >= 0
    ensures Uncounted(End(s, run), k) >= 0
    ensures Uninterrupted(run) ==> Uncounted(End(s, run), k) == Uncounted(s, k)
    decreases |run|
  {
    if run != [] {
      assert run[0] in run;
      CausalNext(s, run[0]);
      UncountedNext(s, run[0], k);
      RunNeverOvercounts(Next(s, run[0]), run[1..], k);
    }
  }

  /** Nothing stopped between a send, or a row, and its counter. */
  predicate Uninterrupted(run: seq<Action>) {
    forall a :: a in run ==> !a.Redeliver? && !a.ClaimFails?
  }

  /** No module claims more decisions or policies than there are; without redelivery and
      failed publishes, and with nothing at hand, it claims exactly what there is. */
  lemma CountersNeverOverstate(run: seq<Action>, k: Kind)
    requires Runs(Initial(), run)
    ensures var s := End(Initial(), run);
            && Counter(s.counters, k) <= Made(s, k)
            && (s.work == [] && Uninterrupted(run) ==> Counter(s.counters, k) == Made(s, k))
  {
    CountsFromTheStart(run, k);
    UncountedMeans(End(Initial(), run), k);
  }

  lemma CountsFromTheStart(run: seq<Action>, k: Kind)
    requires Runs(Initial(), run)
    ensures Uncounted(End(Initial(), run), k) >= 0
    ensures Uninterrupted(run) ==> Uncounted(End(Initial(), run), k) == 0
  {
    NothingToStart(k);
    RunNeverOvercounts(Initial(), run, k);
  }

  lemma NothingToStart(k: Kind)
    ensures Causal(Initial()) && Uncounted(Initial(), k) == 0
  {
    assert Counter(Initial().counters, k) == 0 && |Initial().policies| == 0;
  }

  lemma UncountedMeans(s: System, k: Kind)
    ensures Uncounted(s, k) >= 0 ==> Counter(s.counters, k) <= Made(s, k)
    ensures Uncounted(s, k) == 0 && s.work == [] ==> Counter(s.counters, k) == Made(s, k)
  {
    SumNonNegative(ToCount(k), s.work);
  }
}
