/** Three queued stages: look the applicant up, price the risk, decide. */
module Underwriting {
  import opened PolicyContracts

  const REFERRAL_THRESHOLD := 500_000

  datatype Checked = Checked(application: Application, knownToRegister: bool)

  datatype Priced = Priced(application: Application, annualPremium: int, refer: bool)

  function Lower(s: string): (lowered: string)
    ensures |lowered| == |s|
    ensures forall k :: 0 <= k < |s| ==> lowered[k] == if 'A' <= s[k] <= 'Z' then s[k] - 'A' + 'a' else s[k]
  {
    if s == "" then "" else [if 'A' <= s[0] <= 'Z' then s[0] - 'A' + 'a' else s[0]] + Lower(s[1..])
  }

  /** Python's `in` between strings. */
  predicate Contains(s: string, part: string) {
    part <= s || (s != "" && Contains(s[1..], part))
  }

  function CheckRegister(a: Application): Checked {
    Checked(a, Contains(Lower(a.applicant), "known"))
  }

  function Price(c: Checked): Priced {
    var base := c.application.sumAssured / 1000;
    var ageLoading := if c.application.age - 30 > 0 then (c.application.age - 30) * 2 else 0;
    var registerLoading := if c.knownToRegister then base / 2 else 0;
    Priced(c.application, base + ageLoading + registerLoading, c.application.sumAssured > REFERRAL_THRESHOLD)
  }

  function Decide(p: Priced): (decision: Message)
    ensures decision.event.ApplicationAccepted? || decision.event.ApplicationDeclined?
  {
    var a := p.application;
    if p.refer then
      Message(ApplicationDeclined(a.id, a.applicant, a.sumAssured), a.id)
    else
      Message(ApplicationAccepted(a.id, a.applicant, a.product, a.sumAssured, p.annualPremium), a.id)
  }

  // ---- what the three stages come to ------------------------------------------------

  /** The rating rule: a unit per thousand assured, half as much again for an applicant
      known to the register, and two for each year over thirty. */
  function Quote(a: Application): int {
    a.sumAssured / 1000
    + (if Contains(Lower(a.applicant), "known") then a.sumAssured / 1000 / 2 else 0)
    + (if a.age > 30 then 2 * a.age - 60 else 0)
  }

  /** The part starts somewhere in the string. */
  predicate OccursIn(part: string, s: string) {
    exists i :: 0 <= i <= |s| && part <= s[i..]
  }

  /** Python's `in` finds the part wherever it starts. */
  lemma {:induction false} ContainsIff(s: string, part: string)
    ensures Contains(s, part) <==> OccursIn(part, s)
  {
    assert s[0..] == s;
    if s != "" {
      ContainsIff(s[1..], part);
      if i :| 0 <= i <= |s[1..]| && part <= s[1..][i..] {
        assert s[i + 1..] == s[1..][i..];
      }
      if i :| 0 < i <= |s| && part <= s[i..] {
        assert s[i..] == s[1..][i - 1..];
      }
    }
  }

  /** The register knows an applicant with that word anywhere in the name, in any case. */
  lemma KnownIff(a: Application)
    ensures CheckRegister(a).application == a
    ensures CheckRegister(a).knownToRegister <==> OccursIn("known", Lower(a.applicant))
  {
    ContainsIff(Lower(a.applicant), "known");
  }

  /** And the premium is loaded by half its base for it. */
  lemma QuoteLoads(a: Application)
    ensures OccursIn("known", Lower(a.applicant)) ==>
              Quote(a) == a.sumAssured / 1000 + a.sumAssured / 1000 / 2 + (if a.age > 30 then 2 * (a.age - 30) else 0)
    ensures !OccursIn("known", Lower(a.applicant)) ==>
              Quote(a) == a.sumAssured / 1000 + (if a.age > 30 then 2 * (a.age - 30) else 0)
  {
    ContainsIff(Lower(a.applicant), "known");
  }

  /** An application may be decided by a rule, not a human. */
  predicate Acceptable(a: Application) {
    a.sumAssured <= 500_000
  }

  function Underwritten(a: Application): Message {
    Decide(Price(CheckRegister(a)))
  }

  /** The queues between the stages add nothing: together they accept exactly the
      acceptable applications, at the quoted premium, and decline exactly the others. */
  lemma StagesAreOneRule(a: Application)
    ensures Underwritten(a) ==
      if Acceptable(a) then Message(ApplicationAccepted(a.id, a.applicant, a.product, a.sumAssured, Quote(a)), a.id)
      else Message(ApplicationDeclined(a.id, a.applicant, a.sumAssured), a.id)
  {
    assert CheckRegister(a) == Checked(a, Contains(Lower(a.applicant), "known"));
  }

  /** More cover or more years never cost less. */
  lemma QuoteIsMonotone(a: Application, b: Application)
    requires a.applicant == b.applicant && a.sumAssured <= b.sumAssured && a.age <= b.age
    ensures Quote(a) <= Quote(b)
    ensures a.sumAssured >= 0 ==> Quote(a) >= 0
  {
    assert a.sumAssured / 1000 <= b.sumAssured / 1000;
    assert a.sumAssured / 1000 / 2 <= b.sumAssured / 1000 / 2;
  }

  class UnderwritingModule {
    var accepted: nat
    var declined: nat

    constructor ()
      ensures accepted == 0 && declined == 0
    {
      accepted, declined := 0, 0;
    }

    /** The last stage: which publisher, what is sent, and, once it returned, which counter. */
    method DecideStage(p: Priced, sendRaises: bool) returns (decision: Message)
      modifies this
      ensures decision == Decide(p)
      ensures var a := p.application;
              && decision.correlation == a.id
              && decision.event ==
                   if p.refer then ApplicationDeclined(a.id, a.applicant, a.sumAssured)
                   else ApplicationAccepted(a.id, a.applicant, a.product, a.sumAssured, p.annualPremium)
      ensures accepted == old(accepted) + (if !sendRaises && decision.event.ApplicationAccepted? then 1 else 0)
      ensures declined == old(declined) + (if !sendRaises && decision.event.ApplicationDeclined? then 1 else 0)
    {
      var a := p.application;
      if p.refer {
        decision := Message(ApplicationDeclined(a.id, a.applicant, a.sumAssured), a.id);
        if sendRaises {
          return;
        }
        declined := declined + 1;
        return;
      }
      decision := Message(ApplicationAccepted(a.id, a.applicant, a.product, a.sumAssured, p.annualPremium), a.id);
      if !sendRaises {
        accepted := accepted + 1;
      }
    }
  }
}
