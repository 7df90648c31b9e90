/** The modules of policy administration that update state in place. */
module PolicyModules {
  import opened PolicyContracts
  import S = PolicySystem

  /** Applications and policies, each written together with its outbox record or not at all. */
  class PolicyModule {
    var applications: map<string, Application>
    var policies: map<string, Policy>
    var outbox: seq<Message>
    var issued: nat

    constructor ()
      ensures applications == map[] && policies == map[] && outbox == [] && issued == 0
    {
      applications, policies, outbox, issued := map[], map[], [], 0;
    }

    /** `raises` says the outbox write or the commit raised, and the transaction rolled back. */
    method Submit(a: Application, raises: bool) returns (taken: bool)
      modifies this
      ensures taken <==> a.id !in old(applications) && !raises
      ensures applications == if taken then old(applications)[a.id := a] else old(applications)
      ensures outbox == if taken then old(outbox) + [Message(ApplicationSubmitted(a), a.id)] else old(outbox)
      ensures Message(ApplicationSubmitted(a), a.id) == S.Submitted(a)
      ensures policies == old(policies) && issued == old(issued)
    {
      if a.id in applications || raises {
        return false;
      }
      applications := applications[a.id := a];
      outbox := outbox + [Message(ApplicationSubmitted(a), a.id)];
      return true;
    }

    method Issue(m: Message, policyId: string, raises: bool) returns (done: bool)
      requires m.event.ApplicationAccepted?
      modifies this
      ensures done <==> policyId !in old(policies) && !raises
      ensures policies == if done then old(policies)[policyId := S.PolicyOf(m, policyId)] else old(policies)
      ensures outbox == if done then old(outbox) + [S.Issued(S.PolicyOf(m, policyId))] else old(outbox)
      ensures done ==>
                var a := m.event;
                && policies[policyId] == Policy(policyId, a.applicationId, a.applicant, a.product, a.annualPremium)
                && outbox[|old(outbox)|] == Message(
                     PolicyIssued(policyId, a.applicationId, a.applicant, a.product, a.annualPremium), a.applicationId)
      ensures issued == old(issued) + if done then 1 else 0
      ensures applications == old(applications)
    {
      if policyId in policies || raises {
        return false;
      }
      var accepted := m.event;
      var policy := Policy(policyId, accepted.applicationId, accepted.applicant, accepted.product, accepted.annualPremium);
      policies := policies[policyId := policy];
      outbox := outbox + [Message(
        PolicyIssued(policyId, accepted.applicationId, accepted.applicant, accepted.product, accepted.annualPremium),
        accepted.applicationId)];
      issued := issued + 1;
      return true;
    }

    /** What claims asks: is there such a policy, and at what premium. */
    method Lookup(policyId: string) returns (inForce: bool, premium: int)
      ensures inForce <==> policyId in policies
      ensures premium == if inForce then policies[policyId].premium else 0
    {
      inForce := policyId in policies;
      premium := if inForce then policies[policyId].premium else 0;
    }
  }

  /** What becomes of a delivery: its handler runs, and this is the charge it publishes; it is
      put back, because its id is in progress; or it is acknowledged, because it was handled. */
  datatype Attempt = First(charge: Message) | InProgress | Handled

  /** Premiums, under the wrapper that claims a message's id before the handler, confirms it
      when the handler returns and releases it when the handler raises. */
  class BillingModule {
    var seen: map<string, S.Hold>
    var charges: seq<string>

    constructor ()
      ensures seen == map[] && charges == []
    {
      seen, charges := map[], [];
    }

    /** Up to the send: the list of charges grows before anything is published. */
    method Charge(messageId: string, m: Message) returns (attempt: Attempt)
      requires m.event.PolicyIssued?
      modifies this
      ensures attempt.First? <==> messageId !in old(seen)
      ensures attempt.InProgress? <==> messageId in old(seen) && old(seen)[messageId].Leased?
      ensures attempt.First? ==> attempt.charge == S.ToPublish(S.Billing(m))
      ensures attempt.First? ==>
                var p := m.event;
                attempt.charge == Message(PremiumCharged(p.policyId, p.applicant, p.annualPremium), p.applicationId)
      ensures seen == if attempt.First? then old(seen)[messageId := S.Leased] else old(seen)
      ensures charges == if attempt.First? then old(charges) + [m.event.policyId] else old(charges)
    {
      if messageId in seen {
        return if seen[messageId].Leased? then InProgress else Handled;
      }
      seen := seen[messageId := S.Leased];
      var policy := m.event;
      charges := charges + [policy.policyId];
      return First(Message(
        PremiumCharged(policy.policyId, policy.applicant, policy.annualPremium), policy.applicationId));
    }

    method Returned(messageId: string)
      modifies this`seen
      ensures seen == old(seen)[messageId := S.Confirmed]
    {
      seen := seen[messageId := S.Confirmed];
    }

    /** The send raised: the message may be charged again, and its charge stays listed. */
    method Raised(messageId: string)
      modifies this`seen
      ensures seen == old(seen) - {messageId}
    {
      seen := seen - {messageId};
    }
  }

  datatype Answer = Silence | InForce(inForce: bool)

  class ClaimsModule {
    var settled: nat
    var rejected: nat

    constructor ()
      ensures settled == 0 && rejected == 0
    {
      settled, rejected := 0, 0;
    }

    /** The handler after its lookup. Silence raises: nothing is sent and nothing counted. */
    method Assess(claimId: string, policyId: string, amount: int, answer: Answer, sendRaises: bool)
        returns (decided: bool, decision: Message)
      modifies this
      ensures decided <==> answer.InForce?
      ensures decided ==> decision == S.ToPublish(S.Replying(claimId, policyId, amount, answer.inForce))
      ensures decided ==>
                decision.event == if answer.inForce then ClaimSettled(claimId, policyId, amount) else ClaimRejected(claimId, policyId)
      ensures decided ==> decision.correlation == policyId
      ensures settled == old(settled) + if decided && answer.inForce && !sendRaises then 1 else 0
      ensures rejected == old(rejected) + if decided && !answer.inForce && !sendRaises then 1 else 0
    {
      decision := Message(ClaimRejected(claimId, policyId), policyId);
      if answer.Silence? {
        return false, decision;
      }
      decided := true;
      if !answer.inForce {
        if !sendRaises {
          rejected := rejected + 1;
        }
        return;
      }
      decision := Message(ClaimSettled(claimId, policyId, amount), policyId);
      if !sendRaises {
        settled := settled + 1;
      }
    }
  }
}
