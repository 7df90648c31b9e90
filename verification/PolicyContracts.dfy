/** The records and events of policy administration. */
module PolicyContracts {

  datatype Application = Application(id: string, applicant: string, product: string, sumAssured: int, age: int)

  datatype Policy = Policy(id: string, applicationId: string, applicant: string, product: string, premium: int)

  datatype Event =
    | ApplicationSubmitted(application: Application)
    | ApplicationAccepted(applicationId: string, applicant: string, product: string, sumAssured: int, annualPremium: int)
    | ApplicationDeclined(applicationId: string, applicant: string, sumAssured: int)
    | PolicyIssued(policyId: string, applicationId: string, applicant: string, product: string, annualPremium: int)
    | PremiumCharged(policyId: string, applicant: string, amount: int)
    | ClaimSettled(claimId: string, policyId: string, paid: int)
    | ClaimRejected(claimId: string, policyId: string)

  datatype Message = Message(event: Event, correlation: string)
}
