/** Policy administration as one transition system: submissions, three underwriting
    queues, issue, billing and claims, with relay duplicates, redelivery at any stage,
    lapsing claims of the billing store, and lookups that time out. */
module PolicySystem {
  import opened Wrappers
  import opened Sequences
  import opened PolicyContracts
  import U = Underwriting

  /** Something waiting to be done, and where. `Sent` has published or passed on what it
      had to and is not acknowledged yet. `Billing` has won its claim. `Asking` is a
      claim whose lookup is on its way, `Replying` one whose answer is. */
  datatype Item =
    | Outbox(m: Message)
    | ToEnter(m: Message)
    | AtRegister(application: Application)
    | AtPrice(checked: U.Checked)
    | AtDecide(priced: U.Priced)
    | ToIssue(m: Message)
    | ToBill(m: Message)
    | Billing(m: Message)
    | Asking(claimId: string, policyId: string, amount: int)
    | Replying(claimId: string, policyId: string, amount: int, inForce: bool)
    | Sent(of: Item)

  datatype Counters = Counters(
    accepted: nat, declined: nat, issued: nat, settled: nat, rejected: nat, undecided: nat, failed: nat)

  datatype Lookup = Lookup(claimId: string, policyId: string, known: set<string>)

  datatype Request = Request(policyId: string, amount: int)

  /** A message id in the billing store: its handler is at work, or has returned. */
  datatype Hold = Leased | Confirmed

  /** What a run leaves behind in no module: the message ids that left the billing store,
      the deliveries there were once more than before, and the charges that stopped after
      they were counted and before they were sent. */
  datatype History = History(lapses: seq<string>, copies: seq<Item>, stopped: seq<Message>)

  /** `charges` is the billing module's own list; `lookups` records every lookup with the
      policies there were at the time, and `claims` the claims ever submitted. An outbox
      record's message id is fresh, one for each policy row, so it is written as that
      policy's id. */
  datatype System = System(
    applications: map<string, Application>, policies: map<string, Policy>,
    work: seq<Item>, log: seq<Message>, seen: map<string, Hold>, charges: seq<string>, counters: Counters,
    past: History, lookups: seq<Lookup>, claims: map<string, Request>)

  function Initial(): System {
    System(map[], map[], [], [], map[], [], Counters(0, 0, 0, 0, 0, 0, 0),
           History([], [], []), [], map[])
  }

  function Submitted(a: Application): Message {
    Message(ApplicationSubmitted(a), a.id)
  }

  function Issued(p: Policy): Message {
    Message(PolicyIssued(p.id, p.applicationId, p.applicant, p.product, p.premium), p.applicationId)
  }

  /** The bindings of the topic exchange that lead to a handler with something to do. */
  function Routed(m: Message): seq<Item> {
    match m.event
    case ApplicationSubmitted(_) => [ToEnter(m)]
    case ApplicationAccepted(_, _, _, _, _) => [ToIssue(m)]
    case PolicyIssued(_, _, _, _, _) => [ToBill(m)]
    case _ => []
  }

  datatype Action =
    | Submit(application: Application)                        // the transaction commits
    | Act(index: nat, freshId: string)                          // an item takes its next step
    | Redeliver(index: nat)                                   // a handler stops short; its delivery returns
    | Duplicate(index: nat)                                   // a queued message is delivered again
    | PutBack(index: nat)                                     // a delivery finds its id leased, and waits
    | Lapse(id: string)                                       // the billing store lets a message id go
    | Claim(claimId: string, policyId: string, amount: int)   // a claim is submitted
    | TimesOut(index: nat)                                    // its lookup is not answered in time
    | ClaimFails(index: nat)                                  // publishing its decision raises

  /** Items that publish an event at their next step. */
  predicate Publishing(x: Item) {
    match x
    case Outbox(m) => m.event.ApplicationSubmitted? || m.event.PolicyIssued?
    case AtDecide(_) => true
    case Billing(m) => m.event.PolicyIssued?
    case Replying(_, _, _, _) => true
    case _ => false
  }

  function ToPublish(x: Item): Message
    requires Publishing(x)
  {
    match x
    case Outbox(m) => m
    case AtDecide(p) => U.Decide(p)
    case Billing(m) => Message(PremiumCharged(m.event.policyId, m.event.applicant, m.event.annualPremium), m.event.applicationId)
    case Replying(claimId, policyId, amount, inForce) =>
      if inForce then Message(ClaimSettled(claimId, policyId, amount), policyId)
      else Message(ClaimRejected(claimId, policyId), policyId)
  }

  predicate Startable(x: Item) {
    match x
    case ToEnter(m) => m.event.ApplicationSubmitted?
    case AtRegister(_) => true
    case AtPrice(_) => true
    case ToIssue(m) => m.event.ApplicationAccepted?
    case ToBill(m) => m.event.PolicyIssued?
    case Asking(_, _, _) => true
    case Sent(of) => !of.Sent? && !of.ToBill? && !of.Asking?
    case _ => Publishing(x)
  }

  /** A delivery whose id is leased is put back until it is confirmed or its lease lapses. */
  predicate Waiting(s: System, x: Item) {
    x.ToBill? && x.m.event.PolicyIssued? && x.m.event.policyId in s.seen && s.seen[x.m.event.policyId].Leased?
  }

  /** A delivery, or a relayed record, as against a claim somebody is waiting for. */
  predicate Delivered(x: Item) {
    !x.Asking? && !x.Replying?
  }

  function PolicyOf(m: Message, id: string): Policy
    requires m.event.ApplicationAccepted?
  {
    Policy(id, m.event.applicationId, m.event.applicant, m.event.product, m.event.annualPremium)
  }

  function Follow(s: System, x: Item, freshId: string): (items: seq<Item>)
    requires Startable(x)
    ensures |items| <= 2
  {
    if Publishing(x) then [Sent(x)] + Routed(ToPublish(x))
    else match x
      case ToEnter(m) => [Sent(x)] + [AtRegister(m.event.application)]
      case AtRegister(a) => [Sent(x)] + [AtPrice(U.CheckRegister(a))]
      case AtPrice(c) => [Sent(x)] + [AtDecide(U.Price(c))]
      case ToIssue(m) => [Sent(x)] + [Outbox(Issued(PolicyOf(m, freshId)))]
      case ToBill(m) => if m.event.policyId in s.seen then [] else [Billing(m)]
      case Asking(claimId, policyId, amount) => [Replying(claimId, policyId, amount, policyId in s.policies)]
      case Sent(_) => []
  }

  function Effect(s: System, x: Item, freshId: string): System
    requires Startable(x)
  {
    if Publishing(x) then s.(log := s.log + [ToPublish(x)])
    else match x
      case ToIssue(m) => s.(policies := s.policies[freshId := PolicyOf(m, freshId)])
      case ToBill(m) =>
        if m.event.policyId in s.seen then s
        else s.(seen := s.seen[m.event.policyId := Leased], charges := s.charges + [m.event.policyId])
      case Asking(claimId, policyId, _) => s.(lookups := s.lookups + [Lookup(claimId, policyId, s.policies.Keys)])
      case Sent(of) => s.(counters := Count(s.counters, of), seen := Confirm(s.seen, of))
      case _ => s
  }

  /** The counter a handler moves once its send has returned. */
  function Count(c: Counters, of: Item): Counters {
    match of
    case AtDecide(p) => if p.refer then c.(declined := c.declined + 1) else c.(accepted := c.accepted + 1)
    case ToIssue(_) => c.(issued := c.issued + 1)
    case Replying(_, _, _, inForce) =>
      if inForce then c.(settled := c.settled + 1) else c.(rejected := c.rejected + 1)
    case _ => c
  }

  function Confirm(seen: map<string, Hold>, of: Item): map<string, Hold> {
    if of.Billing? && of.m.event.PolicyIssued? then seen[of.m.event.policyId := Confirmed] else seen
  }

  function Returned(x: Item): Item {
    if x.Sent? then Requeued(x.of) else Requeued(x)
  }

  function Requeued(x: Item): Item {
    if x.Billing? then ToBill(x.m) else x
  }

  /** A delivery comes back: after its handler did all it had to, or with its charge unsent. */
  function Back(s: System, x: Item): System {
    if x.Billing? then
      s.(past := s.past.(stopped := s.past.stopped + [x.m]))
    else
      s.(past := s.past.(copies := s.past.copies + [Returned(x)]))
  }

  predicate Enabled(s: System, a: Action) {
    match a
    case Submit(app) => app.id !in s.applications
    case Act(i, freshId) =>
      i < |s.work| && Startable(s.work[i]) && !Waiting(s, s.work[i]) && freshId !in s.policies
    case Redeliver(i) =>
      && i < |s.work|
      && Startable(s.work[i])
      && (s.work[i].Billing? || (s.work[i].Sent? && Delivered(s.work[i].of)))
    case Duplicate(i) =>
      i < |s.work| && Delivered(s.work[i]) && !s.work[i].Sent? && !s.work[i].Billing? && !s.work[i].Outbox?
    case PutBack(i) => i < |s.work| && Waiting(s, s.work[i])
    case Lapse(id) => id in s.seen
    case Claim(claimId, _, _) => claimId !in s.claims
    case TimesOut(i) => i < |s.work| && (s.work[i].Asking? || s.work[i].Replying?)
    case ClaimFails(i) => i < |s.work| && (s.work[i].Replying? || (s.work[i].Sent? && s.work[i].of.Replying?))
  }

  function Next(s: System, a: Action): System
    requires Enabled(s, a)
  {
    match a
    case Submit(app) =>
      s.(applications := s.applications[app.id := app], work := s.work + [Outbox(Submitted(app))])
    case Act(i, freshId) =>
      Effect(s, s.work[i], freshId).(work := Splice(s.work, i, Follow(s, s.work[i], freshId)))
    case Redeliver(i) => Back(s, s.work[i]).(work := Splice(s.work, i, [Returned(s.work[i])]))
    case Duplicate(i) => s.(work := s.work + [s.work[i]], past := s.past.(copies := s.past.copies + [s.work[i]]))
    case PutBack(_) => s
    case Lapse(id) => s.(seen := s.seen - {id}, past := s.past.(lapses := s.past.lapses + [id]))
    case Claim(claimId, policyId, amount) =>
      s.(work := s.work + [Asking(claimId, policyId, amount)], claims := s.claims[claimId := Request(policyId, amount)])
    case TimesOut(i) =>
      s.(work := Splice(s.work, i, []), counters := s.counters.(undecided := s.counters.undecided + 1))
    case ClaimFails(i) =>
      s.(work := Splice(s.work, i, []), counters := s.counters.(failed := s.counters.failed + 1))
  }

  predicate Runs(s: System, run: seq<Action>)
    decreases |run|
  {
    run == [] || (Enabled(s, run[0]) && Runs(Next(s, run[0]), run[1..]))
  }

  function End(s: System, run: seq<Action>): System
    requires Runs(s, run)
    decreases |run|
  {
    if run == [] then s else End(Next(s, run[0]), run[1..])
  }

  lemma {:induction false} RunsAppend(s: System, run: seq<Action>, a: Action)
    requires Runs(s, run) && Enabled(End(s, run), a)
    ensures Runs(s, run + [a]) && End(s, run + [a]) == Next(End(s, run), a)
    decreases |run|
  {
    if run == [] {
      assert run + [a] == [a] && [a][1..] == [];
    } else {
      assert (run + [a])[1..] == run[1..] + [a] && (run + [a])[0] == run[0];
      RunsAppend(Next(s, run[0]), run[1..], a);
    }
  }

  lemma {:induction false} RunsConcat(s: System, run: seq<Action>, later: seq<Action>)
    requires Runs(s, run) && Runs(End(s, run), later)
    ensures Runs(s, run + later) && End(s, run + later) == End(End(s, run), later)
    decreases |later|
  {
    if later == [] {
      assert run + later == run;
    } else {
      RunsAppend(s, run, later[0]);
      RunsConcat(s, run + [later[0]], later[1..]);
      assert run + [later[0]] + later[1..] == run + later;
    }
  }
}
