# A model of the AMQP example applications

The three applications under `apps/` and the standing load of `advanced/06` are small
state machines joined by queues. This project states what they keep over every run and
proves it. The messaging library and the broker appear only as the steps they take:
deliver, deliver again, accept a send, refuse it, lose a handler, lose the process.

Code between two awaits is one atomic step. The ledger's writer, payments and inventory
are written twice: as a value with one function for each such step, which the transition
systems use, and as a class that carries the step out in place and is proved equal to it.
The other services are functions of the transition systems, and classes whose methods are
stated in terms of those functions.

| File | What it holds |
|---|---|
| `WireNames.dfy` | field names on the wire, and the round trip of records |
| `LedgerJournal.dfy`, `LedgerWriter.dfy`, `LedgerTransfers.dfy` | entries and balances; the writer and its cache; the command gateway |
| `LedgerRebuild.dfy` | the polling loop that rebuilds the balances |
| `LedgerSystem.dfy`, `LedgerSafety.dfy`, `LedgerTheorems.dfy` | every run of the ledger, what each step keeps, and the promises |
| `LedgerSolvency.dfy`, `LedgerExposure.dfy` | how far an account can be overdrawn; exactly when a run can go on to overdraw one |
| `LedgerRepeats.dfy` | what a repeated command does |
| `LedgerProjections.dfy` | statements read from the same journal |
| `Outbox.dfy` | the transactional outbox, for any row |
| `Fulfilment.dfy`, `Payments.dfy`, `Inventory.dfy`, `Shipping.dfy`, `Notifications.dfy` | the services of order fulfilment |
| `FulfilmentSystem.dfy`, `FulfilmentSafety.dfy`, `FulfilmentCounts.dfy`, `FulfilmentTheorems.dfy` | the five services as one system, and what it keeps under faults |
| `FulfilmentFaults.dfy`, `FulfilmentDrain.dfy` | what the faults cost, and how the system comes to rest |
| `PolicyContracts.dfy`, `Underwriting.dfy`, `PolicyModules.dfy` | the modules of policy administration |
| `PolicySystem.dfy`, `PolicySafety.dfy`, `PolicyTheorems.dfy` | the modules as one system, and what it keeps under faults |
| `PolicyFlow.dfy`, `PolicyDrain.dfy` | what becomes of an application, and how the system comes to rest |
| `StandingLoad.dfy` | the counters, the publish loop and the sampled readings |
| `Sequences.dfy`, `Wrappers.dfy` | sums, filters and splices; an option type |

## Assumptions

- The ledger has one command in hand at a time. `fund` interleaves at any await. A send
  that raises has left nothing in the stream, or has left its entry there; both are steps.
- A send in flight when the writer dies is in the stream before the next writer rebuilds,
  or never.
- A restart of the ledger's writer reads the whole journal. When the polling loop does
  that is what `RebuiltFrom` states.
- Claims of an idempotency store that run out, are released, or outlive their retention
  are one step, a lapse, that may come at any time.
- Redelivery is unbounded: any queued message may be there twice, and any handler in hand
  may be lost with its delivery kept. A duplicate carries the attempts made so far, because
  a retry is republished with the count on the message.
- Billing's wrapper, unlike the claim payments takes by hand, tells an id in progress from
  one that was handled: the first is put back, to be delivered until the claim is confirmed
  or lapses, the second acknowledged.
- Billing's store is keyed on the id of the message it is handed. An outbox record has one
  id, made once for each policy row, so the transition system writes it as the policy's id;
  the class takes it as it comes.
- Ids made with `uuid` are fresh. Clocks are monotone.
- The inventory is one process: its stock is in memory only.

## Where the code and its own words part

- `with_flaky_warehouse` is documented to fail the next `count` calls; it compares with
  every call there ever was (`FlakyMeansNextCallsIff`).
- The ledger's contracts strip trailing underscores as a rule of their own; the other
  copies already mangle such names the same way (`StrippingIsRedundant`).
- The commands queue is described as one where a command is handled once. Nothing
  remembers a command: one delivered again is decided again, and posted again if the
  balance still covers it (`ACommandIsAppliedTwice`). It is posted once for each of its
  deliveries that the balance covered (`AppliedOncePerCoveredDelivery`).
- Payments confirms a claim after publishing so that no order takes the money and stops.
  A handler that stops after winning the claim and before publishing leaves one stopped as
  well: its redelivery is refused as a duplicate and acknowledged, so nothing is left to
  try again when the lease runs out (`AStoppedChargeIsNeverTold`,
  `ToldUnlessItsClaimsStopped`).
- Payments is said to be the only service for which a message handled twice matters.
  Inventory answers each delivery of a capture anew, and takes stock for it
  (`AnswersOfAnOrder`). It takes stock before it publishes the reservation, so a
  reservation whose send raised takes it again (`AFailedReservationHoldsTwice`,
  `TakenIsPublishedIff`).
- Billing is described as charging once. It does for each message whose claim does not lapse;
  an acceptance delivered again makes another policy with a message of its own, charged too
  (`RedeliveredAcceptanceIsChargedTwice`, `PoliciesOfAnApplication`,
  `ChargesOfAnApplication`).
- `fund` takes any amount. A negative one can take its account below zero whatever the
  balance, and so can any debit the broker took although its send raised (`DoubtOverdraws`
  is a run), unless the cache has missed as much money before (`ACreditInDoubtCovers`).
  Exactly when is `FundIsSafeIff`, `DoubtIsSafeIff` and, for whole runs, `RunIsSafeIff`;
  together they take an account no further than their own amounts (`OverdraftIsBounded`).

## Model

| member | source | states |
|---|---|---|
| WireNames.StrippingIsRedundant | apps/03-ledger/contracts.py:111-114 | the ledger's mangling equals the other copies' on every name |
| WireNames.UncamelCamel | apps/01-order-fulfilment/contracts.py:124-126 | on snake-case names of any length mangling has a left inverse |
| WireNames.CamelAt | apps/01-order-fulfilment/contracts.py:124-126 | a mangled name is the segments run together, the first letter of each after the first raised, all else as it was |
| WireNames.CamelIsCased | apps/02-policy-administration/contracts.py:164-166 | it holds letters only, and its capitals are exactly where a segment after the first starts |
| WireNames.FromWire | apps/03-ledger/contracts.py:122-124 | a record is read exactly when no field is missing, each field from its mangled name |
| WireNames.LastFieldWins | apps/03-ledger/contracts.py:117-119 | of the fields that mangle to one name, the last one is on the wire |
| WireNames.RoundTrip | apps/03-ledger/contracts.py:117-124 | every record of a shape comes back from the wire exactly when no two fields mangle to one name |
| WireNames.DistinguishedIff | apps/03-ledger/contracts.py:97-114 | for snake-case names, trailing underscores allowed, that is when no two differ only in those underscores |
| WireNames.SnakeShapesSurvive | apps/02-policy-administration/contracts.py:164-176 | the two together, for every shape with such names |
| LedgerJournal.FoldIsBalances | apps/03-ledger/ledger.py:70-79 | replaying a journal gives exactly the accounts it names, each with its sum |
| LedgerWriter.Balances.Apply | apps/03-ledger/ledger.py:70-72 | adds the entry's amount to its account, starting from zero |
| LedgerWriter.Balances.Replay | apps/03-ledger/ledger.py:45-50 | applies one entry and counts it |
| LedgerWriter.LedgerModule.constructor | apps/03-ledger/ledger.py:82-100 | a started writer holds the fold of the journal and nothing in hand |
| LedgerWriter.LedgerModule.Receive | apps/03-ledger/ledger.py:106-133 | refuses with the reason, and the balance it found, or sends the debit, as the cached balance says |
| LedgerWriter.LedgerModule.Reject | apps/03-ledger/ledger.py:151-164 | counts a refusal and sends it |
| LedgerWriter.LedgerModule.Posted | apps/03-ledger/ledger.py:146-149 | applies and counts an entry once its send returned |
| LedgerWriter.LedgerModule.DebitReturned | apps/03-ledger/ledger.py:124-143 | applies the debit and sends the credit |
| LedgerWriter.LedgerModule.CreditReturned | apps/03-ledger/ledger.py:134-144 | applies the credit and accepts the command |
| LedgerWriter.LedgerModule.Fund | apps/03-ledger/ledger.py:166-171 | sends an opening entry |
| LedgerWriter.LedgerModule.FundReturned | apps/03-ledger/ledger.py:146-149 | applies an opening entry, whatever else is in hand |
| LedgerTransfers.TransferGateway.Request | apps/03-ledger/transfers.py:36-45 | a command says what was asked, under an id no opening can have |
| LedgerTransfers.TransferGateway.Noticed | apps/03-ledger/transfers.py:32-34 | keeps every refusal, in order |
| LedgerRebuild.Deliver | apps/03-ledger/ledger.py:45-50 | the deliveries of one await leave the fold of a longer prefix and the last one's time |
| LedgerRebuild.RebuiltFrom | apps/03-ledger/ledger.py:40-68 | at most 1501 sleeps, up to the first pass that finds 400 ms of quiet; the fold of a prefix, the whole journal if every gap is under 400 ms; or raises at the first pass past 30 seconds that does not |
| LedgerRebuild.Start | apps/03-ledger/ledger.py:92-100 | a writer starts from the rebuilt prefix, the whole journal when the stream never went quiet early; there is none exactly when the limit came before the quiet |
| LedgerSafety.AgreesNext | apps/03-ledger/ledger.py:106-171 | every step keeps cache, pending entries and entries taken unseen in agreement with the log |
| LedgerSafety.FailedSendAgrees | apps/03-ledger/ledger.py:146-149 | a send that raises, a command's or a fund's, leaves the cache true to the log exactly when the broker did not take its entry |
| LedgerSolvency.OverdraftIsBounded | apps/03-ledger/ledger.py:106-171 | in every run an account is never below its own negative openings plus the debits taken by sends that raised |
| LedgerSolvency.NoOverdraft | apps/03-ledger/ledger.py:106-149 | without a negative fund of it, and with none of its debits taken in doubt, an account is not below zero at any prefix of any run's journal |
| LedgerExposure.SafeIff | apps/03-ledger/ledger.py:106-171 | from any reachable state, no harmless continuation overdraws exactly when nothing was overdrawn and no account's slack is negative |
| LedgerExposure.FundIsSafeIff | apps/03-ledger/ledger.py:166-171 | a fund leaves a safe ledger safe exactly when the slack covers its negative amount; with nothing missed, when it is not negative |
| LedgerExposure.DoubtIsSafeIff | apps/03-ledger/ledger.py:120-149 | a send that raises with its entry taken leaves it safe exactly when the entry is no debit or there is as much to spare; with nothing missed, when it is no debit |
| LedgerExposure.RunIsSafeIff | apps/03-ledger/ledger.py:106-171 | every run is safe from each of its points on exactly when each fund and each debit in doubt met that guard |
| LedgerExposure.RunIsSafeIffHarmless | apps/03-ledger/ledger.py:106-171 | where no credit or fund was taken in doubt: exactly when no fund was negative and no debit was taken in doubt |
| LedgerExposure.ACreditInDoubtCovers | apps/03-ledger/ledger.py:134-149 | from an empty journal: after a credit taken in doubt, a negative fund of as much is safe |
| LedgerSafety.PairedTotal | apps/03-ledger/main.py:179-189 | a journal whose credits answer its debits totals its openings less its unanswered debits |
| LedgerSafety.PairedNext | apps/03-ledger/ledger.py:120-144 | every step keeps each credit answering the open debit, and the torn ones within the interruptions |
| LedgerTheorems.CacheAgreesWithLog | apps/03-ledger/ledger.py:146-149 | at every await of every run, balance, pending entries and entries taken unseen since the start are the log's sum, and the keys agree |
| LedgerTheorems.EveryEntryIsCountedOnce | apps/03-ledger/main.py:180 | entries replayed, posted and taken unseen are the journal |
| LedgerTheorems.EveryEntryHasASource | apps/03-ledger/ledger.py:120-171 | an entry is an opening of its account or half of a requested transfer |
| LedgerTheorems.DecidedAgainstTheLog | apps/03-ledger/ledger.py:106-118 | a command is accepted exactly when positive and covered by the log less what is pending or unseen; a refusal for want of funds reports exactly that balance |
| LedgerTheorems.EveryNoticeIsKept | apps/03-ledger/transfers.py:32-34 | the gateway has kept one refusal for each delivery of one, in the order they were sent |
| LedgerTheorems.MoneyIsConserved | apps/03-ledger/ledger.py:120-164 | the total is the openings less the unanswered debits, which number at most the interruptions plus one in hand |
| LedgerTheorems.EveryCommandIsHandledOnce | apps/03-ledger/ledger.py:120-164 | uninterrupted, each delivery of a command is one balanced pair or one refusal, in order, and nothing is lost |
| LedgerRepeats.AppliedOncePerCoveredDelivery | apps/03-ledger/contracts.py:55 | uninterrupted, a transfer's id has one debit and one credit in the journal for each of its deliveries that the balance covered |
| LedgerRepeats.ACommandIsAppliedTwice | apps/03-ledger/ledger.py:106-144 | from an empty journal: one request delivered twice, with no interruption, moves the money twice |
| LedgerTheorems.RestartIsUnobservable | apps/03-ledger/main.py:158-175 | with nothing pending, a rebuild puts right exactly what the cache missed; with nothing missed it has the same accounts and every later run goes the same way |
| LedgerProjections.StatementProjection.RecordEntry | apps/03-ledger/projections.py:39-42 | appends the entry to its account's statement |
| LedgerProjections.StatementIsSubsequence | apps/03-ledger/projections.py:44-46 | a statement is the journal's subsequence for its account, in order |
| LedgerProjections.ProjectionAgreesWithWriter | apps/03-ledger/projections.py:48-50 | at any position a projected balance is the writer's |
| LedgerProjections.LateReaderPlusPrefix | apps/03-ledger/projections.py:25-37 | a reader that joined late plus the balance where it joined is a reader from the start |
| LedgerProjections.StatementsPartition | apps/03-ledger/projections.py:52-54 | the statements partition exactly the entries read |
| Outbox.OutboxAgrees | apps/01-order-fulfilment/gateway.py:54-99 | rows and records correspond one to one through commits, rollbacks and crashes; only committed rows are announced; nothing pending means all were |
| Outbox.RollbackLeavesNothing | apps/01-order-fulfilment/gateway.py:92-96 | a rolled back transaction leaves nothing; a crash takes only what was open |
| Outbox.AWriteIsAnnounced | apps/01-order-fulfilment/main.py:156-170 | a committed row is announced and marked; by a relay that dies between the two, twice |
| Outbox.Database.Write | apps/02-policy-administration/policies.py:54-78 | a row and its record, or neither |
| Payments.Outcome | apps/01-order-fulfilment/payments.py:72-96 | declined exactly above the automatic limit |
| Payments.PaymentsService.Charge | apps/01-order-fulfilment/payments.py:62-96 | the first delivery leases the claim and gets the outcome; any other is refused and counted |
| Payments.PaymentsService.Sent | apps/01-order-fulfilment/payments.py:85-103 | counts the outcome and confirms the claim, after the send |
| Inventory.Inventory.Answer | apps/01-order-fulfilment/inventory.py:82-108 | reserved exactly when there is enough, and otherwise told what is left |
| Inventory.Inventory.FailuresInIs | apps/01-order-fulfilment/inventory.py:76-80 | how many of the next calls fail |
| Inventory.Inventory.FlakyMeansNextCallsIff | apps/01-order-fulfilment/inventory.py:67-80 | "the next count calls fail" holds exactly for a warehouse never called, or a count of nothing |
| Inventory.InventoryService.WithStock | apps/01-order-fulfilment/inventory.py:63-65 | sets one product's stock |
| Inventory.InventoryService.WithFlakyWarehouse | apps/01-order-fulfilment/inventory.py:67-70 | sets the failures to simulate and leaves the calls made |
| Inventory.InventoryService.Reserve | apps/01-order-fulfilment/inventory.py:72-107 | raises, or takes the stock and answers, as the warehouse and the stock are |
| Inventory.InventoryService.Sent | apps/01-order-fulfilment/inventory.py:97-110 | counts the answer after its send |
| Shipping.TrackingTellsTheOrder | apps/01-order-fulfilment/shipping.py:36 | different orders get different tracking numbers |
| Shipping.Upper | apps/01-order-fulfilment/shipping.py:36 | raises each lower-case letter and leaves every other character |
| Shipping.ShippingService.DispatchOne | apps/01-order-fulfilment/shipping.py:34-46 | publishes one shipment for a reservation, tracked by the raised end of its order id, and counts it once sent |
| Notifications.NotificationsService.RecordMessage | apps/01-order-fulfilment/notifications.py:33-38 | appends the type to the timeline of the correlation id |
| FulfilmentDrain.EveryDeliveryIsOnTheTimeline | apps/01-order-fulfilment/notifications.py:33-38 | a timeline holds the types of all messages handed to it for its order, in order, a repeated one as often as it came |
| FulfilmentSafety.CausalNext | apps/01-order-fulfilment/gateway.py:60-90 | every step keeps every message genuine and caused |
| FulfilmentTheorems.EveryEventIsCaused | apps/01-order-fulfilment/payments.py:74-96 | every event carries its order's id, tells of a committed order, was caused, and a declined order goes no further |
| FulfilmentTheorems.ShippedHasItsHistory | apps/01-order-fulfilment/shipping.py:34-46 | shipped after reserved after captured after placed, of one committed order |
| FulfilmentTheorems.ChargedOncePerClaim | apps/01-order-fulfilment/payments.py:36-103 | outcomes published for an order are at most one plus the lapses of its claim |
| FulfilmentTheorems.DuplicatesAreCounted | apps/01-order-fulfilment/payments.py:65-70 | duplicates refused are the charge deliveries that found their claim in the store: announcements and repeats less the claims won and what waits |
| FulfilmentTheorems.ConfirmedMeansTold | apps/01-order-fulfilment/payments.py:99-102 | a claim is confirmed only when its outcome is published |
| FulfilmentFaults.AnnouncedTwiceIsChargedOnce | apps/01-order-fulfilment/main.py:156-170 | an order announced twice is charged once, its duplicate refused and counted, its claim confirmed |
| FulfilmentFaults.ALapsedClaimIsChargedTwice | apps/01-order-fulfilment/payments.py:36-44 | unless its claim lapses between the two: then it is charged twice |
| FulfilmentTheorems.ToldUnlessItsClaimsStopped | apps/01-order-fulfilment/payments.py:62-103 | outcomes, claims in hand and claims stopped before their send are the claims won; an order with nothing left to do was told its outcome exactly when fewer claims stopped than were won, without lapses when none did |
| FulfilmentFaults.AStoppedChargeIsNeverTold | apps/01-order-fulfilment/payments.py:99-102 | from an empty system: a crash or a failed send after the claim leaves a committed, announced order at rest with no outcome |
| FulfilmentTheorems.NeverOversold | apps/01-order-fulfilment/inventory.py:82-110 | stock left, published as reserved, in hand and stranded is the initial stock, and what is left is never negative; published reservations never exceed it |
| FulfilmentTheorems.TakenIsPublishedIff | apps/01-order-fulfilment/inventory.py:100-109 | at rest, stock taken is stock published exactly when no handler stopped holding some |
| FulfilmentTheorems.AnswersOfAnOrder | apps/01-order-fulfilment/inventory.py:72-110 | answers published, on their way and dead-lettered are an order's captures and the deliveries of them made once more; at rest one capture has one answer exactly when as many were dead-lettered as repeated |
| FulfilmentTheorems.RetriesAreCounted | apps/01-order-fulfilment/inventory.py:67-80 | retries are failed attempts less dead letters; a dead letter takes four, its own or inherited by a duplicate; three failures lose nothing |
| FulfilmentTheorems.WarehouseCallsAreCounted | apps/01-order-fulfilment/inventory.py:76-80 | every delivery is one call of the warehouse, answered or not |
| FulfilmentFaults.DeadLettersAreOneInFourIff | basic/02-retries-and-dead-letters/README.md:14-18 | at most one dead letter for four simulated failures, over all runs, exactly when duplicates inherit no failed attempt |
| FulfilmentFaults.RetryBoundIsTight | apps/01-order-fulfilment/inventory.py:32 | for every number of inherited attempts there is a run that meets the bound |
| FulfilmentTheorems.CountersNeverOverstate | apps/01-order-fulfilment/payments.py:85-97 | no service counts more outcomes than it published |
| FulfilmentTheorems.EmptyOutboxMeansAnnounced | apps/01-order-fulfilment/gateway.py:70-99 | with nothing in the outbox, every committed order was announced |
| FulfilmentFaults.AFailedReservationHoldsTwice | apps/01-order-fulfilment/inventory.py:100-108 | from an empty system: one order, reserved once, takes its quantity twice |
| FulfilmentDrain.MeasureDrops | apps/01-order-fulfilment/inventory.py:72-110 | every draining step brings a bounded measure down, from any reachable state |
| FulfilmentDrain.DrainingEnds | apps/01-order-fulfilment/main.py:70-154 | whatever faults came before, every schedule ends within the measure, with empty outbox and queues |
| FulfilmentDrain.DrainingIsComplete | apps/01-order-fulfilment/main.py:70-154 | without faults, each timeline is then one of three stories; one outcome an order, its claim confirmed; counters equal events |
| Underwriting.StagesAreOneRule | apps/02-policy-administration/underwriting.py:109-168 | three queued stages accept exactly the acceptable applications at the quote, and decline the others |
| Underwriting.ContainsIff | apps/02-policy-administration/underwriting.py:115 | one string is in another exactly when it starts somewhere in it |
| Underwriting.Lower | apps/02-policy-administration/underwriting.py:115 | lowers each capital and leaves every other character |
| Underwriting.KnownIff | apps/02-policy-administration/underwriting.py:109-116 | the register knows exactly the applicants with "known" somewhere in the lowered name |
| Underwriting.QuoteLoads | apps/02-policy-administration/underwriting.py:123-126 | and those pay half the base more |
| Underwriting.QuoteIsMonotone | apps/02-policy-administration/underwriting.py:123-131 | more cover or more years never cost less |
| Underwriting.UnderwritingModule.DecideStage | apps/02-policy-administration/underwriting.py:134-168 | sends the decision and counts it once sent |
| PolicyModules.PolicyModule.Submit | apps/02-policy-administration/policies.py:80-94 | an application and its announcement, or neither |
| PolicyModules.PolicyModule.Issue | apps/02-policy-administration/policies.py:96-122 | a policy and its announcement, counted, or nothing |
| PolicyModules.PolicyModule.Lookup | apps/02-policy-administration/policies.py:129-134 | in force exactly when there is a row, with its premium |
| PolicyModules.BillingModule.Charge | apps/02-policy-administration/billing.py:38-57 | the first delivery of a message id is charged, at the policy's premium; one whose id is leased is put back, one whose id is confirmed acknowledged |
| PolicyModules.BillingModule.Raised | apps/02-policy-administration/README.md:98-107 | a handler that raised gives its id back, and its charge stays on the list |
| PolicyModules.ClaimsModule.Assess | apps/02-policy-administration/claims.py:57-88 | silence decides and counts nothing; an answer decides and is counted once sent |
| PolicyTheorems.EveryPremiumIsAQuote | apps/02-policy-administration/billing.py:46-57 | a charged premium is a committed policy's, in the name and at the quote of its committed application of at most 500000, after submission, acceptance and issue in that order |
| PolicyTheorems.EveryIssueSaysItsApplication | apps/02-policy-administration/policies.py:96-122 | a policy is announced, and recorded, for its application's applicant and product, at its quote |
| PolicyTheorems.NeverBothAcceptedAndDeclined | apps/02-policy-administration/underwriting.py:134-168 | no application is ever both |
| PolicyTheorems.BilledOncePerMessage | apps/02-policy-administration/billing.py:38-57 | charges taken are at most one plus the lapses, and are exactly those published, about to be, or stopped before their send |
| PolicyFlow.PoliciesOfAnApplication | apps/02-policy-administration/policies.py:80-122 | an application has a policy for each issue step; at rest an acceptable one has one, and one more for each delivery repeated on its way, so exactly one when none was; any other has none |
| PolicyFlow.PremiumsOfAPolicy | apps/02-policy-administration/billing.py:38-57 | at rest a policy's premium was published at least once: the charges taken less those stopped, at most one plus the lapses, and once when none lapsed |
| PolicyFlow.ChargesOfAnApplication | apps/02-policy-administration/billing.py:38-57 | premiums published over all policies of an application are at most its issue steps plus the lapses |
| PolicyDrain.RedeliveredAcceptanceIsChargedTwice | apps/02-policy-administration/policies.py:96-122 | from an empty system: one redelivered acceptance makes two policies, two announcements and two premiums |
| PolicyDrain.DrainingEnds | apps/02-policy-administration/main.py:78-110 | whatever faults came before, every schedule ends within a measure, when all that is queued waits for a lease |
| PolicyDrain.LapsedLeasesLetAllFinish | apps/02-policy-administration/README.md:100-104 | with no lease left behind, it ends with nothing queued, every row announced and every premium published |
| PolicyDrain.RestIsReached | apps/02-policy-administration/README.md:100-104 | from any reachable state, leases lapse and steps are taken until nothing is queued and every premium was published |
| PolicyDrain.EveryApplicationEnds | apps/02-policy-administration/main.py:78-110 | without faults, every application ends declined, or accepted, issued and charged once at its quote |
| PolicyTheorems.ClaimDecisionsAreSound | apps/02-policy-administration/claims.py:57-88 | a settled claim pays what was asked on a policy there for ever; a rejected one named a policy absent at its lookup; each decided once |
| PolicyTheorems.APolicyInForceIsNotRejected | apps/02-policy-administration/claims.py:57-88 | a claim on a policy in force when it was submitted is never rejected |
| PolicyTheorems.EveryClaimIsAccountedFor | apps/02-policy-administration/claims.py:61-88 | submitted claims are settled, rejected, undecided, failed or open |
| PolicyTheorems.EmptyOutboxMeansAnnounced | apps/02-policy-administration/policies.py:54-78 | with nothing in the outbox, every application and policy was announced |
| PolicyTheorems.CountersNeverOverstate | apps/02-policy-administration/underwriting.py:154-168 | no module counts more than there is; exactly what there is, when nothing stopped short |
| StandingLoad.Counters.Publish | advanced/06-a-standing-load-something-else-can-watch/main.py:117-156 | the loop counts each attempt and each outcome under its own heading |
| StandingLoad.Sampler.EmitReading | advanced/06-a-standing-load-something-else-can-watch/main.py:166-202 | one line from the totals and the marks, and the marks moved on |
| StandingLoad.EveryAttemptIsAccountedFor | advanced/06-a-standing-load-something-else-can-watch/main.py:101-156 | attempts outrun outcomes by one exactly while a send is outstanding or was when cancelled; readings only rise |
| StandingLoad.EveryOutcomeIsCounted | advanced/06-a-standing-load-something-else-can-watch/main.py:123-153 | each counter is the number of its own outcomes in the run |
| StandingLoad.ALineTellsTheRun | advanced/06-a-standing-load-something-else-can-watch/main.py:166-193 | a line tells every attempt before it, the outstanding one included, each outcome, and the time since the line before |
| StandingLoad.CancelledStaysPut | advanced/06-a-standing-load-something-else-can-watch/main.py:146-150 | once the publisher is cancelled nothing of its own moves again |
| StandingLoad.RatesTelescope | advanced/06-a-standing-load-something-else-can-watch/main.py:192-196 | rates times intervals come to the last totals exactly when nothing fell in an interval of no length |

## Left out

- The messaging library and the broker: codecs, headers, claim-check framing, schema registry, the saga, the scheduler. Only their steps appear.
- The examples under `basic/`, `intermediate/` and the rest of `advanced/`, which drive that library.
- The scenario runners, `main.py` of each application, which state intent and hold no state of their own.
- `documents.py`, a dictionary put and get.
- Dead-lettering by payments, shipping and the policy queues: a message that stops coming back is a run in which nothing more is done with it.
- Restarting the inventory's process, whose stock is in memory only, and refunds, which are named and not implemented.
- The reasons' wording: a refusal's reason is a value with the facts in it, and the decline and rejection texts are constants.
- The topology's declarations beyond its bindings, and the audit and claims queues, whose handlers do nothing.
- SQL, transactions at the level of locks, JSON printing, the `at`, `elapsedMs`, `blocked` and `reason` fields of a reading, and metrics rendering.
- NoOverdraft: speaks of an account with no negative `fund` and no debit taken in doubt, because the code checks neither; `OverdraftIsBounded` has neither hypothesis, and `RunIsSafeIff` is exact.
- NeverOversold: bounds published reservations only when no order has a negative quantity, because the code does not check it; the conservation it states holds regardless.
- DrainingIsComplete: speaks of runs without faults; `DrainingEnds`, `ToldUnlessItsClaimsStopped` and `TakenIsPublishedIff` say what is left when there were some.
- RebuiltFrom: takes `asyncio.sleep` to last at least what it was asked to on the clock the loop reads.
