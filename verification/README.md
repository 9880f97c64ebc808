# The backend's authority rail, modelled and proved

An assistant buys flights on a traveller's behalf. What it may buy is fixed by a signed mandate; each
purchase reserves capacity under that mandate, is paid at most once, leaves hash-chained evidence, and can
be disputed later on that evidence alone. This project models the backend modules that carry this promise
and proves it over whole runs.

Every database transaction is one atomic step, because row locks and advisory locks serialise them. Calls
to providers (payment executor, model, merchant, search, identity provider) are separate steps with
arbitrary results, and a caller may stop between any two steps. The clock, random identifiers and the
answers of "first row by this order" queries are inputs. SHA-256 over canonical JSON is an arbitrary
function; only the theorems about chains need that payloads and events do not collide (`CollisionFree`).

| file | what it holds |
| --- | --- |
| `HashChain`, `Ledger`, `Timeline`, `TimelineOrder` | rebuilding, validating, extending, ranking and sorting audit chains |
| `Mandates`, `ConsentEvidence`, `MandateAnswers` | mandates and the single-use biometric consent; what a verified consent rests on; every request's answer |
| `PaymentResults`, `Rail`, `PaymentStore`, `PaymentService` | reservation, claim, result, reconciliation |
| `RailInvariant`, `ReserveInvariant`, `Capacity`, `PaymentProcess` | what every step and every run keeps |
| `RailAnswers`, `PaymentResolution` | how reservations, claims and results are answered, on the stored columns |
| `Disputes`, `DisputeProcess`, `Liability`, `DisputeStore`, `ForeignAgent` | evidence checks, opening disputes, who pays, a lost one |
| `Calendar`, `TravelPolicy`, `TravelBot`, `TravelBotService`, `TravelRuns` | the conversation machine |
| `TravelFields`, `OfferChoice`, `Decisions` | what a conversation takes from a message, which offer it waits on, what an answer leaves |
| `TravelLimits` | exactly which messages take something away from a conversation, with runs that do |
| `ApprovalToPayment`, `PurchaseRun` | the conversation on top of the rail: one payment for one approval |
| `TurnProtocol`, `TurnInvariant`, `TurnRefinement`, `TurnRepositories` | the turn protocol, twice |
| `TurnAnswers`, `ApprovalRows` | how its calls are answered, and how approval rows are settled |
| `ServiceOverPostgres`, `ServedConversations` | the service over PostgreSQL: which messages fail, what becomes of approvals |
| `Watches`, `WatchProgress`, `WatchRepository` | the leased scheduler |

Where the source updates rows in place there is a class whose methods are proved equal to specification
functions on values (`Rail.Claim`, `TravelBot.Turn`, `TurnProtocol.PgComplete`, `Watches.ClaimDue`, ...);
the lemmas about runs are about those functions, and those named `...Exactly` say what they compute on the
stored columns, without using them.

## What turned out not to hold as promised

- A dispute does not clear every order. The reservation never looks at an agent's access scope, the dispute
  does, so the purchase of an agent that another principal owns alone is reserved, paid and confirmed, and
  then judged unauthorised. `Disputes.VerdictExactly` gives the exact condition and
  `ForeignAgent.ForeignAgentLosesDispute` a whole run. With the biometric gate configured, starting a consent
  checks the scope (backend/src/modules/mandates/biometric-consent.ts:111-115), so such a mandate cannot be
  activated there; without the gate nothing else checks it.
- Over PostgreSQL a turn that leaves a conversation waiting on the same approval fails: `completeTurn` inserts
  the pending approval a second time under its primary key. The in-memory repository completes it.
  `ServiceOverPostgres.WaitingTurnFailsExactly` says for every reachable waiting conversation which messages do
  this: an unusable model output, or one that changes nothing and leaves the decision open, doubts something it
  mentions, or comes after the departure date has lapsed. `ServiceOverPostgres.RepeatedApprovalFails` is a run of
  five calls whose second message is a greeting; `TurnRefinement.ApprovalsExactly` is the same at repository level.
- An approval is not always settled by what was decided about it. A decision stays in the intent until another one
  replaces it, and a completion settles the pending approval by whatever decision the intent holds: one that the
  customer never answered, and that a change of the trip should cancel, is stored DENIED if an earlier approval was
  refused. `ServedConversations.ApprovalSettledExactly` gives the condition for every reachable waiting conversation
  and message, `ServedConversations.OldDecisionSettlesNewApproval` a run of four messages.
- A message repeated half a minute into its processing is handed out a second time over PostgreSQL while memory
  answers that it is in progress (`TurnRefinement.LeaseExactly`, `ServiceOverPostgres.LeaseHandsOutTwice`).
- The calendar test turns away real dates of the years 0 to 99, which `Date.UTC` reads as 1900 to 1999
  (`Calendar.CalendarTestExact`, `YearNinetyNineRejected`).
- A year inferred for 29 February need not have one. `Calendar.EarliestFutureOccurrence` gives the days on which it
  does; `Calendar.LeapDayMissed` two on which it does not, one of them a 29 February.
- No order sorts the timeline of some ledgers. `TimelineOrder.TimelineExactly` says which, and that every other
  timeline has one sorted order; `TimelineOrder.BackdatedNeverSorted` appends three rows that have none. Times that
  increase along each chain always sort (`TimelineOrder.TimelineOfRun`).
- A completed conversation can go back to collecting, or stay completed and forget its receipt; a selected offer
  can outlive the offers. `TravelLimits.CompletedStaysExactly`, `ReceiptKeptExactly` and
  `SelectionOutlivesOffersExactly` give the conditions on message, stored fields and clock for every reachable
  conversation; `GreetingReopens`, `NewBudgetForgetsReceipt` and `RoundTripLeavesSelection` are runs from a new one.
- backend/README.md:441 names the policy version `bound.verify.v1`; the code writes `bound.verify.v2`
  (backend/src/modules/verify/policy.ts:30). No property depends on it.

## Model

| member | source | states |
|---|---|---|
| HashChain.OrderAuditChain | backend/src/modules/ledger/hash-chain.ts:44-56 | the loop returns `OrderChain`; on rows with distinct hashes it succeeds if some arrangement links them, and then returns one that does |
| HashChain.OrderChainExact | backend/src/modules/ledger/hash-chain.ts:44-56 | success exactly when a permutation links root to tip; that permutation is unique, is the result, and is the result for every load order |
| HashChain.DuplicateHashesLoseARow | backend/src/modules/ledger/hash-chain.ts:44-56 | without distinct hashes a row can be returned twice and another dropped |
| HashChain.ValidateAuditChain | backend/src/modules/ledger/hash-chain.ts:59-78 | valid exactly when every event passes every check; otherwise the first failing index with the first failing reason |
| HashChain.ValidChainRebuilds | backend/src/modules/ledger/hash-chain.ts:44-78 | a validated chain has distinct hashes and its rows, in any order, rebuild to it |
| HashChain.TipFixesHistory | backend/src/modules/ledger/hash-chain.ts:15-37 | two validated chains with the same last event hash are the same events and payloads |
| HashChain.TipFixesRows | backend/src/modules/ledger/hash-chain.ts:44-78 | two tables that rebuild and validate to the same tip hold the same rows |
| HashChain.ValidChainExtends | backend/src/modules/ledger/repository.ts:75-82 | an event linked to the tip and hashed as the repository does keeps the chain valid |
| Ledger.TipOfValidChain | backend/src/modules/ledger/repository.ts:36-42 | on a validated chain the unique tip exists and is the last event |
| Ledger.AppendOutcome | backend/src/modules/ledger/repository.ts:47-97 | on a ledger written by `append` alone only a conflicting key or a taken event id can fail; otherwise exactly the next linked row is added |
| Ledger.AppendKeepsInv | backend/src/modules/ledger/repository.ts:47-97 | every append keeps every subject a valid chain, only ever adds rows, and touches no other subject |
| Ledger.EveryRunRebuilds | backend/src/modules/ledger/repository.ts:47-97 | after any run of appends, retries included, each subject's rows in any load order rebuild to append order, validate, and have their last event as unique tip |
| Ledger.RetryReturnsOriginal | backend/src/modules/ledger/repository.ts:57-74 | a retry with the same key, however much later, returns the original event and adds nothing if the evidence is the same, and is refused otherwise |
| Ledger.AuditRepository.Append | backend/src/modules/ledger/repository.ts:47-97 | the transaction, whatever order the rows are loaded in, is `Appended` |
| Timeline.ChainPositions.Position | backend/src/modules/ledger/service.ts:12-21 | the memoised recursion returns an event's index in its subject's chain and leaves a correct memo |
| Timeline.ComputeChainPositions | backend/src/modules/ledger/service.ts:9-26 | every event is ranked by its index in its subject's rebuilt chain, whatever the iteration order |
| Timeline.TransitiveExactly | backend/src/modules/ledger/service.ts:50-58 | the comparator is a strict total order exactly when no event of another subject falls between two causally inverted ones |
| Timeline.IncreasingTimesNeverStraddle | backend/src/modules/ledger/service.ts:50-58 | times that increase along each chain make it the plain order by time and id |
| Timeline.SortedKeepsChains | backend/src/modules/ledger/service.ts:44-64 | in any timeline sorted by the comparator every subject is listed in chain order; that it is the one outcome of the sort is `TimelineOrder.TimelineExactly` |
| TimelineOrder.TimelineExactly | backend/src/modules/ledger/service.ts:44-64 | the rows can be sorted exactly when nothing straddles; then any order without neighbours out of order is the one sorted order and keeps every chain |
| TimelineOrder.TimelineOfRun | backend/src/modules/ledger/repository.ts:117-143 | after any run of appends with increasing times per subject, the loaded rows sort to one timeline, by time and id, in append order |
| TimelineOrder.BackdatedNeverSorted | backend/src/modules/ledger/service.ts:50-58 | three appends whose rows no order sorts |
| Mandates.EveryActivationConsumedOneConsent | backend/src/modules/mandates/service.ts:314-391 | over every interleaving of drafts, consents, results, activations, revocations and expiries: one consumed consent per activated mandate, none for a draft |
| Mandates.InitialSystem | backend/src/modules/mandates/service.ts:158-245 | the empty tables, where every run starts, satisfy the invariant of these runs |
| Mandates.SettledForever | backend/src/modules/mandates/biometric-consent.ts:220-259 | consumed, rejected and expired consents, mandate terms and activation proofs never change again |
| Mandates.AuthorityNeverReturns | backend/src/modules/mandates/service.ts:393-462 | a revoked or expired mandate never changes again and has authority at no later time |
| Mandates.ActivateKeeps | backend/src/modules/mandates/biometric-consent.ts:261-298 | activating keeps: the consumed consent matches principal, agent and terms hash, and was verified and consumed before it expired |
| Mandates.MandateStore.ConsumeInTransaction | backend/src/modules/mandates/biometric-consent.ts:261-298 | consumes the matching consent or fails with the error the latest consent explains |
| Mandates.MandateStore.Activate | backend/src/modules/mandates/service.ts:314-391 | the transaction is `Activated`: mandate and consent move together or not at all |
| Mandates.MandateStore.Revoke | backend/src/modules/mandates/service.ts:393-462 | the transaction is `Revoked`, expiry persisted on the way |
| Mandates.MandateStore.ApplyResult | backend/src/modules/mandates/biometric-consent.ts:220-259 | the transaction is `ResultApplied`; what that records for each answer is `ConsentEvidence.AnswersRecorded` |
| ConsentEvidence.VerifiedByProvider | backend/src/modules/mandates/biometric-consent.ts:220-259 | in every run from empty tables a verified or consumed consent was verified by the provider's VERIFIED answer for that very consent, at exactly its time of verification, before its expiry |
| ConsentEvidence.ActivationsRestOnVerification | backend/src/modules/mandates/biometric-consent.ts:261-298 | so every activated mandate rests on such an answer for a consent on its terms, given before the activation and before the consent expired |
| ConsentEvidence.AnswersRecorded | backend/src/modules/mandates/biometric-consent.ts:71-79 | an answer for an open, unexpired consent leaves exactly that status, and a time of verification for VERIFIED alone; a settled consent keeps its row, an expired one expires |
| MandateAnswers.AuthorityExactly | backend/src/modules/mandates/service.ts:393-462 | in every reachable state a mandate has authority exactly while it is ACTIVE and inside its window; reading it changes at most an active one past its end to EXPIRED |
| MandateAnswers.DraftsExactly | backend/src/modules/mandates/service.ts:158-245 | a draft is written for a new key and id, a used key answers with its own mandate for the same terms and is refused for others |
| MandateAnswers.ActivatesExactly | backend/src/modules/mandates/service.ts:314-391 | a draft is activated exactly when its window is open, its key unused and a verified, unexpired, unconsumed consent of its principal and agent on its terms is there; every other request is refused for its reason, or replayed, and writes nothing |
| MandateAnswers.RevokesExactly | backend/src/modules/mandates/service.ts:393-462 | every revocation request by the stored status, window and keys |
| MandateAnswers.StartsExactly | backend/src/modules/mandates/biometric-consent.ts:97-180 | a consent is started anew exactly when the newest open one on the same terms is none that is preparing, pending or verified; otherwise that one answers |
| MandateAnswers.QueriesHaveAnswers | backend/src/modules/mandates/biometric-consent.ts:261-298 | in every reachable state the ordered queries of an activation and of a start have an answer |
| PaymentResults.WriteReadsBack | backend/src/modules/payments/store.ts:42-75 | a written row meets the table's shape check and reads back as the very result |
| PaymentResults.ResultsOnlyClimb | backend/src/modules/payments/store.ts:166-210 | whatever results are offered to one row in whatever order, it only climbs none, open, final |
| RailInvariant.PersistWritesExactly | backend/src/modules/payments/store.ts:516-561 | persisting rewrites the attempt's row exactly when the result climbs and nothing else fails; which rows take which results is `PaymentResolution.PersistAnswersExactly` |
| PaymentResolution.PersistAnswersExactly | backend/src/modules/payments/store.ts:166-190 | in every reachable state, on the row's columns: another authorization or amount is a mismatch, what the row shows already is repeated, a row without result takes any, a TIMEOUT or UNKNOWN takes a final one that names no other payment, everything else is a conflict; what is taken is recorded with its order unless a unique column is taken |
| PaymentResolution.PendingCanBeResolved | backend/src/modules/payments/store.ts:563-595 | no payment stays open for good: whenever an authorization is pending, reconciling its one attempt with an approval or a refusal of its amount ends in CONSUMED with its order or in FAILED, unless it names another payment or a unique column is taken |
| PaymentProcess.ResultsClimbInEveryRun | backend/src/modules/payments/store.ts:166-210 | over every interleaving a stored result only climbs, two writes at most; a final row and a known payment id never change |
| PaymentStores.PaymentStore.Claim | backend/src/modules/payments/store.ts:379-514 | the transaction is `Rail.Claim` on all eight tables; what that answers is `RailAnswers.ClaimsExactly` |
| RailAnswers.ClaimsExactly | backend/src/modules/payments/store.ts:379-514 | every claim of every reachable state by the stored columns: claimed exactly while reserved, unexpired and with its principal's credential; pending, finished, cancelled and unknown ones get their own answers |
| PaymentStores.PaymentStore.CreateApprovedOrder | backend/src/modules/payments/store.ts:307-376 | the order and its event are `Rail.ApprovedOrder` |
| PaymentStores.PaymentStore.WriteResult | backend/src/modules/payments/store.ts:534-560 | the writing half is `Rail.WriteResult`; a failure rolls every earlier write back |
| PaymentStores.PaymentStore.PersistResult | backend/src/modules/payments/store.ts:516-561 | the transaction is `Rail.Persist`; what that answers and writes is `PaymentResolution.PersistAnswersExactly` |
| PaymentProcess.ReconciliationUsesTheOneAttempt | backend/src/modules/payments/store.ts:563-595 | the attempt and key that reconciliation loads are the only ones the authorization ever has and that its executor calls use; its result lands in that row alone, and under another key nothing is written |
| PaymentStores.PaymentStore.PersistReconciledResult | backend/src/modules/payments/store.ts:585-595 | lookup, key check and write are `Rail.PersistReconciled`; what that resolves is `PaymentResolution.PendingCanBeResolved` |
| PaymentServices.PaymentService.Pay | backend/src/modules/payments/service.ts:53-70 | an undisturbed call is the run claim, execute, persist; a finished claim is answered without calling the executor |
| RailInvariant.LogEvidence | backend/src/modules/payments/store.ts:264-305 | a logged payload becomes its subject's first evidence of that type, and nothing else becomes evidence of anything |
| RailInvariant.ClaimKeeps | backend/src/modules/payments/store.ts:379-514 | a claim keeps rows and evidence in agreement; the inconsistent-row error cannot occur |
| RailInvariant.PersistKeeps | backend/src/modules/payments/store.ts:516-561 | a persisted result keeps them in agreement, and on success the attempt's row holds exactly that result |
| ReserveInvariant.RefreshedKeeps | backend/src/modules/verify/store.ts:327-358 | a passed expiry is persisted and exactly the stale reservations are cancelled, with their events |
| ReserveInvariant.ReserveKeeps | backend/src/modules/verify/store.ts:419-548 | a reservation, allowed, denied or failed, keeps rows and evidence in agreement |
| RailAnswers.ReservesExactly | backend/src/modules/verify/store.ts:419-548 | in every reachable state a reservation under an unused key is denied exactly when mandate, window, agent, checkout, credential, amounts, uses or input flag do not permit it; a permitted one is written, for the price, until the first of its expiries |
| RailAnswers.PermittedExactly | backend/src/modules/verify/policy.ts:315-341 | judging before or after the stale reservations are cancelled gives the same decision on the stored columns |
| RailAnswers.StaleCancelledExactly | backend/src/modules/verify/store.ts:327-358 | exactly the mandate's reservations left unclaimed past their expiry are cancelled, and nothing else changes but a passed window |
| RailAnswers.ReservationReplays | backend/src/modules/verify/store.ts:134-165 | a used key answers with its authorization for the same request, is refused for another, and nothing is written |
| Capacity.ReserveKeepsLimits | backend/src/modules/verify/policy.ts:315-341 | an allowed reservation keeps reserved, pending and consumed amounts and counts within the mandate's limits |
| Capacity.MovesKeepLimits | backend/src/modules/verify/store.ts:80-103 | every other change of authorizations keeps them |
| Capacity.OrdersWithinLimits | backend/src/modules/payments/store.ts:307-376 | confirmed orders stay within the same limits |
| PaymentProcess.RunKeeps | backend/src/modules/payments/service.ts:53-70 | over every interleaving: rows agree, limits hold, calls are backed by their attempt, and attempts, orders and final statuses are never rewritten |
| PaymentProcess.ExecutorCalledAtMostOnce | backend/src/modules/payments/service.ts:53-70 | the executor is called at most once per authorization, with the one attempt and provider key that its row ever has |
| PaymentProcess.TablesAgree | backend/src/modules/payments/store.ts:77-98 | status, payment result and order agree in every reachable state, both ways for each status; the guard against inconsistency never fires |
| PaymentProcess.AttemptsStartInTime | backend/src/modules/payments/store.ts:379-514 | in every run an attempt starts only under a mandate that allows the merchant and the amount, and before reservation, checkout and mandate expire |
| PaymentProcess.LimitsHold | backend/src/modules/verify/store.ts:80-103 | conservation over whole runs, orders included; a cancelled reservation is never claimed |
| Disputes.ChecksOfOrder | backend/src/modules/disputes/service.ts:111-172 | in every reachable state all checks but the agent's scope hold of every order, for every way its rows join |
| Disputes.VerdictExactly | backend/src/modules/disputes/adjudication.ts:18-35 | all three fields: AUTHORIZED, the principal liable and no chargeback exactly when the agent's row is public or belongs to the mandate's principal; otherwise UNAUTHORIZED, the merchant liable and a chargeback recorded |
| Disputes.AuthorizedRestsOnEvidence | backend/src/modules/disputes/service.ts:111-172 | in any tables at all AUTHORIZED, a liable principal or no chargeback means a linked, validated chain with the four purchase events and payloads naming these very rows |
| DisputeProcess.EveryOrderIsDefensible | backend/src/modules/disputes/service.ts:181-208 | any order of any run, disputed at any later time, even after revocation or expiry, is found, and verdict, liable party and chargeback follow the agent's scope alone |
| DisputeProcess.OpenIsSound | backend/src/modules/disputes/service.ts:181-208 | reading the evidence never fails in a reachable state, and the prepared checks are those of an existing order of that principal, the agent check being its scope at that moment |
| DisputeProcess.DisputesFiledOnce | backend/src/modules/disputes/service.ts:213-296 | over every interleaving a filed dispute never changes and is the only one of its receipt; its three fields follow its agent check |
| DisputeProcess.ReopeningIsIdempotent | backend/src/modules/disputes/service.ts:316-325 | its key with its data answers with it, with other data is refused, its receipt under another key is refused, and nothing is written |
| Liability.LiabilityExactly | backend/src/modules/disputes/adjudication.ts:18-35 | over every interleaving a filed dispute holds the principal liable without a chargeback exactly when the opening it was filed by found the agent's row covering the principal; otherwise the merchant with one |
| Liability.OpensExactly | backend/src/modules/disputes/service.ts:181-208 | in every reachable state an opening is replayed or refused by its key, and otherwise evaluated exactly when the receipt is of an order of that principal |
| Liability.CommitsExactly | backend/src/modules/disputes/service.ts:213-296 | the transaction files the dispute, replays or refuses it, by the columns of the disputes table |
| Liability.OrdersStayUnique | backend/src/modules/payments/store.ts:307-376 | over every run no two orders share a receipt, a checkout, a payment, an id or a key |
| DisputeStores.PurchaseDisputeService.Commit | backend/src/modules/disputes/service.ts:213-296 | the transaction is `DisputeProcess.Commit`, a failing append undoing the dispute and its earlier events; what it files is `Liability.CommitsExactly` and `Liability.LiabilityExactly` |
| ForeignAgent.ForeignAgentLosesDispute | backend/src/modules/disputes/service.ts:149-155 | a concrete run from mandate to order whose dispute is UNAUTHORIZED with the merchant liable and a chargeback recorded |
| Calendar.DecodesBack | backend/src/modules/travelbot/policy.ts:354-358 | a real date encoded as a day number decodes to itself |
| Calendar.EpochDay | backend/src/modules/travelbot/policy.ts:148-161 | the instants around the epoch fall on 31 December 1969, 1 and 2 January 1970, to the millisecond |
| Calendar.CalendarTestExact | backend/src/modules/travelbot/policy.ts:354-358 | the round-trip test accepts exactly the real Gregorian dates from year 100 on |
| Calendar.YearNinetyNineRejected | backend/src/modules/travelbot/policy.ts:354-358 | a real date it turns away |
| Calendar.AcceptedExactly | backend/src/modules/travelbot/policy.ts:342-367 | accepted departures are exactly the real days strictly after today and the months not before the current one |
| Calendar.InferenceExact | backend/src/modules/travelbot/policy.ts:140-143 | the inferred year gives the earliest future occurrence whenever it gives a date at all |
| Calendar.EarliestFutureOccurrence | backend/src/modules/travelbot/policy.ts:166-188 | so it does for every day that all years have; for 29 February exactly when today's date says that the year it will pick is a leap year |
| Calendar.LeapDayMissed | backend/src/modules/travelbot/policy.ts:166-188 | two clocks at which the year inferred for 29 February has none |
| Calendar.RelativeDatesAccepted | backend/src/modules/travelbot/policy.ts:148-161 | tomorrow, this month and next month are what they say, across month and year ends, and pass the departure check |
| TravelPolicy.ApplyConversationConventions | backend/src/modules/travelbot/policy.ts:205-275 | the field-filling is `WithConventions`: what it fills, what it never overwrites, which doubts it settles |
| TravelPolicy.MergeFields | backend/src/modules/travelbot/policy.ts:326-331 | the loop merges exactly the undoubted proposed fields and lists exactly the changed ones |
| TravelPolicy.RejectFields | backend/src/modules/travelbot/policy.ts:334-367 | equal airports drop the destination, a date that is none or has passed is dropped, both are reported |
| TravelPolicy.ApplyTravelIntentProposal | backend/src/modules/travelbot/policy.ts:317-378 | the whole application is `Apply` |
| TravelPolicy.KnownFieldsImmune | backend/src/modules/travelbot/policy.ts:212-229 | a known field that is not mentioned is neither refilled nor doubted; an unknown party or cabin gets its default |
| TravelPolicy.PassesUntouched | backend/src/modules/travelbot/policy.ts:317-378 | against a complete intent a proposal passes untouched exactly when it repeats what is known, the airports differ and the date has not lapsed |
| TravelPolicy.DoubtedFieldsStay | backend/src/modules/travelbot/policy.ts:323-331 | a doubted field is reported and never takes the proposed value |
| TravelPolicy.ReadyIntent | backend/src/modules/travelbot/policy.ts:334-367 | nothing invalid means different airports and a date ahead |
| TravelFields.ConventionsExactly | backend/src/modules/travelbot/policy.ts:205-275 | field by field what the conventions say: a known field stays as the model left it, an unknown one is what the model or the text says or its default, and which doubts remain |
| TravelFields.AppliedExactly | backend/src/modules/travelbot/policy.ts:317-378 | field by field what an application leaves, reports and counts as changed |
| TravelFields.SelectionExactly | backend/src/modules/travelbot/policy.ts:369-378 | a change forgets a selected offer, otherwise one that is proposed replaces it; a confirmation is never touched |
| TravelBotServices.TravelBotService.PostMessage | backend/src/modules/travelbot/service.ts:197-592 | the branches that reassign state, offers and operation are `TravelBot.Turn`; what that leaves is `Decisions.DenialExactly`, `ConfirmationExactly` and `UndecidedTurn` for a waiting conversation, `OfferChoice.SearchingExactly` for others |
| TravelBotServices.TravelBotService.PrepareOfferApproval | backend/src/modules/travelbot/service.ts:260-349 | checkout, authority and approval are `TravelBot.PrepareApproval` |
| TravelBotServices.TravelBotService.ConfirmPurchase | backend/src/modules/travelbot/service.ts:419-492 | the confirming branch is `TravelBot.Confirms` |
| TravelBotServices.TravelBotService.Search | backend/src/modules/travelbot/service.ts:522-562 | the searching branch is `TravelBot.Searches` |
| TravelBot.PurchaseToolExactly | backend/src/modules/travelbot/application-tools.ts:200-283 | it verifies only the held checkout under the held active mandate, pays only what that verification allowed, and reports a purchase exactly when that payment is approved with a receipt |
| TravelBot.SelectPreferred | backend/src/modules/travelbot/service.ts:78-84 | an offer that no other precedes by price, departure and name |
| TravelBot.FindOffer | backend/src/modules/travelbot/application-tools.ts:205 | the selected offer if it is there, none only if it is not |
| TravelRuns.TurnKeeps | backend/src/modules/travelbot/service.ts:237-562 | every turn keeps the waiting states well formed, and everything it does outside is covered by the approval persisted before it |
| TravelRuns.PurchasesAreBound | backend/src/modules/travelbot/service.ts:379-475 | over every conversation each purchase request carries the fields, offer, checkout hash, amount and mandate persisted with the latest approval, and verification gets that checkout |
| TravelRuns.PurchaseExactly | backend/src/modules/travelbot/service.ts:242-475 | exactly when a turn requests a purchase; any changed, doubted or lapsed field diverts it |
| Decisions.DenialExactly | backend/src/modules/travelbot/service.ts:384-418 | a refusal in any reachable waiting conversation: nothing is done outside; stored, the conversation collects without offers, selection or operation and remembers id, merchant, hash, amount and mandate of that approval as DENIED |
| Decisions.ConfirmationExactly | backend/src/modules/travelbot/service.ts:419-492 | a confirmation, for all answers of the ports: when it is stored, and the conversation it leaves |
| Decisions.UndecidedTurn | backend/src/modules/travelbot/service.ts:242-377 | every other message to a waiting conversation: what it leaves, whatever it says of the approval |
| Decisions.DecisionsAreReal | backend/src/modules/travelbot/service.ts:379-475 | over every conversation a remembered decision was said, plainly, of the very approval pending then; one remembered as CONFIRMED had its purchase requested |
| TravelRuns.NoPurchaseWithoutNewApproval | backend/src/modules/travelbot/service.ts:384-492 | once a conversation is not waiting, whatever the reason, a purchase needs an approval persisted later |
| TravelRuns.ApprovalIsForTheBestOffer | backend/src/modules/travelbot/service.ts:522-554 | a persisted approval is for the preferred fitting offer found, with the checkout and mandate that were answered |
| OfferChoice.SearchingExactly | backend/src/modules/travelbot/service.ts:522-562 | every message of every reachable conversation that neither waits nor is completed, where it does not stop: the state, offers, selection and operation that search, checkout and authority leave, the offer being one that fits and that none betters |
| OfferChoice.ChoosingExactly | backend/src/modules/travelbot/service.ts:494-530 | every message to a conversation that shows offers, with any tools: it goes on asking, forgets a choice that is not shown, or takes the one that is to checkout and approval |
| OfferChoice.WithoutCheckoutTools | backend/src/modules/travelbot/service.ts:522-562 | without checkout tools the best fitting offer is shown for a choice and no approval is made |
| TravelRuns.CompletedMeansPaid | backend/src/modules/travelbot/service.ts:460-490 | a conversation becomes completed only by an approved payment of the bound checkout, keeping its authorization and receipt |
| TravelRuns.ToolGuardsHold | backend/src/modules/travelbot/application-tools.ts:87-214 | the guards of the four application tools never throw when the service calls them |
| OfferChoice.WithoutPurchaseTool | backend/src/modules/travelbot/service.ts:419-475 | without the purchase tool no turn activates, requests, verifies or pays |
| OfferChoice.GuardsExactly | backend/src/modules/travelbot/application-tools.ts:87-214 | on the columns exactly what the guards of checkout, activation and purchase let pass, whoever calls |
| TravelRuns.WaitingIsWellFormed | backend/src/modules/travelbot/service.ts:505-562 | every reachable waiting conversation has a complete trip, one selected fitting offer within budget and a pending approval; none waits for an offer choice |
| TravelLimits.CompletedStaysExactly | backend/src/modules/travelbot/service.ts:354-377 | a reachable completed conversation leaves that state exactly when a stored message doubts something it mentions, or makes the airports equal, or comes after the date; when its operation survives |
| TravelLimits.ReceiptKeptExactly | backend/src/modules/travelbot/service.ts:256-258 | state and receipt both survive exactly when the message repeats what is known and the date has not lapsed |
| TravelLimits.GreetingReopens | backend/src/modules/travelbot/service.ts:354-361 | a run from a new conversation: bought, then reopened by a greeting after the date |
| TravelLimits.NewBudgetForgetsReceipt | backend/src/modules/travelbot/service.ts:256-258 | a run from a new conversation: bought, then its receipt forgotten over a new budget |
| TravelLimits.SelectionOutlivesOffersExactly | backend/src/modules/travelbot/service.ts:242-258 | from a reachable waiting conversation a turn leaves a selected offer without offers exactly when a stored message changes something and stops at the merged intent |
| TravelLimits.SelectionOutlivesOffersElsewhere | backend/src/modules/travelbot/service.ts:354-562 | the same for every other reachable state |
| TravelLimits.RoundTripLeavesSelection | backend/src/modules/travelbot/service.ts:242-258 | a run from a new conversation that leaves one |
| ApprovalToPayment.OnePaymentPerApproval | backend/src/modules/travelbot/application-tools.ts:239-268 | whatever the conversation retries and the rail does meanwhile: all payments under one approval are of one authorization, for the approved checkout, mandate and amount, with one executor call at most and an order of that amount |
| ApprovalToPayment.CompletedHasOrder | backend/src/modules/travelbot/service.ts:460-490 | a conversation that becomes completed has, for good, an order of the approved amount under the approved mandate for the authorization it holds |
| PurchaseRun.ConversationBuys | backend/src/modules/travelbot/service.ts:419-492 | a run of both from nothing: a request, a confirmation, reservation, claim, execution and result, and the conversation is completed with its order |
| ApprovalToPayment.ReserveKeyed | backend/src/modules/verify/store.ts:134-165 | a reservation answers with a row under its own key for its own request, and keys stay unique |
| TurnInvariant.PgKeeps | backend/src/modules/travelbot/postgres-repository.ts:202-512 | every call, stale or repeated, keeps the protocol invariant and finds no corrupt rows |
| TurnInvariant.ProtocolInvariant | backend/src/modules/travelbot/postgres-repository.ts:202-512 | under any calls: no run completes twice, running is active, messages and events are gap-free, one snapshot per version, versions count completed turns, one pending approval at most |
| TurnAnswers.RepeatedClaim | backend/src/modules/travelbot/postgres-repository.ts:202-267 | after any calls: replayed, refused, in progress, handed out again or retried, by the columns of the key's input, run and conversation, and what each writes |
| TurnAnswers.NewClaimed | backend/src/modules/travelbot/postgres-repository.ts:269-319 | a new message is claimed exactly when its conversation is there and idle, as its next message |
| TurnAnswers.CompletionExactly | backend/src/modules/travelbot/postgres-repository.ts:321-452 | only the active run of a conversation completes; message, version, snapshot and events are stored, the run is completed, and only a taken approval id stands in the way |
| TurnAnswers.FailureExactly | backend/src/modules/travelbot/postgres-repository.ts:494-512 | a turn given up frees its conversation and marks its run, and changes nothing else |
| ApprovalRows.RowsMove | backend/src/modules/travelbot/postgres-repository.ts:367-398 | every call: an approval row leaves PENDING only in a completion with an operation of its own conversation: CONSUMED, DENIED or CANCELLED exactly as the completed intent holds a confirmation, a refusal or none |
| ApprovalRows.SettledOnce | backend/src/modules/travelbot/postgres-repository.ts:367-398 | after any calls a settled row was settled by one such completion |
| ApprovalRows.SettledForever | backend/src/modules/travelbot/postgres-repository.ts:321-452 | and it never changes again |
| TurnRefinement.PostgresRefinesInMemory | backend/src/modules/travelbot/in-memory-repository.ts:78-161 | both repositories give the same outcome and view for every call of a disciplined run |
| TurnRefinement.LeaseExactly | backend/src/modules/travelbot/postgres-repository.ts:227-243 | for a running turn they agree exactly while the lease lasts |
| TurnRefinement.ApprovalsExactly | backend/src/modules/travelbot/postgres-repository.ts:367-398 | for a completion they agree exactly when the approval left pending is new |
| TurnRefinement.WaitingCannotContinue | backend/src/modules/travelbot/postgres-repository.ts:381-397 | completing with the approval that is still pending always fails and writes nothing |
| ServiceOverPostgres.WaitingTurnFailsExactly | backend/src/modules/travelbot/service.ts:207-227 | for every reachable waiting conversation exactly which messages reach completion and fail there; every other turn that reaches it is stored |
| ServiceOverPostgres.RepeatedApprovalFails | backend/src/modules/travelbot/postgres-repository.ts:367-398 | five calls from empty tables whose last fails over PostgreSQL and completes in memory |
| ServiceOverPostgres.LeaseHandsOutTwice | backend/src/modules/travelbot/postgres-repository.ts:227-243 | three calls whose last is claimed over PostgreSQL and in progress in memory |
| ServedConversations.ServedExactly | backend/src/modules/travelbot/service.ts:197-235 | claim, turn and completion leave the conversation idle, with the turn's result where it could be stored and as it was where not |
| ServedConversations.ApprovalSettledExactly | backend/src/modules/travelbot/postgres-repository.ts:367-398 | the pending approval of every reachable waiting conversation, for every stored message: CONSUMED, DENIED or CANCELLED exactly as the message decides or, if it does not, as the conversation remembers deciding before |
| ServedConversations.OldDecisionSettlesNewApproval | backend/src/modules/travelbot/postgres-repository.ts:367-377 | four messages served from empty tables: the second approval is stored DENIED though the customer only refused the first |
| TurnRepositories.InMemoryTravelBotRepository.Discard | backend/src/modules/travelbot/in-memory-repository.ts:64-76 | is `MemDiscard` |
| TurnRepositories.InMemoryTravelBotRepository.ClaimTurn | backend/src/modules/travelbot/in-memory-repository.ts:78-128 | is `MemClaim` |
| TurnRepositories.InMemoryTravelBotRepository.CompleteTurn | backend/src/modules/travelbot/in-memory-repository.ts:130-153 | completes the conversation whose active run it is, or changes nothing |
| TurnRepositories.InMemoryTravelBotRepository.FailTurn | backend/src/modules/travelbot/in-memory-repository.ts:155-161 | frees that conversation and notes on the run's keys whether it may be retried |
| TurnRepositories.PostgresTravelBotRepository.ConversationFrom | backend/src/modules/travelbot/postgres-repository.ts:42-92 | the row with the approval that is still pending, if any |
| TurnRepositories.PostgresTravelBotRepository.Discard | backend/src/modules/travelbot/postgres-repository.ts:183-200 | is `PgDiscard` |
| TurnRepositories.PostgresTravelBotRepository.ClaimTurn | backend/src/modules/travelbot/postgres-repository.ts:202-319 | is `PgClaim`, lease hand-out included |
| TurnRepositories.PostgresTravelBotRepository.WriteApprovals | backend/src/modules/travelbot/postgres-repository.ts:367-398 | is `ApprovalsAfter`, or fails on a taken key and changes nothing; what rows are settled as is `ApprovalRows.RowsMove` |
| TurnRepositories.PostgresTravelBotRepository.CompleteTurn | backend/src/modules/travelbot/postgres-repository.ts:321-452 | is `PgComplete`; what that stores is `TurnAnswers.CompletionExactly` and `ApprovalRows.RowsMove` |
| TurnRepositories.PostgresTravelBotRepository.FailTurn | backend/src/modules/travelbot/postgres-repository.ts:494-512 | is `PgFail` |
| Watches.NextKeeps | backend/src/modules/travelbot/postgres-watch-repository.ts:114-330 | every transaction keeps the next-check and lease shape of each status |
| Watches.FinishingKeeps | backend/src/modules/travelbot/postgres-watch-repository.ts:194-312 | no transaction ever meets an existing check row for its attempt |
| Watches.OneCheckPerAttempt | backend/src/modules/travelbot/postgres-watch-repository.ts:221-229 | over every run, stale workers included, one check row at most per watch and attempt |
| Watches.ClaimsAreLive | backend/src/modules/travelbot/postgres-watch-repository.ts:155-192 | a claim hands out only a due, unexpired watch and opens a new attempt that has no check row |
| Watches.FinishedForever | backend/src/modules/travelbot/postgres-watch-repository.ts:114-330 | completed, expired and cancelled watches never change again |
| Watches.ClaimsALeaseApart | backend/src/modules/travelbot/postgres-watch-repository.ts:155-192 | two claims of a watch with no finishing step between are at least 60 seconds apart |
| Watches.DrainsExactly | backend/src/modules/travelbot/postgres-watch-repository.ts:155-192 | repeated claims at a fixed time claim every due watch exactly once and then nothing |
| Watches.DrainEnds | backend/src/modules/travelbot/postgres-watch-repository.ts:155-192 | and as many claims as watches are due do drain them |
| WatchProgress.AnswersExactly | backend/src/modules/travelbot/postgres-watch-repository.ts:114-330 | in every reachable state the status, and for a hurried check the clock, decides which requests are granted; repetitions write nothing |
| WatchProgress.EffectsExactly | backend/src/modules/travelbot/postgres-watch-repository.ts:114-330 | what a granted request leaves in the watch's columns and the check rows |
| WatchProgress.ClaimsExactly | backend/src/modules/travelbot/postgres-watch-repository.ts:155-192 | in every reachable state a claim takes a waiting watch that nobody holds, as urgent as any, for a minute; finds none exactly when none waits; expires exactly the others past their end |
| WatchProgress.VersionCounts | backend/src/modules/travelbot/postgres-watch-repository.ts:114-330 | over every run a watch's version counts its rewrites |
| WatchProgress.ChecksTellTheStory | backend/src/modules/travelbot/postgres-watch-repository.ts:194-312 | over every run failures, last outcome, completion and failure of a watch agree with its own check rows |
| WatchRepositories.PostgresTravelWatchRepository.Activate | backend/src/modules/travelbot/postgres-watch-repository.ts:114-132 | is `Watches.Activate` |
| WatchRepositories.PostgresTravelWatchRepository.Expedite | backend/src/modules/travelbot/postgres-watch-repository.ts:134-153 | is `Watches.Expedite` |
| WatchRepositories.PostgresTravelWatchRepository.ClaimDue | backend/src/modules/travelbot/postgres-watch-repository.ts:155-192 | expires what has passed, then claims a first due row that nobody holds |
| WatchRepositories.PostgresTravelWatchRepository.Reschedule | backend/src/modules/travelbot/postgres-watch-repository.ts:194-232 | is `Watches.Reschedule`, undone if the check row cannot be inserted |
| WatchRepositories.PostgresTravelWatchRepository.StagePurchase | backend/src/modules/travelbot/postgres-watch-repository.ts:234-250 | is `Watches.StagePurchase` |
| WatchRepositories.PostgresTravelWatchRepository.CompletePurchase | backend/src/modules/travelbot/postgres-watch-repository.ts:252-282 | is `Watches.CompletePurchase`, replay included |
| WatchRepositories.PostgresTravelWatchRepository.FailCheck | backend/src/modules/travelbot/postgres-watch-repository.ts:284-312 | is `Watches.FailCheck` |
| WatchRepositories.PostgresTravelWatchRepository.Cancel | backend/src/modules/travelbot/postgres-watch-repository.ts:314-330 | is `Watches.Cancel` |

## Left out

- HTTP routes, sessions, environment parsing, migrations and the frontend: plumbing around the core.
- Adapters to providers: their results are arbitrary inputs. Signatures, encryption and canonical JSON are not computed.
- Schema validation: identifiers, hashes and payloads are taken as already parsed; a payload that does not parse reads as missing.
- Parts of the verify policy that no property here uses (request proof, agent key, flight scope, nonce, human approval) are one input flag; a request and its proof have one hash. The audit event of a denied decision is a step of any other event.
- Audit events that the mandate and consent services append are steps of any other event; what they say is not modelled.
- Access scope and eligibility checks of `createDraft` and of starting a consent are not modelled; the dispute theorems hold whatever they decide.
- Payments and orders are keyed by their authorization id, user messages and runs by their idempotency key, all unique columns; violations of different unique constraints are one error.
- Stored and incoming payment results are compared as values with instants, not as canonical text.
- PaymentServices.PaymentService.Pay: states one undisturbed call; concurrent and interrupted calls are the steps of `PaymentProcess`.
- Mandates.MandateStore.Activate: signing is an input, and activation without the biometric gate is not modelled.
- Money in integers: the overflow guards on sums and products beyond 2^53 are not modelled.
- Reading dates, airports and budgets off message text, assistant wording, redaction, telemetry and recorded tool executions.
- TravelRuns: whole conversations are proved with checkout and purchase tools configured; `TravelBot.Turn` also models them missing (`OfferChoice.WithoutCheckoutTools`, `ChoosingExactly`, `WithoutPurchaseTool`).
- ApprovalToPayment: one conversation; every other conversation, agent and worker is any step of the rail. A tool's answer may be lost, but an allowed verification and an approved payment are ones that the rail really gave.
- Correlation ids of assistant messages: memory copies the last message's, PostgreSQL the run's; neither is modelled, nor are message texts.
- Creation of a conversation under a reused key: the repositories differ in the conflict they report; creation is modelled with new ids only.
- TurnRepositories.InMemoryTravelBotRepository.CompleteTurn: objects shared by reference are modelled as values replaced in maps.
- Watches created through the service start waiting for liveness; creation under a reused key, the nearest miss and the observation times of checks are not modelled, nor is the service's in-memory repository.
- Row locks appear in the scheduler as a set of locked rows; other isolation details are not modelled.
