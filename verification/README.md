# Verification of the dispatch, settlement and realtime core

A Dafny model of the parts of the platform whose correctness rests on several tables, several
commands or many interleaved requests at once. `dafny verify dfyconfig.toml` checks all of it.

## What is modelled

**Trips, Deliveries and Driver work states.** `Tables` holds the rows, `Events` the changes that
transactions make to them, and `Commands` each transaction as a function from the database before it
to the database after it and how it ended: `Ok` and `Declined` are returned and so committed,
`Thrown` is an exception and so rolled back. `Repositories`, `Bookings` and `Parcels` are the
repositories as classes: each method runs the transaction statement by statement on its own copy of
the tables, with every row-count guard, loop and early exit of the original, and commits by assigning
the copy back. Every method is proved to compute exactly what `Commands` says, in any database that
satisfies the invariant; the guards in the middle of a transaction, the sweep's exits for inconsistent
rows and the sweep's catch of a domain error are therefore never taken.

`Commitments` states the coupled invariant with an index that no table stores (offers by attempt, the
one assignment, the one proof); `CommitmentSteps`, `Journals`, `Settlement`, `Steps`, `History`,
`CommandProofs`, `CommandSafety`, `MatchingSafety` and `Retries` prove that every event and every
command keeps it and undoes nothing; `Runs` puts fifteen commands together into arbitrary runs. What
it means for users is in `Exclusivity`, `Schema`, `Chronicles`, `SelfLoops`, `Accounts`, `Idempotency`,
`Guards` and `Rematching`, with concrete runs in `Scenarios`.

What one command does is stated a second time, independently of how `Commands` computes it: `Searches`
says whom a search asks in distances and ages, `Outcomes` and `DeliveryOutcomes` give every row that an
answered command leaves behind, `Refusals` when each code is thrown, `Sweeps` what a whole sweep achieves.
`Locking` models the same transactions as interleaved sequences of row locks, and `LockedWrites` shows
that what a transaction changes it has locked.

**Fares.** `Fare` computes them exactly; `Doubles` and `FloatFares` show that the program's double
arithmetic computes the same, and `FareBounds` how far rounding up moves a fare.

**Realtime, limiters and sessions.** `Relay`, `PageCuts`, `CutOffs`, `ClientMerge`, `RateLimiting`,
`LocationLimiting` and `Sessions`.

## Where the code and its documents differ

- ADR 0006 says that each expired Offer advances the Trip's version. An acceptance or rejection that
  comes too late commits the expiry without doing so. The Trip is then MATCHING with nobody being
  asked, and starting the match again announces a created offer at a version that already has one,
  which the outbox's unique constraint refuses. `Rematching.RetryFailsIff` says exactly when, and
  `Rematching.StrandedForever` that a Trip whose first offer was answered late never gets a Driver.
- ADR 0004 says that presenting any non-active refresh token revokes the family. The code revokes only
  for a rotated one. `Sessions.InactiveTokenEndsFamily` shows that the effect is nevertheless the same.
- An idempotency key can be behind two executions that both change the database:
  `Scenarios.KeyUsedTwice` is such a run, and `Guards.KeyChangesTwiceIff` says exactly when two do, in
  terms of the rows that they find.
- The gateway's branch for the Drivers named by a cancelled Trip is never reached, because the same
  event ends every subscription first.
- A page of a hundred outbox rows can end inside a transaction. If the terminal row of an aggregate
  comes before the cut and another row after it, a subscriber never receives the other:
  `PageCuts.SplitBatchLoses` is a run that ends in such an outbox, and `Relay.PollingReceivesIff` says
  that nothing else loses a row.
- The screen does not always show the newest Driver location. `ClientMerge.LatestIsUnbeatenIff` and
  `ClientMerge.LatestIsNewestIff` say exactly when it does: a first location without a readable capture
  time is never replaced, and neither is the first of a capture time without a readable time of receipt
  by another of that capture time.

## Model

| member | source | states |
|---|---|---|
| Repositories.DispatchRepository.SetWorkState | apps/api/src/dispatch/dispatch.repository.ts:171-231 | the transaction keeps the invariant and is the command SetWork: only an eligible Driver who is offline or available changes, and only the Trip column is cleared |
| Repositories.DispatchRepository.StartMatching | apps/api/src/dispatch/dispatch.repository.ts:293-444 | the statements compute the command StartTrip: replay, REQUESTED to MATCHING, an existing pending offer answered again, else the search, else exhaustion |
| Repositories.DispatchRepository.AcceptOffer | apps/api/src/dispatch/dispatch.repository.ts:862-1044 | the statements compute AcceptTrip; the late path commits the expiry only, no row-count guard fails, and the branch for an offer already accepted under the key is always preceded by its receipt |
| Repositories.DispatchRepository.RejectOffer | apps/api/src/dispatch/dispatch.repository.ts:446-662 | the statements compute RejectTrip: a version of its own, then another Driver or exhaustion, in one transaction |
| Repositories.DispatchRepository.ExpireDueOffer | apps/api/src/dispatch/dispatch.repository.ts:690-860 | the statements compute SweepTrip; the exits "leave for reconciliation", "not matching" and "may not retry" are never taken |
| Repositories.DispatchRepository.ExpireDueOffers | apps/api/src/dispatch/dispatch.repository.ts:664-688 | a sweep is the run of its rounds with the count of those that expired, ended early only by an error that is no domain error |
| Repositories.DispatchRepository.TransitionAssignedTrip | apps/api/src/dispatch/dispatch.repository.ts:1046-1303 | the statements compute DriveTrip for the three actions, the metered completion and its rejections included |
| Repositories.ReserveNextOffer | apps/api/src/dispatch/dispatch.repository.ts:1391-1525 | the loop offers to the first ranked candidate whose claim succeeds, leaves no reservation of a skipped one, and fails only on the ranking's input or the outbox's unique constraint |
| Repositories.NextAttempt | apps/api/src/dispatch/dispatch.repository.ts:1527-1537 | one more than the greatest attempt number, or 1 |
| Bookings.TripRepository.CreateTrip | apps/api/src/trip/trip.repository.ts:88-247 | the statements compute CreateTrip; the EXPIRED update of a late quote is rolled back with the exception |
| Bookings.TripRepository.CancelTrip | apps/api/src/trip/trip.repository.ts:378-617 | the statements compute CancelTrip: the pending offer is revoked or the assignment dropped, the Driver freed, and the event names the Driver concerned |
| Bookings.RevokeOffers | apps/api/src/trip/trip.repository.ts:427-476 | the loop revokes the one pending offer, if there is one, and collects its Driver; its guard never fails |
| Bookings.PaymentRepository.Capture | apps/api/src/payment/payment.repository.ts:52-189 | the statements compute Capture: an attempt of the given status is added exactly when the latest has failed or there is none |
| Parcels.DeliveryRepository.CreateDelivery | apps/api/src/delivery/delivery.repository.ts:48-153 | the statements compute CreateDelivery |
| Parcels.DeliveryRepository.StartMatching | apps/api/src/delivery/delivery.repository.ts:290-405 | the statements compute StartDelivery: one offer, or NO_DRIVER_AVAILABLE |
| Parcels.DeliveryRepository.AcceptOffer | apps/api/src/delivery/delivery.repository.ts:407-504 | the statements compute AcceptDelivery; a late acceptance leaves no trace, and a repeated one is answered from the live rows |
| Parcels.DeliveryRepository.TransitionAssignedDelivery | apps/api/src/delivery/delivery.repository.ts:506-662 | the statements compute DriveDelivery: custody is recorded once, completion adds the proof and ends the assignment |
| Parcels.DeliveryRepository.ExpireDueOffer | apps/api/src/delivery/delivery.repository.ts:670-718 | the statements compute SweepDelivery: expiry and NO_DRIVER_AVAILABLE together |
| Parcels.DeliveryRepository.ExpireDueOffers | apps/api/src/delivery/delivery.repository.ts:664-720 | a sweep is the run of its rounds with the count of those that expired |
| Parcels.ReserveOffer | apps/api/src/delivery/delivery.repository.ts:815-866 | the loop offers to the first candidate whose claim succeeds and leaves nothing of the others |
| Outcomes.WorkOutcome | apps/api/src/dispatch/dispatch.repository.ts:171-231 | a Driver goes on duty exactly if eligible and without a commitment, and off duty exactly without one; nothing else changes |
| Outcomes.QuoteOutcome | apps/api/src/pricing/pricing.repository.ts:81-155 | a quote is given exactly when its estimate has a price, and stores that price with the terms |
| Outcomes.CreateTripOutcome | apps/api/src/trip/trip.repository.ts:116-232 | a Trip at version 0 takes over the terms of its quote, which is consumed; log and outbox get their first rows |
| Outcomes.StartTripOutcome | apps/api/src/dispatch/dispatch.repository.ts:325-444 | a match that starts moves one version on and ends with the best Driver asked for twenty seconds, or given up; started again it changes nothing while an offer is pending |
| Outcomes.AcceptTripOutcome | apps/api/src/dispatch/dispatch.repository.ts:945-1031 | the five rows of an acceptance, the log row and the event |
| Outcomes.LateOutcome | apps/api/src/dispatch/dispatch.repository.ts:945-956 | an answer that comes too late ends its offer, reservation and commitment and nothing else |
| Outcomes.RejectOutcome | apps/api/src/dispatch/dispatch.repository.ts:543-660 | the offer ended, the Trip a version on, the event that names the Driver, and then a search without that Driver |
| Outcomes.SweepOutcome | apps/api/src/dispatch/dispatch.repository.ts:752-857 | a sweep acts exactly on a pending, due Trip offer that it gets hold of, and then searches without its Driver |
| Outcomes.DriveTripOutcome | apps/api/src/dispatch/dispatch.repository.ts:1082-1300 | each step from the state before it, with the bill of a completion at the Trip's own surge |
| Outcomes.CancelOutcome | apps/api/src/trip/trip.repository.ts:411-600 | what ends with the Trip is its one pending offer, or the assignment of the Driver at work, or nothing |
| Outcomes.CaptureOutcome | apps/api/src/payment/payment.repository.ts:102-154 | one attempt more, of the given status and for the final fare, numbered after the others; it is the answer |
| DeliveryOutcomes.StartDeliveryOutcome | apps/api/src/delivery/delivery.repository.ts:319-392 | the first available Driver of the query is asked, or the Delivery is given up at once |
| DeliveryOutcomes.AcceptDeliveryOutcome | apps/api/src/delivery/delivery.repository.ts:425-504 | answered exactly in time or again under the same key; a refusal, the late one included, changes nothing |
| DeliveryOutcomes.SweepDeliveryOutcome | apps/api/src/delivery/delivery.repository.ts:670-718 | acts exactly on a pending, due Delivery offer that it gets hold of, and gives the Delivery up |
| DeliveryOutcomes.DriveDeliveryOutcome | apps/api/src/delivery/delivery.repository.ts:545-650 | each step from the state before it; custody keeps its first text, completion adds the proof and frees the Driver |
| Sweeps.SweepExpires | apps/api/src/dispatch/dispatch.repository.ts:664-688 | a whole sweep reports as many offers as it expires, leaves none of its list that was due and not held, and ends early only for a row with a negative distance or age |
| Sweeps.ParcelSweepExpires | apps/api/src/delivery/delivery.repository.ts:664-720 | the same for Deliveries, where nothing ends a sweep early |
| Lifecycle.ExpiryDecides | apps/api/src/dispatch/dispatch-expiry-policy.ts:66-142 | the policy expires exactly a pending, due offer and releases only what it held; a retry is allowed exactly when nothing of the match can still be committed |
| Lifecycle.ExpiryDecidesOnce | apps/api/src/dispatch/dispatch-expiry-policy.ts:88-142 | deciding again on what a decision left changes nothing |
| Refusals.WorkRefused | apps/api/src/dispatch/dispatch.repository.ts:176-207 | each code of a refused change of duty, exactly when |
| Refusals.CreateTripRefused | apps/api/src/trip/trip.repository.ts:131-161 | each code of a refused Trip, exactly when |
| Refusals.StartTripRefused | apps/api/src/dispatch/dispatch.repository.ts:325-338 | each code of a refused match, and that besides these only the search fails |
| Refusals.OfferAnswerRefused | apps/api/src/dispatch/dispatch.repository.ts:477-542 | each code of a refused acceptance or rejection, thrown or committed, exactly when |
| Refusals.DeliveryAnswerRefused | apps/api/src/delivery/delivery.repository.ts:414-450 | each code of a refused Delivery acceptance, exactly when |
| Refusals.DriveRefused | apps/api/src/dispatch/dispatch.repository.ts:1100-1118 | each code of a driving step that is not in order, exactly when |
| Refusals.CompletionRefused | apps/api/src/dispatch/dispatch.repository.ts:1120-1140 | a completion in order is refused exactly for its metering or because the stored terms give no price |
| Refusals.CancelRefused | apps/api/src/trip/trip.repository.ts:411-426 | each code of a refused cancellation, exactly when; the later guards never fail |
| Refusals.CaptureRefused | apps/api/src/payment/payment.repository.ts:102-131 | each code of a refused capture, exactly when |
| Statements.ExpireIs | apps/api/src/dispatch/dispatch.repository.ts:1639-1667 | expiring reservations by aggregate and Driver touches the offer's own reservation and no other |
| Statements.EngageIs | apps/api/src/dispatch/dispatch.repository.ts:967-1010 | the five statements of an acceptance succeed on every row and give the same tables in either repository's order |
| CommitmentSteps.OpenOfferKeeps | apps/api/src/dispatch/dispatch.repository.ts:1456-1522 | offering an aggregate to an available Driver keeps the coupled invariant |
| CommitmentSteps.ShutOfferKeeps | apps/api/src/dispatch/dispatch.repository.ts:1639-1667 | ending a pending offer without acceptance keeps it, and leaves an attempt to spend on the next version |
| CommitmentSteps.EngageKeeps | apps/api/src/dispatch/dispatch.repository.ts:961-1010 | accepting before the deadline keeps it |
| CommitmentSteps.ProgressKeeps | apps/api/src/delivery/delivery.repository.ts:563-607 | an arrival or a start by the assigned Driver keeps it |
| CommitmentSteps.ReleaseKeeps | apps/api/src/delivery/delivery.repository.ts:578-615 | ending an assignment, with or without a handoff, keeps it |
| Runs.ApplyKeeps | apps/api/src/database/database.service.ts:27-42 | every transaction keeps the whole invariant and undoes nothing: versions grow, logs are appended to, resolved rows, receipts and proofs stay |
| Runs.After | apps/api/src/database/database.service.ts:27-42 | so does every run of commands from any database that satisfies it |
| Runs.ReachableInv | apps/api/src/database/database.service.ts:27-42 | every database that a run reaches from the empty one satisfies it |
| Exclusivity.OneCommitment | apps/api/src/dispatch/dispatch.repository.ts:171-1303 | a Driver holds nothing, one pending offer with its active reservation, or one working assignment, across Trips and Deliveries, exactly as the work state says |
| Exclusivity.Bijections | apps/api/src/dispatch/dispatch.repository.ts:171-1303 | reserved Drivers, pending offers and active reservations correspond one to one, and so do engaged Drivers, working assignments and staffed aggregates |
| Schema.IndexesHold | infra/postgres/migrations/0005-dispatch-foundation.sql:52-233 | the unique indexes and the binding check of the dispatch, trip, delivery and payment tables hold in every reachable database |
| Chronicles.EventSourced | apps/api/src/dispatch/dispatch.repository.ts:1669-1713 | each aggregate's transition log replays without a gap to the stored state and version, and its outbox tells versions in order, never above the current one |
| Chronicles.TripRefinesLifecycle | apps/api/src/trip/domain/trip-lifecycle.ts:33-82 | every logged step of a Trip is an edge of the lifecycle table, or leaves a matching Trip matching one version on after a rejected or swept offer |
| Lifecycle.TableByCommand | apps/api/src/trip/domain/trip-lifecycle.ts:33-58 | the table read by command: one source and one target each, and a cancellation from every open state |
| Chronicles.CancellationIsStricter | apps/api/src/trip/trip.repository.ts:635-648 | a Customer may cancel exactly where the table has the edge, except in progress |
| Chronicles.OffersInOrder | apps/api/src/dispatch/dispatch.repository.ts:1401-1434 | an aggregate's offers have different numbers within the limit and different Drivers, at most one is accepted, and only the newest may be pending |
| SelfLoops.LoopsConsumeOffers | apps/api/src/dispatch/dispatch.repository.ts:607-645 | each self-loop in a reachable log has an offer of its own that ended so: the one the logged Driver rejected, or one that expired |
| Chronicles.AcceptedInTime | apps/api/src/dispatch/dispatch.repository.ts:936-960 | an accepted offer was accepted before the deadline that it shares with its committed reservation |
| Chronicles.ProgressGrows | apps/api/src/dispatch/dispatch.repository.ts:171-1303 | along any run a measure of an aggregate grows strictly with every change of its row or offers |
| Chronicles.ProgressBounded | apps/api/src/dispatch/dispatch.repository.ts:30-30 | that measure is bounded: a Trip passes neither version 7 nor 13 changes, a Delivery neither version 5 nor 7 |
| Chronicles.TerminalAbsorbs | apps/api/src/trip/domain/trip-lifecycle.ts:55-58 | a terminal aggregate and its offers are the same after any further run |
| Chronicles.ResolvedForever | apps/api/src/dispatch/dispatch.repository.ts:1646-1651 | an offer leaves PENDING once and never changes again |
| Chronicles.DeliveryShape | apps/api/src/delivery/delivery.repository.ts:319-392 | a Delivery's state determines its version; it is matching exactly while an offer is pending, and has one offer and one assignment at most, ever |
| Chronicles.DeliveredByOneDriver | apps/api/src/delivery/delivery.repository.ts:563-615 | a delivered parcel has one proof, by the Driver who accepted, took custody and made all four driving transitions |
| Accounts.SoleTrip | apps/api/src/trip/trip.repository.ts:116-197 | a quote is consumed by one Trip, and a Customer has one Trip that is not over |
| Accounts.FinalFare | apps/api/src/dispatch/dispatch.repository.ts:1101-1169 | the final fare is set exactly on completion and is the price of the metering under the consumed quote's own rules and surge |
| Accounts.BillForever | apps/api/src/dispatch/dispatch.repository.ts:1120-1169 | bill and consumed quote never change after completion |
| Accounts.PaidOnce | apps/api/src/payment/payment.repository.ts:102-154 | at most one attempt of a Trip is not a failure, and it is the last |
| Accounts.ChargedForever | apps/api/src/payment/payment.repository.ts:113-131 | once an attempt is pending, unknown or successful no run adds another |
| Outcomes.CapturedOnce | apps/api/src/payment/payment.repository.ts:113-154 | after a capture answered as anything but failed the Trip has the same attempts after any run, the last of that status |
| Accounts.QuoteAndFinalAgree | apps/api/src/pricing/fare-quote.ts:62-186 | pricing the quoted metering again under the surge that the quote applied succeeds with the same breakdown |
| Accounts.AsQuoted | apps/api/src/dispatch/dispatch.repository.ts:1120-1140 | a Trip driven as estimated costs what was quoted |
| Idempotency.AnsweredForever | apps/api/src/dispatch/dispatch.repository.ts:301-322 | after any run, the same key and fingerprint get the stored answer and another fingerprint is refused, without a change |
| Idempotency.KeysApart | apps/api/src/dispatch/dispatch.repository.ts:301-322 | two requests share a receipt exactly if they are keyed, of one kind and action, by one user and under one key |
| Idempotency.LateIff | apps/api/src/dispatch/dispatch.repository.ts:945-956 | an acceptance or rejection is told that its offer has expired exactly when its key is unused and the Driver's own pending Trip offer is past its deadline |
| Guards.AnsweredIff | apps/api/src/dispatch/dispatch.repository.ts:870-940 | under an unused key each keyed command is answered exactly when its guards hold, written over the rows and inputs before the call |
| Guards.KeyedChangesIff | apps/api/src/dispatch/dispatch.repository.ts:531-542 | a keyed command changes the database exactly when its key is unused and its guards, or those of the late branch, hold |
| Guards.KeyChangesTwiceIff | apps/api/src/dispatch/dispatch.repository.ts:870-960 | two executions under one key both change the database exactly when the first comes too late to a pending offer and the second, the key still unused, answers another offer that is then pending |
| Scenarios.KeyUsedTwice | apps/api/src/dispatch/dispatch.repository.ts:945-956 | a run in which that happens |
| Rematching.LateAnswerUnasks | apps/api/src/dispatch/dispatch.repository.ts:531-542 | a late answer leaves its Trip matching with nobody asked, version and logs unchanged |
| Rematching.RetryFailsIff | apps/api/src/dispatch/dispatch.repository.ts:1496-1522 | with a Driver and an attempt left, starting such a match again fails exactly when the Trip is still at version 1 |
| Rematching.StrandedForever | apps/api/src/dispatch/dispatch.repository.ts:382-444 | a Trip whose first offer was answered late never gets a Driver in any run |
| Rematching.OthersNeverClash | apps/api/src/dispatch/dispatch.repository.ts:607-660 | a rejection or a sweep never violates the outbox's unique constraint |
| Rematching.SweptIsResolved | apps/api/src/dispatch/dispatch.repository.ts:752-768 | a due offer that a sweep gets hold of is expired, or nothing happens because the ranking refuses its input |
| CutOffs.StartTripAnswer | apps/api/src/dispatch/dispatch.repository.ts:345-444 | a match is answered with the pending offer exactly while it is matching, as its rows are |
| CutOffs.RejectAnswer | apps/api/src/dispatch/dispatch.repository.ts:607-660 | a rejection is answered with the rejected offer and the next one, as their rows are |
| Scenarios.StrandedTripOccurs | apps/api/src/dispatch/dispatch.repository.ts:945-956 | a run that reaches such a Trip, and its failing retry |
| Ranking.RankIsSortedSelection | apps/api/src/dispatch/dispatch-ranking.ts:25-51 | the ranking is the fresh eligible candidates, each as often as given, nearest first, of equal distance the freshest first, then the smallest id |
| Ranking.RankIgnoresOrder | apps/api/src/dispatch/dispatch-ranking.ts:42-59 | for different Drivers it does not depend on the order of the input |
| Searches.SearchChooses | apps/api/src/dispatch/dispatch.repository.ts:1391-1525 | a search asks the Driver of a row that is free, without a conflict and at most 15 seconds old, and every other such row is farther, or as far and not fresher, or alike in both with no smaller id; it finds nobody only if three attempts are spent or there is no such row |
| Searches.DeliveryChooses | apps/api/src/delivery/delivery.repository.ts:815-866 | a Delivery asks the first available Driver of the query whose claim meets no conflict |
| Locking.RunIsSafe | apps/api/src/dispatch/dispatch.repository.ts:477-525 | every interleaving of transactions that lock in ascending order keeps locks exclusive and what is awaited above what is held |
| Locking.NoCycle | apps/api/src/dispatch/dispatch.repository.ts:477-525 | the wait-for graph of any number of transactions has no cycle |
| Locking.SomeoneCanGoOn | apps/api/src/dispatch/dispatch.repository.ts:893-940 | while a transaction is open, one can go on |
| Locking.AllCanFinish | apps/api/src/dispatch/dispatch.repository.ts:893-940 | from any state all open transactions can run to their ends, none aborted |
| Locking.LocksAscend | apps/api/src/dispatch/dispatch.repository.ts:690-746 | every command locks in ascending order, a cancellation if it meets at most one pending offer |
| Locking.CancellationAscendsIff | apps/api/src/trip/trip.repository.ts:411-468 | a cancellation locks in ascending order exactly when it meets at most one pending offer |
| Locking.CommandsNeverDeadlock | apps/api/src/trip/trip.repository.ts:411-468 | however commands on reachable databases interleave, nothing waits in a circle, and while one is open one can go on |
| Locking.CommandsExclude | apps/api/src/dispatch/dispatch.repository.ts:477-525 | however commands interleave, two open transactions have never both passed a wait for the same row |
| Locking.OnePerKey | apps/api/src/dispatch/dispatch.repository.ts:301-310 | of the transactions with one key's advisory lock at most one has got past its first statement |
| LockedWrites.WritesAreLocked | apps/api/src/dispatch/dispatch.repository.ts:171-1303 | every row of quotes, aggregates, offers, reservations, assignments and work states that a command finds and leaves different is among its locks |
| Fare.CeilDiv | apps/api/src/pricing/fare-quote.ts:279-281 | the least integer not below the quotient |
| Doubles.CheckedIsExact | apps/api/src/pricing/fare-quote.ts:259-267 | a rounded non-negative integer result is a safe integer exactly when the exact one is, and then equals it |
| Doubles.CeilRatioIsExact | apps/api/src/pricing/fare-quote.ts:279-281 | Math.ceil of the rounded quotient of safe integers is the exact ceiling, under any rule for ties |
| Doubles.NearestExists | apps/api/src/pricing/fare-quote.ts:259-281 | every number that can occur has a nearest double |
| FloatFares.SumIsExact | apps/api/src/pricing/fare-quote.ts:269-277 | a checked sum of safe amounts accepts exactly the safe sums and is exact, although partial sums round |
| FloatFares.FareIsExact | apps/api/src/pricing/fare-quote.ts:62-186 | the whole calculation in doubles gives the exact breakdown, or rejects exactly what exact arithmetic rejects |
| FloatFares.OnlyWholeInputs | apps/api/src/pricing/fare-quote.ts:188-246 | nothing but whole inputs is ever priced |
| FareBounds.TotalWithin | apps/api/src/pricing/fare-quote.ts:62-116 | the total is at least the exact fare under the allowed surge and exceeds it by less than (2 * service + 1) * surge + 1 minor units |
| FareBounds.PriceIff | apps/api/src/pricing/fare-quote.ts:62-186 | a breakdown is the price exactly if the inputs are valid, each of the four quotients by 1000, 60 and 10000 is rounded up, the surge is the requested one or the nearer bound, and every product and sum is a safe integer |
| FareBounds.TotalMonotone | apps/api/src/pricing/fare-quote.ts:62-116 | less distance, duration or requested surge is never refused where more is not, nor dearer |
| Relay.OrderedIs | apps/api/src/realtime/realtime.gateway.ts:675-699 | a permutation of the batch with aggregates in one piece, in order of first occurrence, versions ascending |
| Relay.Gateway.RelayEvent | apps/api/src/realtime/realtime.gateway.ts:487-502 | one event reaches exactly the subscribed clients, and then ends the subscriptions that it revokes |
| Relay.Gateway.RelayBatch | apps/api/src/realtime/realtime.gateway.ts:479-526 | each client's inbox and subscriptions evolve as if it alone followed the ordered batch, each event sent before it revokes |
| Relay.Gateway.Subscribe | apps/api/src/realtime/realtime.gateway.ts:545-581 | a subscription is granted exactly when it exists or fewer than twenty do |
| Relay.OrderedTerminalLast | apps/api/src/realtime/realtime.gateway.ts:583-626 | for rows of a reachable outbox no event of an aggregate follows its terminal one in the order of sending |
| Relay.ReceivesAll | apps/api/src/realtime/realtime.gateway.ts:528-543 | a subscriber receives every row of the aggregate, in order, and stays subscribed exactly if none was terminal |
| Relay.NamedIsCutOff | apps/api/src/realtime/realtime.gateway.ts:592-616 | a Driver named by an OfferRejected or OfferExpired row receives it and nothing of that Trip after it |
| Relay.RowEffect | apps/api/src/realtime/realtime.gateway.ts:528-626 | what each kind of event does to a client, kind by kind |
| CutOffs.EndIsTold | apps/api/src/dispatch/dispatch.repository.ts:607-645 | a rejected or swept offer is told in the outbox at the Trip's next version, naming its Driver |
| CutOffs.EndedDriverIsCutOff | apps/api/src/realtime/realtime.gateway.ts:592-616 | that Driver receives nothing of the Trip after that event, whatever rows are relayed |
| Relay.Gateway.RelayOutbox | apps/api/src/realtime/realtime.gateway.ts:479-526 | one poll relays the next page of each table and moves its cursor to the last row of it |
| Relay.PageIsNext | apps/api/src/realtime/realtime.repository.ts:262-278 | the query answers the next rows after the cursor that are visible, at most a hundred |
| Relay.PagesReceivedIff | apps/api/src/realtime/realtime.gateway.ts:479-543 | over any pages a spared subscriber receives every row of the aggregate exactly when no page ends between a terminal row of it and a later one |
| Relay.PollingReceivesIff | apps/api/src/realtime/realtime.repository.ts:262-297 | the same for every sequence of polls of a reachable database's outbox |
| PageCuts.SplitBatchLoses | apps/api/src/realtime/realtime.repository.ts:262-278 | a run from the empty database ends in an outbox of 101 rows that two polls relay without its last row for a subscriber, because the hundredth is the terminal row of the same transaction |
| ClientMerge.Converges | apps/web/src/App.tsx:5039-5116 | any reordered, repeated list of snapshots and events ends at the newest version shown, in the state the log has there |
| ClientMerge.ShownAfter | apps/web/src/App.tsx:5039-5116 | what one message changes on the screen, field by field |
| ClientMerge.OrderDoesNotMatter | apps/web/src/App.tsx:5039-5116 | two lists of the same messages leave the same state and version |
| ClientMerge.OutboxIsTruthful | apps/api/src/dispatch/dispatch.repository.ts:1701-1713 | the events of a reachable outbox carry the state that the log has at their version |
| ClientMerge.Remember | apps/web/src/App.tsx:5118-5126 | answers whether the event is new, forgets the oldest beyond 256 |
| ClientMerge.ForgettingIsHarmless | apps/web/src/App.tsx:5118-5126 | skipping remembered events, and forgetting some, never changes what is shown |
| ClientMerge.LatestIsUnbeatenIff | apps/web/src/App.tsx:5128-5150 | the location shown was received, and none received is newer by its readable times exactly when the first has a readable capture time or none that follows has |
| ClientMerge.LatestIsNewestIff | apps/web/src/App.tsx:5139-5150 | with a readable time of receipt counted as newer than none, exactly when besides the first of the greatest capture time has one or no other of that capture time has |
| ClientMerge.UnreadableSticks | apps/web/src/App.tsx:5132-5138 | a first location without a readable capture time is never replaced |
| ClientMerge.SameTimesStay | apps/web/src/App.tsx:5139-5150 | a location with the times of the one shown does not replace it |
| RateLimiting.InMemoryRateLimiter.Check | apps/api/src/common/http/rate-limiter.ts:33-54 | one check of the Map in insertion order, and its answer, with the least whole second after which the window is over |
| RateLimiting.InMemoryRateLimiter.ReclaimExpiredBuckets | apps/api/src/common/http/rate-limiter.ts:56-62 | deleting while iterating leaves exactly the live buckets, in order |
| RateLimiting.ExpiredIsPrefix | apps/api/src/common/http/rate-limiter.ts:56-62 | with a clock that does not go back the expired buckets form a prefix |
| RateLimiting.CheckedTidy | apps/api/src/common/http/rate-limiter.ts:64-75 | insertion order stays start order, the size stays within the capacity, and what is evicted is the oldest window |
| RateLimiting.RefinesUnbounded | apps/api/src/common/http/rate-limiter.ts:33-75 | a key that is never evicted gets the answers of an unbounded counter of its own, whatever other keys do |
| RateLimiting.EvictsNoneIff | apps/api/src/common/http/rate-limiter.ts:64-75 | a new limiter never evicts a key exactly when, at every call, the keys with an open window of their own and the caller's fit the capacity; the condition is on the calls alone |
| RateLimiting.FitsIsUnbounded | apps/api/src/common/http/rate-limiter.ts:33-75 | while they fit, every key gets the answers of an unbounded counter of its own |
| RateLimiting.AtMostTwice | apps/api/src/common/http/rate-limiter.ts:33-54 | in any stretch shorter than one window the limiter allows a key that it never evicts at most twice the limit |
| RateLimiting.ExactlyTheLimit | apps/api/src/common/http/rate-limiter.ts:33-54 | from a call that opens a window exactly the first `limit` calls of the window are allowed |
| LocationLimiting.DriverLocationRateLimiter.TryAccept | apps/api/src/location/driver-location-rate-limiter.ts:12-24 | accepts exactly when no acceptance of the Driver is younger than the window |
| LocationLimiting.DriverLocationRateLimiter.PruneExpired | apps/api/src/location/driver-location-rate-limiter.ts:26-34 | below the threshold nothing happens, from it on exactly the expired entries go |
| LocationLimiting.PruningIsInvisible | apps/api/src/location/driver-location-rate-limiter.ts:12-34 | for every run with a clock that does not go back the answers are those without pruning |
| LocationLimiting.AcceptedIff | apps/api/src/location/driver-location-rate-limiter.ts:12-24 | a location is accepted exactly when no accepted one of its Driver is less than 3000 ms older |
| LocationLimiting.AcceptancesApart | apps/api/src/location/driver-location-rate-limiter.ts:1-24 | two locations of one Driver that the limiter accepts are at least 3000 ms apart |
| Sessions.SessionRepository.CreateSession | apps/api/src/identity/identity.repository.ts:157-170 | a session of a new family, unless its digest exists |
| Sessions.SessionRepository.RotateSession | apps/api/src/identity/identity.repository.ts:172-223 | the rotation of the one session that holds the token: a successor exactly if it is active, not past its expiry and the new digest unknown; each refusal, keeping the chains |
| Sessions.SessionRepository.RevokeSession | apps/api/src/identity/identity.repository.ts:225-232 | only an active session is revoked |
| Sessions.HandledAllKeeps | apps/api/src/identity/identity.repository.ts:157-232 | every run of requests keeps the chains |
| Sessions.AlwaysOneActive | apps/api/src/identity/identity.repository.ts:172-223 | in every run a family has at most one active session |
| Sessions.AlwaysChains | apps/api/src/identity/identity.repository.ts:200-219 | in every run a family's sessions are one sequence without repetition along which each is replaced by the next |
| Sessions.InactiveTokenEndsFamily | apps/api/src/identity/identity.repository.ts:187-191 | after a token that is not active was presented, no run gives its family an active session again |
| Sessions.RotationHandsOver | apps/api/src/identity/identity.repository.ts:200-219 | a rotation leaves the new session the family's only active one, for the same user |
| Sessions.RotationIff | apps/api/src/identity/identity.repository.ts:184-222 | a new session is given exactly to an active session before its expiry with an unknown new digest, and has the given digest and expiry |
| Sessions.ExpiredEndsFamily | apps/api/src/identity/identity.repository.ts:192-200 | an active token at or past its expiry gets no successor, and its family has no active session in any later run |
| Sessions.LogoutEndsFamily | apps/api/src/identity/identity.repository.ts:225-232 | after the token of a family's active session is revoked the family has none in any later run |
| Sessions.LoginOpens | apps/api/src/identity/identity.repository.ts:157-170 | the new session has the given user, digest and expiry and is its family's only one |

## Left out

- Parcels.DeliveryRepository.AcceptOffer: has no receipt in the original; its repetition answers with the Delivery's present state and version, so nothing is claimed about an unchanged answer.
- Locking.Locks: key-share locks of foreign keys and waits inside unique indexes are not among the locks, and rows that one query locks in several tables are taken in the order in which the query names them.
- LockedWrites.WritesAreLocked: is about rows that are found and changed; rows that are only read or inserted, and rows that a transaction passes by because another holds them, are not covered.
- Relay.PollingReceivesIff: rows become visible in the order of the query; a transaction that commits after a later row was relayed, and polls that overlap or fail, are not modelled.
- Clocks: a command carries one arbitrary reading of the time, where the original reads the process clock and the database clock; a quote's or an offer's deadline is compared with that reading.
- Candidate queries: the geospatial, vehicle, approval and freshness conditions and the LIMITs become an arbitrary list of rows; what concerns the matching tables is modelled. That an INSERT meets a conflict is an arbitrary flag of the row.
- The worklists of the sweeps are arbitrary lists of offers, each with its own clock reading and lock outcome.
- Fresh random identifiers are the next unused number; digests and fingerprints are opaque values.
- Columns that no property here reads: labels, places, service types, currencies, reasons, correlation identifiers, timestamps other than deadlines, cancellation rows, payment providers and the payment outbox.
- Rate cards, the receipt of a quote request and the in-flight sharing of quotes: a quote is issued from any valid rules.
- Inputs of the fare calculation that are not finite numbers.
- Connections, authentication, heartbeats and location quotas of the gateway; queries that only read.
- Registration, credentials, roles and the user's status at a session rotation.
- HTTP, validation schemas, routing, maps and all other user interface code.
