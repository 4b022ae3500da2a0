# Verified model of the deal pipeline

This project models the parts of the system that decide when money may move, and proves what
they keep:

* **The Deal Engine** (`DealEngine*.dfy`, `Reachability.dfy`, `WorkerProgram.dfy`,
  `PriceHistory.dfy`, `Scorer.dfy`): any number of workers on one consumer group, one Postgres
  transaction per event, read committed isolation.
  `DealEngine` is the step system: the stream and its pending list, the committed tables, each
  transaction's uncommitted writes, advisory locks, row locks, unique keys that wait, rollback
  and crash, the purge clock, and other services moving deals along lifecycle edges.
  `DealEngineSafety` is its invariant, `DealEngineRuns` what follows over every run,
  `DealEngineNecessity` the runs that show each lock and each condition on redelivery is needed,
  and `WorkerProgram` the handlers and repositories as a program whose every execution is a run
  of the machine.
* **The Revalidation Service** (`RevalidationService.dfy`, `RevalidationNecessity.dfy`,
  `DealReferenceStore.dfy`, `RevalidationRules.dfy`, `Decimal28.dfy`): the bounded projection
  against the full history, the monotonic time budget, the 2% guard in 28-digit decimal
  arithmetic, publish first and mark second, restarts, and the runs that show what one answer per
  event needs. `Pipeline.dfy` joins it to the Deal Engine: what a deal was scored at there is
  what it is revalidated against here.
* **The event bus and the Event Store** (`ConsumerGroup.dfy`, `EventStore.dfy`): one consumer
  group over several streams with any number of workers, one worker's read-handle-acknowledge
  loop, and the append-only table behind it.
* **Ingestion** (`Connector.dfy`, `Normalizer.dfy`, `Paise.dfy`): the skip-and-continue poll
  loop, the nine product rules, and the rupee parser.

What the code does not decide is a parameter of the model: what others do in between
(`Server.others`), how a commit ends (`CommitReply`), clock readings, live reads, bus and
commit failures (`World`), Redis replies, what a marketplace yields, and the ids Postgres draws,
which are assumed never to repeat. The payload schema is one predicate: a discovered product has
a positive price.

## Where the code and its documentation differ

The model follows the code.

* `process_once` drops the result of `mark_processed` (`libs/event_bus/dedup.py:106-108`). Two
  overlapping attempts at one event both commit (`OverlapCommitsTwice`); effects are exactly
  once when attempts do not overlap and redelivery stays inside the retention window
  (`ExactlyOnce`), and no event commits twice exactly when both are demanded of every attempt
  (`BothConditionsAreNeeded`).
* `services/revalidation-service/src/services/deal_reference.py:15-18` says a restart warms the
  projection again. The group cursor and the marks survive a restart, so in general it does not:
  after one the projection knows a deal exactly if the deal was scored since under an event not
  marked when it came, be it a new one or one whose mark was purged (`RestartWarmsExactly`), and
  until then nothing about it is answered (`ColdDealIsSilent`, `RestartSilences`). An exception in
  a handler leaves `run` and so ends the process, which has the same effect.
* The service publishes before it marks, and `services/revalidation-service/src/main.py:13-20`
  names a crash in between as what can answer twice. A purged mark can, too: an event is answered
  at most once in every run exactly when both are demanded, that the commits after its answers
  succeed and that its mark is not purged (`BothKeepingsAreNeeded`).
* `libs/validation_rules/revalidation.py:50-53` takes `paise` to be positive by schema.
  `libs/event_bus/schema/common.json` has no such bound. Over all runs the `ValueError` is out of
  reach exactly when no recorded price is zero or less (`PositivePricesAreNeeded`,
  `CorruptPriceRaises`). The Deal Engine announces only positive prices
  (`AnnouncementsMatchDeals`), so fed by it the service never meets the error (`NeverCorrupt`).
* The 2% guard rounds its quotient to 28 digits. Less than 10^28 paise apart it fails exactly
  when 50 times the difference exceeds the reference by at most a 4 * 10^27th part of it
  (`ToleranceExactly`), which no reference below 4 * 10^27 allows (`ToleranceIsExact`) and the
  one in `ToleranceFailsAtBound` does.
* The DEAL_SCORED schema caps the score at 100. No deal scores more exactly when the four rounded
  full components sum to at most 100 or the thresholds shut such listings out
  (`WithinHundredExactly`); weights that sum to one can round to 100.01
  (`RoundingCanPassOneHundred`), and such a publish raises. The built-in weights cannot.
* A better offer keeps the deal and the score under every config exactly when its price is no
  larger a part of its reference (`MonotoneExactly`); a lower price can make it larger, when the
  reference switches from history to MRP (`ReferenceSwitchBreaksMonotonicity`).
* `paise` promises `ParseFailedError` for every failure
  (`services/marketplace-connector/src/base/raw_mapping.py:15-17`). Amounts of 10^28 paise and
  more raise `InvalidOperation` instead, which neither `iter_products` nor `poll` catches
  (`RaisesExactly`). Past 28 digits the two roundings in a row can miss the nearest paise
  (`NearestExactly`, `DoubleRoundingHappens`).
* `check` is documented not to raise and `normalize` to have no third outcome
  (`services/marketplace-connector/src/base/normalizer.py:103-105`,
  `services/marketplace-connector/src/base/connector_interface.py:145-147`). `urlparse` raises
  `ValueError` on some texts, and nothing catches it: `check` and `normalize` raise exactly on
  those (`Normalizer.Check`, `Connector.Normalize`), and one such item ends its batch and the
  poll loop with it (`UnparseableUrlEndsBatch`).
* `read` is documented to drop malformed entries (`libs/event_bus/consumer.py:107-114`). An entry
  whose bytes are not UTF-8 raises out of it instead: the batch is not handled, and all of it but
  the malformed entries before that one stays pending (`BatchStaysPending`).
* `poll`'s totals leave out what a cycle published before it failed (`TotalsMissFailedCycles`).

## Model

| member | source | states |
|---|---|---|
| DealEngineRuns.AtMostOneOpenDeal | services/deal-engine/src/services/deal_writer.py:46-74 | in every run, any workers, crashes and colliding advisory keys: at most one non-terminal deal per listing, every deal's listing is a committed one, and an offer has one listing, so at most one per offer |
| DealEngineNecessity.BothLocksAreNeeded | services/deal-engine/src/repositories/deal_repo.py:147-182 | one open deal per listing in every run if and only if both the advisory lock and the tap's row lock are taken |
| DealEngineNecessity.BothConditionsAreNeeded | libs/event_bus/dedup.py:79-125 | with both locks, no event is handled by two committed transactions in any run of a policy on attempts if and only if the policy forbids both overlap and attempts past the retention window |
| DealEngineNecessity.StaleTapReopens | services/deal-engine/src/repositories/deal_repo.py:110-113 | without the row lock a run reaches a state where a tap waits to write what it decided on a DEAL_SENT row that is EXPIRED by now, beside a newer open deal; writing turns EXPIRED back into INTERESTED and two deals are open |
| DealEngineNecessity.RaceOpensTwo | services/deal-engine/src/repositories/deal_repo.py:147-158 | without the advisory lock a run reaches a state where two workers are past the check of one listing and no deal exists; both inserts follow and two deals are open |
| DealEngineNecessity.OverlapCommitsTwice | libs/event_bus/dedup.py:106-108 | under any policy that allows overlap, also one that allows no late attempt: two workers have one event in hand, both commit, and its observation is recorded twice |
| DealEngineNecessity.LateRedeliveryCommitsTwice | libs/event_bus/dedup.py:111-125 | under any policy that allows late attempts, also one that allows no overlap: the mark is purged, nobody is at the event, and it is handled and committed again |
| DealEngineSafety.StepKeeps | services/deal-engine/src/handlers/event_handlers.py:96-228 | every step of every worker and of the environment keeps the whole invariant |
| DealEngineSafety.RunKeeps | services/deal-engine/src/main.py:57-86 | so does every legal run, of any length |
| DealEngineSafety.CommitKeeps | services/deal-engine/src/main.py:75-83 | making a transaction's writes visible and dropping its locks in one step keeps the invariant for it and for every other transaction |
| DealEngineSafety.AbortKeeps | services/deal-engine/src/main.py:84-86 | so does a rollback or crash at any point before the acknowledgement |
| DealEngineSafety.DealsChange | services/deal-engine/src/repositories/deal_repo.py:115-128 | a commit under the two guards inserts one deal on a listing without an open one, or moves one row the transaction had locked, or leaves the table alone |
| DealEngineSafety.MoveKeepsOneOpen | services/deal-engine/src/repositories/deal_repo.py:38-50 | a status change that does not reopen a terminal deal keeps one open deal per listing |
| DealEngine.KeysCollide | services/deal-engine/src/repositories/deal_repo.py:134-138 | two listings share an advisory key exactly when their ids agree in the low 63 bits, and no key needs more |
| DealEngineRuns.StepOnDeals | services/deal-engine/src/handlers/event_handlers.py:194-228 | a step leaves `deals` alone, inserts one row, or changes one status by a lifecycle edge or a legal tap; no row disappears, no scored fact changes, no terminal deal reopens |
| DealEngineRuns.NothingOrderedUnchecked | ZIP_13_ENGINEERING_CONTRACTS/STATE_TRANSITIONS.md:12-30 | in every run nothing is CONFIRMED or ORDERED, nor found changed or sold out, that was not REVALIDATING before, nothing is revalidated that was not INTERESTED, and nothing tapped, ignored or put off that was not DEAL_SENT |
| DealEngineRuns.AtMostOneAppliedTap | services/deal-engine/src/handlers/event_handlers.py:194-228 | each deal has at most one applied tap, and every applied tap found DEAL_SENT and was decided strictly before expiry |
| DealEngineRuns.OneListingPerOffer | services/deal-engine/src/handlers/event_handlers.py:271-326 | committed transactions on one (marketplace, external id) used one listing id; a losing inserter's re-read finds the winner and a locked row is still there, so both RuntimeErrors are unreachable |
| DealEngineRuns.ScorerSeesCurrentPrice | services/deal-engine/src/handlers/event_handlers.py:109-121 | wherever a worker is about to score, the statistics exist and bracket the product's price |
| DealEngineRuns.VerdictFromRows | services/deal-engine/src/handlers/event_handlers.py:109-121 | in every run, wherever a worker is about to score, under every config: the verdict follows from the extremes of the committed rows of its listing since the window opened and of the row it just appended, a deal with exactly the components, thresholds and stored facts those numbers give, a skip with the threshold they miss |
| DealEngineRuns.VerdictFromEarlierPrices | services/deal-engine/src/handlers/event_handlers.py:109-121 | the same from the committed rows and the product alone: full velocity credit when no earlier price in the window is lower; a reference other than the MRP is an earlier price in the window above the current one; with neither an MRP nor an earlier price above the current one the listing is skipped, a first-seen one without an MRP among them |
| DealEngineRuns.AnnouncementsMatchDeals | services/deal-engine/src/handlers/event_handlers.py:126-142 | every committed deal has exactly one DEAL_SCORED, with its id and facts; an announcement without a deal belongs to a transaction still open past its publish or to one rolled back; no two announcements share a deal id, and every one of them, committed or not, has a positive price |
| DealEngineRuns.TablesAreTheLog | services/deal-engine/src/main.py:75-86 | in every run, under any locking: price series, listings and scored deals are exactly what the committed transactions wrote, in commit order; nothing uncommitted shows and nothing committed is lost |
| DealEngineRuns.EveryDealIsADiscount | services/deal-engine/src/handlers/event_handlers.py:115-126 | every committed deal's detected price is positive and below its reference price |
| DealEngineRuns.AckedMeansCommitted | libs/event_bus/consumer.py:159-165 | marks are committed exactly for events some committed transaction handled, and no well-formed entry is acknowledged before its event's mark and effects were |
| DealEngineRuns.AcknowledgedExactly | libs/event_bus/consumer.py:118-165 | an entry is acknowledged by exactly two kinds of step, dropping it as malformed and its worker being done with it; only a delivery hands it out, and no step takes one that was delivered out of both lists |
| DealEngineRuns.DeliveredStays | libs/event_bus/consumer.py:140-165 | so in every run an entry once delivered is pending or acknowledged ever after, and once acknowledged stays so |
| DealEngineRuns.ExactlyOnce | libs/event_bus/dedup.py:79-125 | over any run in which attempts at one event never overlap and redelivery stays inside the retention window, an acknowledged event's effects are in exactly one committed transaction |
| DealEngineRuns.OrderlyMeansOnce | libs/event_bus/dedup.py:79-125 | over any such run no two committed transactions handled one event, acknowledged or not |
| DealEngineRuns.UnmarkedMeansNew | libs/event_bus/dedup.py:50-57 | inside the retention window an event found unmarked has never been handled, although marks are purged |
| DealEngineRuns.MarksLastSevenDays | libs/event_bus/dedup.py:111-125 | in every run a mark stands for seven days from the start of the transaction that wrote it, and a purge leaves none that is older |
| DealEngineRuns.StepKeepsOnce | libs/event_bus/dedup.py:95-108 | one orderly step keeps every event out of the log and the open transactions twice |
| WorkerProgram.Server.Interfere | services/deal-engine/src/main.py:108-112 | whatever other workers do before a statement is part of a run and leaves this worker's transaction alone |
| WorkerProgram.Server.Execute | services/deal-engine/src/main.py:108-112 | a statement of this worker runs, after interference, exactly when the machine allows it, and the state stays a reachable one |
| WorkerProgram.ListingRepository.FindByExternal | services/deal-engine/src/repositories/listing_repo.py:125-130 | the listing id committed for the event's offer, or none exactly when none is, and the branch it selects |
| WorkerProgram.ListingRepository.FindAgain | services/deal-engine/src/handlers/event_handlers.py:319-326 | the re-read after a lost insert always finds a row, the committed one of the offer |
| WorkerProgram.ListingRepository.Insert | services/deal-engine/src/repositories/listing_repo.py:132-162 | a row under exactly the drawn id, the offer unseen until now and its unique key held, or nothing because the offer's row was committed by another transaction; fails only while another transaction holds the key or the drawn id is taken |
| WorkerProgram.ListingRepository.UpdateObservation | services/deal-engine/src/repositories/listing_repo.py:99-110 | the row is updated and locked, the listing id stays; the statement fails only while another transaction holds the row |
| WorkerProgram.PriceHistoryRepository.StatsThenScore | services/deal-engine/src/handlers/event_handlers.py:109-124 | the verdict follows, by the rules of `VerdictFromRows`, from the series at that moment including the row just appended, and is never a division by zero |
| WorkerProgram.DealRepository.LockListing | services/deal-engine/src/repositories/deal_repo.py:147-158 | afterwards this transaction holds the listing's advisory key; fails only while another one holds it |
| WorkerProgram.DealRepository.FindOpenForListing | services/deal-engine/src/repositories/deal_repo.py:160-170 | a committed non-terminal deal of the listing, and none exactly when there is none |
| WorkerProgram.DealRepository.GetById | services/deal-engine/src/repositories/deal_repo.py:172-182 | the row as committed, its row lock held by this transaction; none exactly when there is no such deal; fails only while another transaction holds the row, and then changes nothing |
| WorkerProgram.DealRepository.UpdateStatus | services/deal-engine/src/handlers/event_handlers.py:221-225 | under the row lock the update never waits and never misses its row |
| WorkerProgram.DealEngineWorker.UpsertListing | services/deal-engine/src/handlers/event_handlers.py:271-326 | returns the listing id the transaction goes on with; fails only where the statement it stands at waits for another transaction, never with the RuntimeError |
| WorkerProgram.DealEngineWorker.WriteDeal | services/deal-engine/src/services/deal_writer.py:46-74 | a created deal has no committed open rival and its listing's lock is still held; otherwise nothing is written and the open deal is returned; raises only while another transaction holds the listing's lock or the drawn id is taken |
| WorkerProgram.DealEngineWorker.Announce | services/deal-engine/src/handlers/event_handlers.py:132-132 | after a successful publish the bus carries this deal's id and facts; it fails exactly on a score outside the schema |
| WorkerProgram.DealEngineWorker.ScoreListing | services/deal-engine/src/handlers/event_handlers.py:104-124 | the listing found or created, the observation recorded, and a score that follows from the series at a state between call and return; raises only by a wait of the upsert |
| WorkerProgram.DealEngineWorker.WriteAndAnnounce | services/deal-engine/src/handlers/event_handlers.py:126-142 | the deal returned, new or existing, is on the bus exactly once, with its facts; an existing one is open; raises only by a wait of the writer or on a score outside the schema |
| WorkerProgram.DealEngineWorker.HandleListingDiscovered | services/deal-engine/src/handlers/event_handlers.py:96-142 | the returned listing, score and deal are the transaction's; the score follows from the series at a state between call and return, in which the transaction stood as now; the deal returned, new or existing, is on the bus exactly once, with its facts; an existing one is open; it raises only where the statement it stands at waits, or on a score outside the schema, which no config within the bound of 100 yields |
| WorkerProgram.DealEngineWorker.ReadClock | services/deal-engine/src/handlers/event_handlers.py:194-228 | one clock reading, at the state where the tap is decided, decides what it writes |
| WorkerProgram.DealEngineWorker.HandleUserInterested | services/deal-engine/src/handlers/event_handlers.py:168-228 | applied exactly for an unexpired DEAL_SENT row; every rejection reason exactly for its own case, by a clock reading between call and return; EXPIRED written exactly for a late tap on a row not EXPIRED; raises only while another transaction holds the row |
| WorkerProgram.DealEngineWorker.Rollback | services/deal-engine/src/main.py:84-86 | afterwards the worker has no transaction and nothing to acknowledge, also when what raised was a commit that took effect |
| WorkerProgram.DealEngineWorker.MarkAndCommit | libs/event_bus/dedup.py:106-108 | on success the worker may acknowledge this entry; a mark that waits for another transaction leaves this one open; else it fails exactly when the commit does, with the transaction open or committed behind a broken connection |
| WorkerProgram.DealEngineWorker.HandleEvent | services/deal-engine/src/main.py:57-86 | on success the entry may be acknowledged and its event's mark is committed; on an exception no transaction is open and nothing may be acknowledged, and its cause stood at the state where the attempt stopped: an entry never delivered or without a handler, a lock held by another transaction or a drawn id taken, a score outside the schema (never under a config within the bound of 100), or a commit that failed; no listing has two open deals, whatever others did meanwhile |
| PriceHistory.StatsMeaning | services/deal-engine/src/repositories/price_history_repo.py:80-85 | the aggregates are attained in the window and bracket every row in it; absent exactly for an empty window |
| PriceHistory.StatsAreTheRange | services/deal-engine/src/repositories/price_history_repo.py:80-85 | the aggregates are the extremes of the listing's prices of the last `window_days` days, the moment itself included, and absent exactly when there are none |
| PriceHistory.CurrentPriceIsInStats | services/deal-engine/src/handlers/event_handlers.py:109-111 | after the insert the statistics bracket the current price; each extreme equals or beats it exactly as earlier rows in the window say |
| PriceHistory.PriceHistoryRepository.Insert | services/deal-engine/src/repositories/price_history_repo.py:94-100 | one row appended, nothing else changed |
| PriceHistory.PriceHistoryRepository.InsertThenStats | services/deal-engine/src/handlers/event_handlers.py:109-111 | the handler's two calls in order: statistics exist, bracket the price and every row in the window |
| Scorer.DealBounds | services/deal-engine/src/services/scorer.py:185-251 | for any non-negative weights: components within their weighted range, score exactly their sum and at most a perfect listing's; for weights that sum to one at most 100.02, and at most 100 when they are whole hundredths; price below reference, discount at least the minimum |
| Scorer.WithinHundredExactly | services/deal-engine/src/services/scorer.py:231-251 | no deal of a config scores above 100 if and only if the rounded full components sum to at most 100, or the minimum discount or the minimum score keeps every listing that reaches the sum from being a deal |
| Scorer.DefaultWeightsAreWhole | services/deal-engine/src/services/scorer.py:113-120 | the built-in weights meet every condition of the bound of 100 |
| Scorer.RoundingCanPassOneHundred | services/deal-engine/src/services/scorer.py:241-251 | weights summing to one, under the built-in thresholds, whose perfect listing rounds to 100.01 |
| Scorer.FactorsAreFractions | services/deal-engine/src/services/scorer.py:254-302 | all four curves stay in [0, 1] on every input |
| Scorer.ScoreMonotone | services/deal-engine/src/services/scorer.py:185-302 | with history and config fixed, a better price, rating, review count or tier keeps the deal and lowers no component, no score and no discount, as long as the price is no larger a part of the reference, switched or not |
| Scorer.MonotoneExactly | services/deal-engine/src/services/scorer.py:185-302 | a better offer stays a deal with no lower score under every config if and only if a reference is still there and better.price * worse.reference <= worse.price * better.reference |
| Scorer.ReferenceSwitchBreaksMonotonicity | services/deal-engine/src/services/scorer.py:225-229 | a lower price can lose the deal when the MRP replaces history as reference |
| Scorer.DiscountCredit | services/deal-engine/src/services/scorer.py:254-261 | no credit exactly without a discount, full credit exactly from 60% on |
| Scorer.VelocityCredit | services/deal-engine/src/services/scorer.py:271-276 | no credit exactly from a fifth above the window's lowest price on |
| Scorer.RatingCredit | services/deal-engine/src/services/scorer.py:286-298 | full credit exactly for 5.0 with 500 reviews, none exactly without a rating above 3.0 or without reviews |
| Scorer.FullVelocity | services/deal-engine/src/services/scorer.py:271-276 | full velocity credit exactly at or below the window's lowest price |
| Scorer.HandlerScoring | services/deal-engine/src/handlers/event_handlers.py:109-121 | inside the handler: full velocity exactly for a window minimum, and a history reference only when an earlier price in the window was higher |
| Scorer.DealMeaning | services/deal-engine/src/services/scorer.py:185-251 | of every deal: the reference is the MRP if it beats the price, else the window's highest if that does; each component is its weight times its curve, stated on prices, rating and reviews, to the nearest hundredth with ties to even; the score is their sum and clears the minimum, as does the discount; the stored discount is the rounded distance from the reference, and the deal expires `expiry_hours` after now |
| Scorer.SkipMeaning | services/deal-engine/src/services/scorer.py:191-203 | no deal although there is a reference: the components it would have had miss a threshold |
| Scorer.NothingToCompare | services/deal-engine/src/services/scorer.py:185-189 | neither an MRP nor a highest price above the current one: skipped, whatever the config |
| Scorer.DiscountCurve | services/deal-engine/src/services/scorer.py:254-261 | proportional to the discount up to 60%, flat from there on, in integers: 5 * (reference - price) of 3 * reference, at most all of it |
| Scorer.VelocityCurve | services/deal-engine/src/services/scorer.py:264-276 | full at the window's low and down in proportion to the excess over it, reaching nothing a fifth above, in integers |
| Scorer.BrandCredit | services/deal-engine/src/services/scorer.py:279-283 | five, three and one fifth for premium, standard and the rest, an unresolved brand included |
| Scorer.RatingCurve | services/deal-engine/src/services/scorer.py:286-298 | the rating above 3.0, two points at most, times the reviews, 500 at most, of the most there can be; a missing one counts nothing |
| Scorer.ScoreFitsSchema | services/deal-engine/src/handlers/event_handlers.py:132-132 | under non-negative weights within the bound of 100, no deal has a score the DEAL_SCORED schema refuses |
| Rounding.HalfEvenMeaning | services/deal-engine/src/services/scorer.py:241-251 | the nearest integer, and of two as near the even one, and no other |
| RevalidationRules.ToleranceIsExact | libs/validation_rules/revalidation.py:55-58 | no reference price in (0, 4 * 10^27) has such an excess: there the guard is the rule for every current price |
| RevalidationRules.GuardMeaning | libs/validation_rules/revalidation.py:55-58 | for every positive reference price and every current price: unchanged exactly when 4 * 10^27 times what 50 times the rounded difference exceeds the reference by is at most the reference |
| RevalidationRules.ToleranceExactly | libs/validation_rules/revalidation.py:55-58 | the guard decides 50 * abs(current - detected) <= detected if and only if the excess shows in 28 digits; less than 10^28 apart it fails exactly on a positive excess of at most a 4 * 10^27th of the reference |
| RevalidationRules.ToleranceFailsAtBound | libs/validation_rules/revalidation.py:57-58 | a reference 49 paise past that bound has one, and the guard accepts a price the rule rejects |
| RevalidationRules.ChangedMeaning | libs/validation_rules/revalidation.py:61-87 | the whole guard with unknown stock baseline, on all prices: raises exactly for an in-stock read against a non-positive reference, else changed exactly when out of stock or past the guard's bound |
| RevalidationRules.ChangedAgainstBaseline | libs/validation_rules/revalidation.py:61-87 | the same for every stock baseline: back in stock is a change too, whatever the price |
| Decimal28.ShiftBounds | libs/validation_rules/revalidation.py:57-57 | a decimal quotient is rounded at exactly the precision's number of significant digits |
| Decimal28.RoundQuotientNearest | libs/validation_rules/revalidation.py:57-57 | rounding never carries a quotient past an integer on either side of it |
| Decimal28.RoundQuotientMeaning | libs/validation_rules/revalidation.py:57-57 | the nearest integer to a quotient, and of two as near the even one, and no other |
| DealReferenceStore.Store.Record | services/revalidation-service/src/services/deal_reference.py:74-91 | after any history the store is its last records, the newest `maxDeals` of them in recency order |
| DealReferenceStore.Store.Get | services/revalidation-service/src/services/deal_reference.py:93-95 | the deal's last record in the whole history if fewer than `maxDeals` others came since, else nothing |
| DealReferenceStore.BoundedLookup | services/revalidation-service/src/services/deal_reference.py:64-95 | the same, on values: the bounded store agrees with the unbounded history or stays silent |
| DealReferenceStore.LastRecordsGrow | services/revalidation-service/src/services/deal_reference.py:86-87 | recording moves one deal to the end and changes no other record |
| DealReferenceStore.NewestAbsorbs | services/revalidation-service/src/services/deal_reference.py:88-90 | evicting early changes nothing later |
| RevalidationService.EveryAnswerIsExplained | services/revalidation-service/src/handlers/event_handlers.py:106-189 | over every run with restarts and purges: each DEAL_REVALIDATED was published, at its own place on the bus, by the delivery of a request, and says what the guard says about the latest record of its deal, made with the same listing by an earlier delivery to the same process that was not skipped as a duplicate |
| RevalidationService.OneDeliveryPerAnswer | services/revalidation-service/src/handlers/event_handlers.py:140-189 | deliveries that publish and entries on the bus match one to one, so no delivery explains two answers |
| RevalidationService.LatestIsKnown | services/revalidation-service/src/services/deal_reference.py:74-95 | in every run: what the projection has last recorded of a deal is exactly what the last delivery recorded that was no duplicate, if the process has not restarted since |
| RevalidationService.AnsweredMeaning | services/revalidation-service/src/handlers/event_handlers.py:119-189 | a request is answered if and only if a remembered reference for its listing, a live read and three budget checks justify exactly that answer, correlation id equal to the deal id |
| RevalidationService.SilentMeaning | services/revalidation-service/src/handlers/event_handlers.py:140-178 | a request ends in silence if and only if the deal is known and the window is closed before the read, or the listing cannot be read, or the window is closed behind the read or behind a verdict; the publish error comes up if and only if everything but the publish is in order |
| RevalidationService.RefusalMeaning | services/revalidation-service/src/handlers/event_handlers.py:119-138 | a wrong correlation id, then an unknown deal, then a wrong listing, each exactly for its own case, by the last record of the deal and how many deals came since |
| RevalidationService.RaisesMeaning | services/revalidation-service/src/handlers/event_handlers.py:119-189 | a request raises if and only if it is refused, or its publish is, or an in-time read meets a non-positive recorded price |
| RevalidationService.DeliveryMeaning | services/revalidation-service/src/main.py:91-106 | in every run: a delivery ends the process if and only if its event type has no handler, its unmarked request raises for one of those causes, or its commit fails; the event is marked exactly when it does not; a silent request under a successful commit is marked, publishes nothing, and the process goes on |
| RevalidationService.CorruptReferenceMeaning | libs/validation_rules/revalidation.py:55-56 | the ValueError comes up exactly for an in-time, in-stock read against a non-positive recorded price |
| RevalidationService.PositivePricesNeverRaise | services/revalidation-service/src/handlers/event_handlers.py:106-189 | in every run whose recorded prices are positive no delivery meets the ValueError |
| RevalidationNecessity.PositivePricesAreNeeded | libs/validation_rules/revalidation.py:50-56 | no legal run with recorded prices from a given set meets the ValueError if and only if every price of the set is positive |
| RevalidationNecessity.CorruptPriceRaises | libs/validation_rules/revalidation.py:55-56 | for every price of zero or less, a legal run that records it and a request that then raises |
| RevalidationService.ReadOnlyInTime | services/revalidation-service/src/services/revalidator.py:120-124 | the listing is read at most once, and exactly for a known deal whose window is still open |
| RevalidationService.AnsweredWithinThirtySeconds | services/revalidation-service/src/services/revalidator.py:81-95 | under any non-decreasing clock every reading up to the last check of an answered request is within 30 seconds of its start |
| RevalidationService.AnswerIsTheRule | services/revalidation-service/src/services/revalidator.py:129-134 | the published verdict is the integer 2% rule or out of stock |
| RevalidationService.RecordedInThisProcess | services/revalidation-service/src/services/deal_reference.py:74-91 | the store holds nothing but what this process was delivered, under unmarked events, since it started |
| RevalidationService.RestartWarmsExactly | services/revalidation-service/src/services/deal_reference.py:13-19 | for any inputs after a restart, purges and restarts included: the projection knows a deal if and only if, since the last restart, the deal was scored under an event not marked when it came |
| RevalidationService.ColdDealIsSilent | services/revalidation-service/src/handlers/event_handlers.py:124-130 | a deal not scored so since a restart: no answer about it was published since, and every request for it is refused |
| RevalidationService.RestartSilences | services/revalidation-service/src/services/deal_reference.py:13-19 | in particular, while only marked DEAL_SCORED events are redelivered the store stays empty and nothing at all is answered |
| RevalidationService.AnsweredOnce | services/revalidation-service/src/main.py:95-106 | while the commits that follow an answer to an event succeed and its mark is kept, the event is answered at most once, whatever other commits do |
| RevalidationNecessity.BothKeepingsAreNeeded | services/revalidation-service/src/main.py:13-20 | an event is answered at most once in every legal run of every world that keeps what is demanded, if and only if both are demanded: the commits after its answers and its mark |
| RevalidationService.CrashAnswersTwice | services/revalidation-service/src/main.py:13-20 | when the commit after a publish fails, the answer is out, the mark is not, and a redelivery is handled again |
| RevalidationNecessity.CrashCanAnswerTwice | services/revalidation-service/src/main.py:13-20 | unless commits are demanded: a legal run with one failed commit and no purge in which one request is answered twice |
| RevalidationNecessity.PurgeCanAnswerTwice | libs/event_bus/dedup.py:111-125 | unless the mark is demanded: a legal run in which every commit succeeds, the mark is purged and one request is answered twice |
| RevalidationService.ConfiguredBudget | services/revalidation-service/src/config.py:98-101 | the environment can lower the 30 second budget and never raise it: exactly 30 when unset or larger |
| RevalidationService.TimeoutBudget.Expired | services/revalidation-service/src/services/revalidator.py:85-95 | true from the budget on, measured from construction, one clock sample |
| RevalidationService.Service.Revalidate | services/revalidation-service/src/services/revalidator.py:98-159 | result, clock samples and reads are those of the specified revalidation |
| RevalidationService.Service.RevalidateAndPublish | services/revalidation-service/src/handlers/event_handlers.py:140-189 | one more budget check, at most one publish, and the bus grows by exactly the answer; when it is silent, when it raises and what it answers is `SilentMeaning`, `RaisesMeaning` and `AnsweredMeaning` |
| RevalidationService.Service.HandleRevalidationRequest | services/revalidation-service/src/handlers/event_handlers.py:106-189 | the outcome and everything used are those specified for the request and the remembered reference, which the same lemmas and `RefusalMeaning` characterise |
| RevalidationService.Service.Dispatch | services/revalidation-service/src/main.py:92-102 | the handler of the event's type, the countdown starting at delivery: outcome and new state are the specified ones |
| RevalidationService.Service.MarkAndCommit | services/revalidation-service/src/main.py:103-106 | one commit; the mark is there exactly when it succeeded |
| RevalidationService.Service.HandleEvent | services/revalidation-service/src/main.py:76-106 | the new state is the specified delivery: dedup, handler, mark and commit, an exception ending the process |
| RevalidationService.Service.Boots | services/revalidation-service/src/main.py:109-146 | a restart empties the store and keeps bus and marks |
| Pipeline.AnswersMeasureTheDeal | services/revalidation-service/src/services/deal_reference.py:7-12 | fed with DEAL_SCORED from the Deal Engine's bus: every answer is measured against the one announcement of its deal, and for a committed deal against the detected price and listing in its own row |
| Pipeline.NeverCorrupt | libs/validation_rules/revalidation.py:50-56 | so fed, no delivery of any run meets the ValueError |
| ConsumerGroup.RunKeeps | libs/event_bus/consumer.py:107-138 | for any number of workers in any interleaving, delivered entries are the disjoint union of acknowledged and pending ones |
| ConsumerGroup.DeliveriesAreDisjoint | libs/event_bus/consumer.py:118-127 | no entry is delivered by two reads, of the same or of different workers |
| ConsumerGroup.BatchMeaning | libs/event_bus/consumer.py:118-127 | a batch is exactly what lies between the old cursors and the new |
| ConsumerGroup.ReadMeaning | libs/event_bus/consumer.py:118-127 | a read is as large as it can be: of each stream asked for, exactly the next `count` entries, or as many as there are |
| ConsumerGroup.BatchInOrder | libs/event_bus/consumer.py:118-127 | entries of one stream are delivered in their order |
| ConsumerGroup.ParsedMeaning | libs/event_bus/consumer.py:128-138 | every well-formed entry of a reply yields its event under its id, and nothing else yields one |
| ConsumerGroup.FetchedMeaning | libs/event_bus/consumer.py:118-127 | a reply carries the entries behind the ids as they stand in the streams |
| ConsumerGroup.EveryRunAccounts | libs/event_bus/consumer.py:140-165 | in every run, acknowledged by a worker is what it asked to acknowledge, pending on it is whatever else it was given |
| ConsumerGroup.RestStaysPending | libs/event_bus/consumer.py:144-165 | when a handler raises at the k-th event of a batch, exactly it and the parsed events behind it are pending on the worker, in every run of the group |
| ConsumerGroup.BatchStaysPending | libs/event_bus/consumer.py:117-138 | when an entry does not decode, exactly the batch without the malformed entries before it is pending on the worker, well-formed entries before it included, in every run of the group |
| ConsumerGroup.TranscriptSettles | libs/event_bus/consumer.py:157-165 | fully handled batches leave nothing pending |
| ConsumerGroup.EventConsumer.Parse | libs/event_bus/consumer.py:172-194 | a malformed entry is acknowledged at once and yields nothing, an undecodable one raises and a well-formed one yields its event, both left pending |
| ConsumerGroup.EventConsumer.Read | libs/event_bus/consumer.py:107-138 | returns the well-formed entries in delivery order and acknowledges exactly the malformed ones; raises exactly if an entry does not decode, and then has acknowledged exactly the malformed ones before it |
| ConsumerGroup.EventConsumer.HandleBatch | libs/event_bus/consumer.py:161-164 | events are handled and acknowledged in order up to the first that raises, which is not acknowledged |
| ConsumerGroup.EventConsumer.Consume | libs/event_bus/consumer.py:144-165 | over `maxBatches` rounds: the calls made, the number handled and the exact transcript of reads and acknowledgements, also when a handler or a read raises |
| EventStore.Worker.Run | services/event-store-consumer/src/handlers/event_handlers.py:37-59 | over any deliveries, crashes and redeliveries: rows are the first-occurrence de-duplication of what was persisted, numbers strictly increase, no row changes, nothing is acknowledged before its row, and acknowledged is exactly what came valid and met no crash |
| EventStore.Worker.Handle | services/event-store-consumer/src/main.py:53-58 | one delivery: persisted as its crash point allows, acknowledged exactly if valid and without a crash |
| EventStore.AcknowledgedMeaning | services/event-store-consumer/src/main.py:45-58 | of any script of deliveries: acknowledged is what came valid and met no crash, and nothing else |
| EventStore.PersistedMeaning | services/event-store-consumer/src/handlers/event_handlers.py:37-59 | and stored is every valid envelope whose commit came through, acknowledged or not |
| EventStore.EventStoreHandler.Persist | services/event-store-consumer/src/handlers/event_handlers.py:37-59 | invalid envelopes write nothing, duplicates return nothing, a new one gets the next number and is committed |
| EventStore.EventRepository.Insert | services/event-store-consumer/src/repositories/event_repo.py:36-60 | a number is used up even by a conflict; the row is new exactly when the id is |
| EventStore.FirstOccurrencesMeaning | services/event-store-consumer/src/repositories/event_repo.py:21-27 | the de-duplication is exactly the first occurrence of every id, in order |
| EventStore.NumberedMeaning | infra/postgres/migrations/versions/0002_full_schema.py:289 | row numbers are pairwise increasing |
| Connector.PublishBatch | services/marketplace-connector/src/main.py:116-137 | the bus receives exactly the normalizable items reached, in order, and every attempt but the last was taken; it stops at a normalizable item exactly when that publish is refused; a completed batch has published + skipped = fetched |
| Connector.PublishNext | services/marketplace-connector/src/main.py:131-133 | one round: the next normalizable item goes on the bus behind counted skips, or the batch ends: at the end of the fetch, at the fault that ends the iterator, or exactly at a refused publish |
| Connector.Poll | services/marketplace-connector/src/main.py:140-191 | over any cycles: what is on the bus, totals over successful cycles only, one sleep fewer than cycles, connector errors survived and others raised |
| Connector.ProductIterator.Next | services/marketplace-connector/src/base/connector_interface.py:158-195 | yields the next normalizable item, counts each parse failure skipped, passes every other exception on |
| Connector.Normalize | services/marketplace-connector/src/connectors/flipkart/connector.py:67-102 | the field mapping followed by the shared rules: the valid product exactly when every rule holds, the ValueError exactly on an unparseable URL, else a parse failure |
| Connector.UnparseableUrlEndsBatch | services/marketplace-connector/src/main.py:116-137 | an item whose URL `urlparse` raises on ends its batch with an exception that is no connector error, and nothing behind it is reached |
| Connector.TotalsMissFailedCycles | services/marketplace-connector/src/main.py:169-181 | the reported total equals what is on the bus exactly when no failed cycle had published anything |
| Connector.EverythingEmittedIsValid | services/marketplace-connector/src/base/normalizer.py:168-179 | every product ever published satisfies every rule and has a trimmed title |
| Normalizer.Check | services/marketplace-connector/src/base/normalizer.py:100-165 | raises exactly on a URL `urlparse` raises on; otherwise the failing fields are exactly those whose rule is broken |
| Normalizer.CheckUrl | services/marketplace-connector/src/base/normalizer.py:78-97 | raises exactly on a URL `urlparse` raises on, adds the URL exactly when rule 6 is broken otherwise, and touches no other field |
| Normalizer.HostMeaning | services/marketplace-connector/src/base/normalizer.py:69-75 | the suffix test accepts exactly hosts whose last labels are a known domain's |
| Normalizer.StripMeaning | services/marketplace-connector/src/base/normalizer.py:111-113 | stripping takes white space off both ends, all of it and nothing else |
| Normalizer.Validate | services/marketplace-connector/src/base/normalizer.py:168-179 | the trimmed product exactly when every rule holds, the ValueError exactly on an unparseable URL, otherwise exactly the broken fields |
| Normalizer.NormalizedIsValid | services/marketplace-connector/src/base/normalizer.py:168-179 | what is returned satisfies every rule, is trimmed, and validates to itself |
| Paise.Paise | services/marketplace-connector/src/base/raw_mapping.py:167-191 | a parse failure exactly for what denotes no amount, commas anywhere left out; InvalidOperation exactly from half a paise below 10^28 paise on, otherwise the nearest paise exactly outside the double-rounding family; every rendering of an amount reads back |
| Paise.ParseMeaning | services/marketplace-connector/src/base/raw_mapping.py:180-190 | the parser reads exactly the plain decimal notation: sign, digits, optional point, digits |
| Paise.FirstPaise | services/marketplace-connector/src/base/raw_mapping.py:199-210 | the first present amount decides, even by failing; none exactly when all are absent |
| Paise.RoundTrip | services/marketplace-connector/src/base/raw_mapping.py:180-191 | any rendering of an amount, with sign, rupee sign, spaces and commas inserted anywhere, reads back as the amount, for every amount below 10^28 paise and no other |
| Paise.CommasAreIgnored | services/marketplace-connector/src/base/raw_mapping.py:175-183 | a text reads the same with any comma left out |
| Paise.MeansMeaning | services/marketplace-connector/src/base/raw_mapping.py:182-190 | the cleaned text denotes a number exactly when the text is a plain one with a rupee sign or not, spaces around and commas inserted anywhere |
| Paise.NearestWithinPrecision | services/marketplace-connector/src/base/raw_mapping.py:184-191 | up to 26 digits it never raises and is the nearest paise, ties away from zero |
| Paise.NearestExactly | services/marketplace-connector/src/base/raw_mapping.py:191-191 | for all inputs that do not raise: nearest paise if and only if the amount is outside the double-rounding family |
| Paise.DoubleRoundingHappens | services/marketplace-connector/src/base/raw_mapping.py:191-191 | an amount just under half a paise that becomes one |
| Paise.RaisesExactly | services/marketplace-connector/src/base/raw_mapping.py:191-191 | InvalidOperation exactly from half a paise below 10^28 paise on |
| Paise.PaiseMonotone | services/marketplace-connector/src/base/raw_mapping.py:191-191 | of any two amounts that convert, the larger never gives fewer paise, across signs and numbers of decimals, through both roundings |
| Paise.RoundingScales | services/marketplace-connector/src/base/raw_mapping.py:185-191 | trailing zeros do not change what an amount rounds to |

## Left out

- Deal Engine: the columns `update_observation` refreshes, `products`, `brands` and `marketplaces` rows; brand resolution is a parameter of the scoring step.
- Deal Engine: dedup lookup and transaction start are one step, as are the statistics query, the brand lookup and the score.
- Deal Engine: which entries of its batches a worker still has before it is not kept; any worker may start any entry ever delivered, which includes one that another worker has claimed or acknowledged since.
- Deal Engine: the order in which one worker takes the entries of its batch (that is `ConsumerGroup`), lock wait timeouts and deadlock detection (any wait may end in a rollback).
- Other services appear only as lifecycle edges on `deals` under the row lock; their own code is not part of this model.
- PriceHistory: count, first and last time of the window, which nothing reads.
- DealEngineRuns.VerdictFromEarlierPrices: a window of negative length, which the remote configuration does not exclude, is left to `VerdictFromRows`, because it does not select the row just appended.
- Scorer: binary floating point and Python's float rounding; scores are exact reals rounded half to even, and the remote configuration fetch is a parameter.
- RevalidationService: the purge clock (purging is an arbitrary step), log output, JSON envelopes; the fixture reader is an arbitrary sequence of live reads.
- ConsumerGroup: blocking reads that time out are empty responses; `maxBatches = None` and `__iter__` run forever and have no result.
- Liveness: nothing here re-reads pending entries, so redelivery is a step of the environment and no eventual delivery is claimed.
- EventStore: one worker; concurrent writers and `stored_at` are not modelled.
- Connector: field mappings of the four marketplaces, pagination and HTTP; a mapping is an arbitrary function into products or failures.
- Normalizer.Check: `urlparse` is a parameter, any function into parsed URLs or a ValueError, so which texts it raises on is not modelled; `hostname` is the parsed one in lower case, and reasons carry no text.
- Paise.Paise: exponents, underscores, NaN and infinities and non-ASCII digits are outside the plain alphabet; floats arrive as their decimal text.
- Marketplace adapters' field selection (`select`, `identifier`) and the enum registries, the conversion of rows and envelopes to and from dataclasses and JSON, the schema files beyond the bounds named above, and environment parsing beyond the revalidation budget.
