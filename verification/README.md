# Verification of the optimistic relay

A Dafny model of an MEV-Boost relay with optimistic block submission, and proofs of the
guarantees its builders, proposers and validators rely on. `dafny verify dfyconfig.toml` checks
the whole project.

## What is modelled

**The relay as one transition system** (`RelayMachine.dfy`). The state holds the API object's
fields, the auction tables of Redis, the builder and demotion tables of the database, the
submissions being processed, the simulations in flight and the bookkeeping goroutines of
getPayload. The events are single Redis or database operations of those activities, so the
theorems range over every interleaving of any number of concurrent calls. A `Run` is a start state
followed by any finite sequence of enabled events.

| file | component |
|---|---|
| `RelayTypes.dfy`, `Decimal.dfy` | shared values; the decimal text Redis stores integers in |
| `RedisStore.dfy` | auction tables of `datastore/redis.go`, as transitions and as a cache object |
| `Builders.dfy` | builder and demotion tables of `database/database.go` |
| `Submissions.dfy` | checks and dispatch of submitNewBlock |
| `RelayMachine.dfy` | the transition system |
| `CollateralSafety.dfy` | demotion, confinement of failures, sufficiency of collateral |
| `AuctionSafety.dfy` | deliverable headers, top-bid update never empty |
| `Provenance.dfy` | origin of every trace, payload, bid and top bid, field by field |
| `AuctionAgreement.dfy`, `AuctionConvergence.dfy` | top bid against the stored bids; order independence |
| `Refunds.dfy` | completeness and finality of refund evidence |
| `SubmissionCounts.dfy` | conservation of the submission counters |
| `HeadSafety.dfy` | late, repeated and reordered head events |
| `Limits.dfy`, `AuctionLimits.dfy` | runs showing that each hypothesis is needed |
| `RelayApi.dfy` | the API object's handlers, proved to take the machine's steps |
| `SimRateLimiter.dfy` | the condition-variable limiter of block simulations |
| `Registrations.dfy` | timestamp gate, deduplicating insert, Redis timestamps, start-up sync |
| `ProposerDuties.dfy` | duties written by the housekeeper and copied by the API |
| `RandaoTracker.dfy` | the expected prev_randao and its unlocked beacon query |
| `KnownValidators.dfy` | validator indices in Redis and in memory |
| `BeaconClient.dfy` | failover over beacon nodes and the concurrent sync query |

Each of the large theorems is proved on a projection of the machine (`Core`, `Auctions`,
`Ledger`): a small lemma shows how every event moves the projection, and the invariants are
proved about those moves.

The code that updates objects in place is modelled by classes. A handler of the API object takes
steps of the machine: its contract applies `RelayMachine.Apply` to a state that agrees with the
objects before the call and promises one that agrees with them after it. Besides, the contracts say
in terms of the plain fields what is answered and stored. `SaveSubmission` returns
its Redis operations one by one, and `RelayMachine.OperationIsStep` shows each to be a step.

## Assumptions

- Submit is one step, from the delivered-slot check (`services/api/service.go:1203`) through the
  cache read, the dispatch and the increment of the wait group. The code holds no lock over this
  span, and the increment happens inside the new goroutine (`services/api/service.go:467`).
- A cache refresh is one step, taken when no background simulation is in flight
  (`services/api/service.go:561-591`).
- Reading the builder table may fail; the code then moves `optimisticSlot` but keeps the old
  cache (`services/api/service.go:565-571`), and so does the machine. Other database calls succeed,
  except that a demotion row violating `UNIQUE (builder_pubkey, block_hash)` is refused and the
  refusal only logged.
- Any Redis operation of a submission may fail. A delivered slot that cannot be read and a failed
  check for newer payloads are passed over, as in the code; any other failure ends the
  submission. A write that takes effect and still reports an error is the write followed by the
  failure of the next operation. Marking the delivered slot may fail too and is passed over; the
  trace of a delivered payload can be read.
- Nothing stored in Redis expires.
- A run starts with an empty cache and nothing in flight, over any builder and demotion tables
  and any previously stored traces and payloads whose keys agree with them.
- No operator changes statuses or collateral during a run.
- Receive times, beacon answers, simulator replies, the signature check, duties and randao are
  inputs. Duties and randao may change at any moment.
- A simulator request that was closed by the client or lost in transport counts as a failed
  simulation and demotes, because the code treats every error other than "block already known"
  that way.

Hypotheses of single theorems are stated in them:

- `OneDeliveryPerSlot`: at most one delivered block per slot.
- `NeverStale(r, g)`, for failures of collateral group g: no refresh moved the slot without reading
  the table after a block of g had failed, unless the cache shuts the group out anyway.
  `Limits.StaleRefreshSpreadsFailure` gives runs with failures in two slots without it.
- `StaysClosed(r, j)`, for the refund evidence of delivery j: after the bookkeeping of j has waited
  for the simulations, every submission with the delivered key finds the slot closed. It follows
  when j's own delivery mark stands (`Refunds.StandingMarkKeepsClosed`); deliveries of other slots
  do not matter unless they come later and are older. In every run in which such a submission is
  accepted optimistically after all, the evidence can be lost
  (`Refunds.ReopenedBlockLosesEvidence`); `Limits` gives runs in which a late getPayload, an
  unreadable delivered slot and a failed mark do this.
- `OrderlyIn(r, a)`, for the top bid of auction a: its top-bid updates are not interrupted
  (`UninterruptedIn`), no Redis operation of its submissions fails between a bid write and the
  top-bid update after it (`CleanIn`), and no builder has two of its saves in progress at once
  (`SingleIn`). Whatever happens in other auctions, and errors before a bid is written, are
  allowed. For each of the three, `AuctionLimits` gives runs that have the other two and end with
  a wrong top bid.

## Where the code and its comments differ

- `beaconclient/multi_beacon_client.go:182-183` says the client with the last successful response
  comes first. The stored index is a position in the *reordered* list (line 149), so this holds
  exactly under the condition of `BeaconClient.LastResponderComesFirstIff`;
  `LastResponderForgotten` shows it failing.
- `datastore/datastore.go:112` and `services/api/service.go:910` speak of memory, Redis or
  database. A Redis miss is returned as no payload and no error, so the database is consulted only
  when Redis itself fails.
- Randao: "currently being updated" (`services/api/service.go:1047`) does not prevent a second
  query of the same slot after another slot's query failed (`FailureAllowsSecondQuery`).
- The demotion table is keyed by slot, builder and block hash when read and updated, but unique in
  builder and block hash alone. Refund evidence is complete all the same for rows a run writes,
  because failures of one builder share their slot unless a refresh was stale; only a row from
  before the run can block then.

## Model

| member | source | states |
|---|---|---|
| CollateralSafety.CollateralSuffices | services/api/service.go:1379-1384 | In every run with at most one delivered block per slot and no stale refresh for the group, the delivered blocks of a collateral group whose optimistic simulation failed are together worth strictly less than the group's largest collateral; a group without collateral loses none |
| Provenance.DeliveredBlocksAreSubmitted | services/api/service.go:955-978 | The delivered blocks of a run are whole messages of its admitted submissions, or traces stored before the run |
| CollateralSafety.FailuresConfinedToOneSlot | services/api/service.go:464-485 | In every run without a stale refresh for the group, with heads refreshed in any order, all failing optimistic blocks of one collateral group carry the same slot |
| CollateralSafety.FailureFacts | services/api/service.go:1379-1384 | In every run a failed block was worth less than its builder's collateral, and its group is demoted in the table or its own goroutine is about to demote it |
| CollateralSafety.FailureStaysConfined | services/api/service.go:561-591 | Without a stale refresh for the group, a failed block's slot is the current optimistic slot or its group is shut out of the cache |
| CollateralSafety.ReadingIsNeverStale | services/api/service.go:567-590 | If every refresh reads the builder table, none is stale for any group |
| CollateralSafety.RunKeepsCover | services/api/service.go:561-591 | At every reachable state the cache repeats the table's collateral and every block in flight is still covered by it, in the current optimistic slot, by an undemoted entry |
| CollateralSafety.DemotionIsGroupWide | services/api/service.go:436-460 | In any reachable state a failing simulation writes the cached status with the demotion flag to all and only the builders of the group, a single builder when the collateral ID is empty |
| CollateralSafety.DemotionIsSticky | database/database.go:448-505 | Along every run the set of demoted builders only grows |
| CollateralSafety.RefreshAgreesWithTable | services/api/service.go:567-590 | After a refresh that reads the table the slot is the one after the head and the cache has exactly the status and collateral of every row, unreadable collateral counting as zero, so no block of a demoted builder is covered |
| HeadSafety.HeadOnlyAdvances | services/api/service.go:487-521 | Along every run the head only advances, and the optimistic slot never exceeds the slot after it |
| HeadSafety.OptimisticMeansNextSlot | services/api/service.go:561-564 | From a start with both slots in step, with refreshes in any order, a block is accepted optimistically only for the slot right after the newest head |
| Refunds.RefundEvidenceIsComplete | services/api/service.go:975-1025 | Once the bookkeeping of a delivery has settled, and while its key stays closed, the demotion row of the delivered trace exists exactly when it was there initially, or an optimistic submission with its slot, builder and hash failed and no row of that builder and hash at another slot blocks it; only an initial row can block unless a refresh was stale for the group; every such row holds the block as signed in a settled getPayload call for that key, and the registration found then |
| Refunds.RefundForSubmission | services/api/service.go:955-1025 | The same told from the delivered submission: if no other trace was stored under its slot, proposer and hash, the settled key is the slot, builder and hash of its own message, and with a sole payload the signed block completed is its whole payload |
| Refunds.JobTraceIsSubmitted | services/api/service.go:955-958 | The trace the bookkeeping finds was stored before the run or is the whole message of an admitted submission with the delivered slot, proposer and hash |
| Refunds.TracedIsDelivered | services/api/service.go:955-958 | The trace the bookkeeping finds counts as a delivered block |
| Refunds.JobBlockIsSubmitted | services/api/service.go:912-932 | The payload delivered was stored before the run or is the whole payload of an admitted submission with the delivered slot, proposer and hash |
| Refunds.RefundEvidenceIsFinal | services/api/service.go:1203-1216 | While the key stays closed, no step after the settlement adds a failure or a row with the key, and the signed block stays |
| Refunds.StandingMarkKeepsClosed | services/api/service.go:950-953 | The key of a delivery stays closed if its own mark took effect, no later mark is for an older slot, and submissions of its slot can read the delivered slot |
| Refunds.ReopenedBlockLosesEvidence | services/api/service.go:1203-1216 | From every run in which a settled block without a row is submitted again and judged optimistic there is a continuation with a row for it that lacks the signed block |
| Refunds.RunExplainsRows | database/database.go:533-561 | In every run the rows are the initial ones followed by rows of failed blocks, with their slot, builder, hash and whole trace, none conflicting with an earlier one in builder and hash |
| Refunds.FailureHasRow | services/api/service.go:464-485 | A failed block has its row, or the insertion is still pending, or a row of the same builder and hash at another slot blocks it |
| Refunds.BlockingRowIsInitial | database/migrations/003_optimistic.go:39 | Without a stale refresh for the group the uniqueness constraint is never violated across slots by two rows of one run: a blocking row was there from the start |
| Refunds.TraceIsNeverMissing | services/api/service.go:955-958 | The bookkeeping of a delivered payload always finds the bid trace it dereferences |
| AuctionSafety.EveryHeaderIsDeliverable | services/api/service.go:1432-1465 | For all interleavings of single Redis operations, with failures, every top bid published at some point has a positive value, and its trace and a payload with its block hash stored then and ever after |
| Provenance.GetHeaderThenGetPayload | services/api/service.go:912-941 | A getPayload call for a header that was the top bid now or earlier in the run completes the signed block with the whole stored payload; it is the payload the header was made from, field by field, if no other payload was stored under the header's slot, proposer and hash |
| AuctionSafety.UpdateTopBidNeverFails | datastore/redis.go:353-387 | After a submission's value is stored, the scan finds a builder and the builder found has a bid: neither error of the update occurs |
| Provenance.BidProvenance | services/api/service.go:1323-1465 | Every stored bid and top bid offers the header of the payload and the value of a submission for that auction and builder that wrote its payload; at one point of the run it passed every check, its signature included, and at one its simulation succeeded or it was dispatched with collateral above its value, undemoted, in the optimistic slot |
| Provenance.BlockProvenance | services/api/service.go:1426-1446 | Every stored trace not there initially is the whole message, and every such payload the whole payload, of an admitted submission that wrote it under its own slot, proposer and block hash |
| AuctionSafety.StoreGrowsAlong | datastore/redis.go:286-304 | Along every run nothing stored disappears, and stored payloads and traces agree with their keys |
| AuctionSafety.RunKeepsStore | services/api/utils.go:14-24 | At every reachable state each bid is deliverable and of positive value, each recorded value has its bid, and each submission has written what its position says |
| AuctionAgreement.QuiescentAgreement | datastore/redis.go:326-387 | For each auction: with bid, time and value writes of different builders interleaved, its top-bid updates uninterrupted, no Redis error between one of its bids and the update after it, and one save per builder at a time, its top bid is a stored bid of greatest value whenever none of its saves is pending, whatever happens in other auctions or before a bid is written |
| AuctionAgreement.OrderlyRunsAgree | datastore/redis.go:326-351 | The invariant behind it, under the same conditions on the one auction: a bid whose value is not being written has its own value beside it as decimal text |
| AuctionConvergence.OrdersConverge | services/api/service.go:1398-1465 | Two completion orders of the same submissions, with distinct receive times per builder, end with equal bids, times and values, and top bids of the same, greatest value |
| AuctionConvergence.HistoryLeavesNewest | services/api/service.go:1398-1406 | Any completion order leaves each builder's newest received submission as its bid and the greatest of them on top |
| AuctionConvergence.NewestIgnoresOrder | datastore/redis.go:316-323 | Which submission is the newest does not depend on the order in which they complete |
| AuctionConvergence.TiesGoToTheLast | services/api/service.go:1402-1406 | With equal receive times the order matters: the last to complete wins |
| AuctionConvergence.CompletionIsItsSteps | services/api/service.go:1432-1465 | The one-step completion is what the machine's single operations do when nothing interrupts them |
| Limits.RegressionReopensSlot | services/api/service.go:950-953 | For every two blocks of increasing slots there is a run in which a late getPayload moves the delivered slot back and the settled block gets a demotion row without the signed block |
| Limits.UnreadSlotReopens | services/api/service.go:1204-1206 | The same with the delivered slot in place but unreadable at the second submission |
| Limits.FailedMarkReopensSlot | services/api/service.go:950-953 | The same when the delivered slot could not be written |
| Limits.StaleRefreshSpreadsFailure | services/api/service.go:565-571 | For every two blocks of one builder for consecutive slots, both within its collateral, there is a run in which a refresh that cannot read the table lets both be accepted optimistically and fail |
| AuctionLimits.InterruptedUpdateLeavesLowerTop | datastore/redis.go:353-387 | For every two rival bids there is a run without errors and with one save per builder in which an interrupted top-bid update leaves the lower bid on top although nothing is pending |
| AuctionLimits.ErrorLeavesBidUnpublished | datastore/redis.go:326-334 | For every bid there is a run without interruption and with one save per builder in which an error after the bid write leaves a stored bid without a top bid and nothing pending |
| AuctionLimits.OverlappingSavesMislead | datastore/redis.go:326-351 | For every three bids, two of one builder around another's, there is a run without errors and interruption in which the builder's overlapping saves leave its higher bid beside its lower value and the other builder's bid on top |
| RelayMachine.UpdateTopIsItsSteps | datastore/redis.go:353-387 | The uninterrupted top-bid update equals scan, read and write in a row |
| RelayMachine.OperationIsStep | services/api/service.go:1398-1465 | Every Redis operation of a submission, successful or failing, is an enabled step of the machine with exactly its effect |
| Submissions.OptimisticIff | services/api/service.go:1218-1392 | A submission is dispatched optimistically exactly when it reaches simulation and is covered; whatever reaches simulation has positive value, matching hashes, the expected randao and a slot after head and delivered slot |
| Submissions.DeliveredSlotGuardsIff | services/api/service.go:1203-1216 | Whatever the view, a submission is judged as if nothing had been delivered exactly when the delivered slot lies before its own; so one acceptable otherwise is accepted exactly then |
| Submissions.JudgeIsVerdict | services/api/service.go:1203-1392 | The machine's verdict is the only one that fits the description of the thirteen checks: the first failing check decides the answer; a submission failing none is simulated, in the background exactly if its value is below the cached collateral of an undemoted builder and its slot the optimistic one |
| SubmissionCounts.CountsAreConserved | database/database.go:448-472 | At every point of a run, for every builder: submissions counted plus submissions in progress are those counted before plus those that passed the checks since; errors counted plus errors about to be are those before plus the awaited simulations that failed since |
| Builders.SetStatusIsGroupWide | database/database.go:488-505 | A status write gives the status to all and only the builders sharing the writer's collateral, leaves every other field alone and changes no group |
| Builders.UpsertKeepsGroups | database/database.go:448-472 | An upsert counts one submission, and one error if it was one, for the builder alone, records the slot and leaves status, collateral and group of every row alone; a new row has no flag and no collateral |
| Builders.InsertIsInserted | database/database.go:533-561 | An insertion adds a row with the trace's slot, builder and hash, the whole trace and no refund data, unless builder and hash are taken |
| Builders.UpdateDemotions | database/database.go:563-580 | Exactly the rows with the key take the signed block and registration; keys and traces stay |
| Builders.DatabaseService.SetBlockBuilderStatus | database/database.go:488-505 | One row or all rows with the same collateral ID get the status; an unknown builder is an error |
| Builders.DatabaseService.UpsertBlockBuilderEntryAfterSubmission | database/database.go:448-472 | The new table, counters included |
| Builders.DatabaseService.InsertBuilderDemotion | database/database.go:533-561 | A row with slot, builder and hash of the trace and the whole trace is appended, or refused exactly when builder and hash are taken |
| Builders.DatabaseService.UpdateBuilderDemotion | database/database.go:563-580 | The rows with slot, builder and hash take block and registration, all else is kept |
| Builders.DatabaseService.GetBuilderDemotion | database/database.go:582-591 | A row with the key is found exactly when there is one |
| RedisStore.RedisCache.SaveLatestBid | datastore/redis.go:326-351 | Bid, receive time and value of the builder are replaced in this order, up to the write that fails, and nothing else |
| RedisStore.RedisCache.UpdateTopBid | datastore/redis.go:353-387 | For any map order the scan ends with a builder of greatest positive value, or without one exactly when no value is positive; the answer and the new top bid follow from that choice and from the call that fails, if any, and errors change nothing |
| RedisStore.RedisCache.SaveTrace | datastore/redis.go:301-304 | The whole trace is stored under its slot, proposer and hash, unless the write fails; nothing else changes |
| RedisStore.RedisCache.SavePayload | datastore/redis.go:286-289 | The whole payload is stored under the key, unless the write fails; nothing else changes |
| RedisStore.RedisCache.SetStatsLastDelivered | datastore/redis.go:243-245 | The delivered slot is overwritten, whatever it was |
| RedisStore.TopBuilderExists | datastore/redis.go:361-376 | The scan has a builder to choose exactly when some recorded value is positive |
| Decimal.ParseIntOfText | datastore/redis.go:365-367 | Reading back the text of a value gives the value |
| Decimal.TextIsDecimal | datastore/redis.go:346 | The text of a value consists of digits 0 to 9, has the value by position, and no leading zero |
| Decimal.TextIsInjective | datastore/redis.go:346 | Different values have different texts |
| RelayApi.RelayAPI.UpdateOptimisticSlot | services/api/service.go:561-591 | The slot becomes the one after the head; the loop over the builders, in any order, gives every builder of the table its row's status and collateral, unreadable collateral counting as zero, and drops no entry; a table that cannot be read leaves the cache alone; this is the machine's refresh step |
| RelayApi.RelayAPI.CheckSubmission | services/api/service.go:1203-1392 | The first of the thirteen checks the submission fails decides the answer, as listed check by check, and one that fails none is simulated in the background exactly if it is covered; a delivered slot that cannot be read is no check |
| RelayApi.RelayAPI.DemoteBuilder | services/api/service.go:436-460 | All builders sharing the collateral get the flags cached for the builder, demoted in any case, and the demotion row is inserted |
| RelayApi.RelayAPI.ProcessOptimisticBlock | services/api/service.go:464-485 | Demotes exactly when the reply is neither success nor "already known", otherwise leaves the database alone; these are the machine's steps, after which the block is no longer in flight |
| RelayApi.RelayAPI.SaveSubmission | services/api/service.go:1398-1465 | For every combination of failing calls, exactly when each answer is given: newer payload seen; a write failed; stored; no bids, missing bid or Redis failure in the update. Once written, trace, payload, bid, time and value are the submission's own and the top bid is the chosen builder's exactly if the answer is stored; a positive value without failures over a store whose values have bids is always stored; the calls made are a sequence of the machine's operations |
| RelayApi.RelayAPI.HandleGetHeader | services/api/service.go:823-858 | In every reachable state the auction's top bid is returned exactly when there is one and its slot is not past: it is deliverable, and the branch for a bid without value is never taken |
| RelayApi.RelayAPI.HandleGetPayload | services/api/service.go:910-941 | While Redis answers, the answer is the signed block with the whole payload stored under its slot, proposer and hash, or a refusal if there is none, whatever the database holds; in every reachable state this is what the machine delivers, and never a refusal when it was signed for a header published earlier in the run |
| RelayApi.OwnValueIsPositive | services/api/service.go:1304-1309 | A submission of positive value leaves its auction with a positive value, so the update finds bids |
| RelayApi.RelayAPI.RecordRefund | services/api/service.go:978-1025 | Rows with the delivered slot, builder and hash get the signed block and the registration, exactly when there are any; all else stays; this is the machine's refund step |
| SimRateLimiter.LimitIsExact | services/api/blocksim_ratelimiter.go:50-63 | In every schedule with a positive limit, running plus signalled requests number exactly min(counter, limit): the limit is never exceeded and nobody waits while there is room |
| SimRateLimiter.StepKeepsCounts | services/api/blocksim_ratelimiter.go:50-63 | The counting invariant is kept by every atomic section, although waiters do not check again |
| SimRateLimiter.NoLimitNoWaiting | services/api/blocksim_ratelimiter.go:53-55 | Without a positive limit nobody ever waits |
| SimRateLimiter.NeverStuck | services/api/blocksim_ratelimiter.go:58-63 | Unless every send has returned, some step is possible |
| SimRateLimiter.RunLengthBound | services/api/blocksim_ratelimiter.go:50-78 | Every step uses up some of the work left |
| SimRateLimiter.EverySendReturns | services/api/blocksim_ratelimiter.go:50-83 | A schedule of finitely many sends has at most four steps each; no step is left exactly when all have returned, with the counter at zero and no waiter |
| SimRateLimiter.BlockSimulationRateLimiter.SendEnter | services/api/blocksim_ratelimiter.go:51-56 | The request is counted and waits exactly when the limit is positive and was reached |
| SimRateLimiter.BlockSimulationRateLimiter.SendLeave | services/api/blocksim_ratelimiter.go:58-77 | Returning, also after a closed context, uncounts the request and wakes one waiter if there is one |
| Registrations.DeduplicationLosesNothing | services/api/service.go:735-742 | For every sequence of registrations gated and saved one at a time, the newest row has the fee recipient and gas limit of the greatest-timestamp registration seen, although duplicates are skipped; empty stores are one place to start (`FreshStoresKeep`) |
| Registrations.GateKeeps | datastore/datastore.go:95-110 | Gate, insert and timestamp keep that relation for one registration |
| Registrations.DatabaseRuleKeepsPrefsIff | database/database.go:124-135 | The insert rule alone keeps it exactly when the registration is not an older one that differs from the newest row yet postdates it |
| Registrations.DatabaseRuleAloneLosesPrefs | database/database.go:124-135 | From an empty table on, the rule alone loses preferences |
| Registrations.HistoriesAreWellShaped | database/database.go:124-145 | In every sequential run from well-shaped histories, empty ones for instance, crashes and ungated saves included, each pubkey's rows keep strictly increasing timestamps, and neighbours that differ in fee recipient or gas limit |
| Registrations.LatestIsLast | database/database.go:137-172 | In such a history the row of greatest timestamp is the last one |
| Registrations.CoverLostIffCrashAfterInsert | datastore/datastore.go:95-110 | Redis falls behind the table exactly when a crash separates an inserted row from its timestamp; Redis timestamps never decrease |
| Registrations.SyncRecovers | services/housekeeper/housekeeper.go:311-329 | After a sync, until the next crash, Redis is at least as new as the newest row for every pubkey |
| Registrations.SyncIsMaximum | services/housekeeper/housekeeper.go:311-329 | In every run a sync raises each timestamp exactly to the greater of the known one and the newest row's |
| Registrations.RegistrationService.UpdateValidatorRegistrationsInRedis | services/housekeeper/housekeeper.go:311-329 | For any order of rows every timestamp becomes the greater of the known one and the newest row's |
| Registrations.RegistrationService.SaveValidatorRegistration | datastore/datastore.go:95-110 | Database first, then Redis, with a crash possible in between |
| Registrations.RegistrationService.SetValidatorRegistrationTimestampIfNewer | datastore/redis.go:199-208 | The timestamp is replaced only by a newer one |
| ProposerDuties.DutiesWindow | services/api/service.go:523-547 | For any missed slots, the API's duties at head H contain a slot of H..H+10 exactly when its proposer was registered at the housekeeper write the API's copy came from, with that registration; without such a write they are empty |
| ProposerDuties.CopyFromTheStart | services/housekeeper/housekeeper.go:224-233 | If the first head is at least 16 the API has such a copy after every head |
| ProposerDuties.RunIsTimely | services/housekeeper/housekeeper.go:231-233 | After every head the housekeeper's write is less than 16 slots old, the API's copy less than 8, and the copy's source less than 16 slots older than the copy |
| ProposerDuties.RefreshesIff | services/housekeeper/housekeeper.go:231-233 | In every run the duties are written exactly at heads that are multiples of 16 or 16 past the last write, and copied exactly at multiples of 8 or 8 past the last copy |
| ProposerDuties.WindowInsideEpochs | services/api/service.go:530-533 | Those lags keep H..H+10 inside the two epochs written |
| ProposerDuties.WindowIsTight | services/api/service.go:530-533 | For every schedule of proposers and every set of registrations with the proposer of slot 64 there is a run in which the API's duties after head 53 lack slot 64 |
| ProposerDuties.DutyMapOfList | services/api/service.go:537-540 | The map of a duty list has exactly the slots of registered proposers, with their registrations |
| ProposerDuties.Housekeeper.UpdateProposerDuties | services/housekeeper/housekeeper.go:224-308 | Writes exactly when due and all needed calls succeed: entries for exactly the slots of the epoch, and of the next one if its duties could be had, whose proposer is registered; otherwise nothing changes |
| ProposerDuties.ApiDuties.UpdateProposerDuties | services/api/service.go:523-559 | Copies the map of the stored list exactly when due and the list can be read; otherwise nothing changes |
| RandaoTracker.ExpectedSlotIsMonotone | services/api/service.go:1066-1079 | For all interleavings the expected slot never decreases |
| RandaoTracker.ExpectedIsAnAnswer | services/api/service.go:1055-1079 | The expected value is a beacon node's answer for the slot before the expected one |
| RandaoTracker.AnswersAreRecorded | services/api/service.go:1066-1079 | No answer is lost: the expected slot is never behind an answered one, and an answer for the expected slot or a later one is what is expected from then on |
| RandaoTracker.QueriesBoundedByFailures | services/api/service.go:1044-1064 | A slot is queried at most once more than there were failures, so at most once in a failure-free run |
| RandaoTracker.FailureAllowsSecondQuery | services/api/service.go:1058-1064 | For every two slots: when a query of the later one fails, the earlier one is queried a second time while its first query is in flight |
| RandaoTracker.NoSecondQueryWithoutFailure | services/api/service.go:1044-1053 | While a slot is being queried and no query has failed since that one began, every further call for the slot aborts |
| RandaoTracker.QueryBeginsIff | services/api/service.go:1044-1053 | In every run a call goes on exactly when its slot is not behind the expected one and exceeds every slot begun since the last failure |
| RandaoTracker.UpdatingIsGreatestBegun | services/api/service.go:1052-1064 | The slot recorded as being updated is the greatest one begun since the last failure |
| RandaoTracker.AcceptedBlockCarriesBeaconRandao | services/api/service.go:1323-1336 | Every block that reaches simulation carries a beacon answer for its slot |
| RandaoTracker.RandaoUpdater.BeginUpdate | services/api/service.go:1044-1053 | A call goes on exactly when the slot is neither known nor being updated |
| RandaoTracker.RandaoUpdater.EndUpdate | services/api/service.go:1057-1079 | The second locked section, for an answer and for a failure |
| KnownValidators.Housekeeper.UpdateKnownValidators | services/housekeeper/housekeeper.go:195-216 | Skipping what was saved before leaves the table that set-if-absent of everything leaves; a failed write is not remembered |
| KnownValidators.StoredIndicesNeverChange | datastore/redis.go:187-189 | Over any rounds stored indices never change, every new one comes from a round, and a missing one never had a successful write |
| KnownValidators.ParsedIndex | datastore/redis.go:168-181 | An index survives the table exactly when it fits 64 bits |
| KnownValidators.LowerIsLowerCase | datastore/redis.go:35-37 | The stored field is the key's text with A to Z replaced by a to z, character by character |
| KnownValidators.Datastore.RefreshKnownValidators | datastore/datastore.go:52-68 | The copy equals the table's readable entries, and every byIndex entry inverts byPubkey; a table that cannot be read leaves both indexes as they are |
| KnownValidators.SizeOfIndex | datastore/datastore.go:58-61 | The index has at most as many entries, and as many exactly when indices are distinct |
| KnownValidators.IndexesAgree | datastore/datastore.go:58-66 | byIndex is the full inverse exactly when no two validators share an index, exactly when the sizes agree |
| BeaconClient.FailoverIsComplete | beaconclient/multi_beacon_client.go:135-195 | After any history of calls, a call asks a permutation of the instances, stops at the first that answers, and fails exactly when none does |
| BeaconClient.ReorderingIsPermutation | beaconclient/multi_beacon_client.go:184-195 | The reordered list holds every instance as often as before |
| BeaconClient.ReorderingKeepsDistinct | beaconclient/multi_beacon_client.go:184-195 | Distinct instances are asked at most once each |
| BeaconClient.LastResponderComesFirstIff | beaconclient/multi_beacon_client.go:149 | The instance that answered comes first in the next call exactly when the list was not reordered or the answer came from a position the reordering left alone |
| BeaconClient.LastResponderForgotten | beaconclient/multi_beacon_client.go:182-195 | With two nodes, a node that answers twice in a row is asked second afterwards |
| BeaconClient.MultiBeaconClient.BeaconInstancesByLastResponse | beaconclient/multi_beacon_client.go:184-195 | The client's own list, or a fresh copy with the stored position swapped to the front |
| BeaconClient.MultiBeaconClient.FirstResponse | beaconclient/multi_beacon_client.go:135-180 | Which instances are asked, whose answer is returned, and which index is stored |
| BeaconClient.BestSyncStatus | beaconclient/multi_beacon_client.go:75-125 | For every completion order a synced status is returned exactly when some node answered synced, and each error exactly under its condition |

## Left out

- HTTP routing, gzip, JSON decoding and the early header-only parse with its additional signature check: a submission starts decoded.
- BLS signatures, block and payload hashing, signing domains: the outcome of the check is a field of the submission.
- The Redis and Postgres clients and SQL text: tables are maps and sequences with the transition each query makes.
- The 45-second expiry of auction data: with it, deliverability holds only while nothing has expired.
- The unlocked span of Submit, and the increment of the wait group inside the new goroutine: a refresh in between could see no block in flight.
- Failing database calls, apart from the unread builder table and the refused demotion row: a status write that fails leaves the builder undemoted.
- A failing read of a delivered payload's trace, after which the code goes on with an empty trace.
- A process that stops with blocks in flight or with bookkeeping unfinished, and several API processes sharing one database.
- Operator endpoints for status and collateral: they void the assumption that neither changes.
- GetPayload checks before the payload lookup (proposer index, signature) and the second lookup after a pause.
- RelayApi.RelayAPI.HandleGetPayload: a block completed from the database while Redis fails is not followed further; the machine delivers from Redis only.
- SaveDeliveredPayload, builder statistics, block publication: they touch none of the modelled tables.
- 64-bit wrap-around of slots, except in the expected timestamp and the refresh lags.
- Public key case, except for known validators: keys are taken in the form they are stored in.
- A recorded value that is no decimal number: it reads as zero; only texts written by the relay occur in a run.
- ProposerDuties.DutiesWindow: the services' calls succeed, heads are handled by the housekeeper before the API, and the two `isUpdatingProposerDuties` flags never suppress an update.
- Registrations.DeduplicationLosesNothing: registrations of one pubkey are processed one at a time; the queue between gate and save is a step of its own only as the ungated save in sequential runs.
- PublishBlock and GetRandao of the multi-beacon client: the same loop as FetchValidators, over a list in fixed or remembered order.
- Data API, website, command line, housekeeper timers, metrics and logging.
