# Arena: a verified model

Arena runs a game in which software agents trade goods for gold. Agents get tasks with deadlines and
answer with one result each; in every round of a game they publish intents, ask each other,
negotiate and agree on deals; deals are paid for by unattended workers through an external
facilitator, within the limits of a mandate the user signed. This project models the parts of that
system in which a mistake costs money or fairness, and proves what they promise over whole runs.

- **The Agent-driven market** (`A2aMarket`, `MarketInvariant`, `MarketRuns`, `MarketReplay`,
  `MarketTheorems`, `MarketInFields`, `MarketOracle`): the protocol oracle with its eleven dictionaries is a class
  whose methods are proved to perform five transitions; one invariant links the dictionaries; the
  theorems speak of every state any sequence of calls can reach, and say in fields of intents, requests,
  engagements and Deals exactly when each call succeeds.
- **Unattended settlement** (`SettlementTables`, `SettlementProtocol`, `SettlementSafety`,
  `SettlementOutcomes`, `SettlementExclusion`, `SettlementRelease`): each SQL statement is one atomic guarded step, each execution of a worker a
  program counter, and a crash is possible between any two steps. At most one settle per intent holds
  without timing assumptions. Exclusion per facilitator does not follow from the statements alone:
  marking an attempt checks the lease owner and not the lease. The theorem says exactly how late a
  worker may mark, which is not at all.
- **The mandate ledger and the settlement coordinator** (`MandateLedger`, `LedgerInvariant`,
  `LedgerSteps`, `LedgerRuns`, `LedgerEffects`, `PaymentRepository`, `SettlementCoordinator`): running
  totals against sums over reservations, what each call does to them, and when an amount may be given back.
- **Matching** (`Ordering`, `Matching`, `Liquidity`, `FcfsMarket`, `FcfsRound`): the greedy count is a maximum
  matching, the published minimum is a true minimum, and first-come pairing is a serial dictatorship
  with at least half of the optimum.
- **Exactly-once results** (`CandidateValidation`, `TaskStore`, `TaskInvariant`, `TaskRuns`,
  `TaskBatches`, `TaskRepository`): tasks and results in one-to-one correspondence, deadlines,
  finalizer, consumer, and a log that agrees with the state.
- **From candidates to deals** (`Money`, `DecimalRounding`, `PriceChecks`, `MarketCandidates`): what candidate
  validation checks of a wire price, what its conversion to atomic units makes of it, and that every deal
  stays within cash and holdings.
- **Smaller machines**: bounded negotiation (`NegotiationProtocol`), the sliding-window rate limiter
  (`RateLimiter`), and world events and game phases (`World`, `Game`, `ScheduleBounds`).

State that the system updates in place is a class; its methods are proved equal to transition
functions on values, and everything about runs is proved of those functions.

Some promises do not hold of the code in general. Each is stated with an input or a run that breaks it and
with its exact condition:

- Exclusion per facilitator holds in all runs exactly when marking is never later than the fence lease.
- A cleanup never gives back an amount under settlement exactly when only owners of an attempt clean up. The
  code does not ask, so a slow worker whose attempt was taken over releases its successor's amount.
- The public directory answers a fit buyer exactly when everything it lists can be shown: one listed price
  above the gold bound takes the whole directory down.
- The precision check means "at most six places" exactly for prices of at most 28 digits or six places, and
  an accepted price is converted exactly when its rounded amount is within the gold bound.
- No reveal is refused exactly when the prices of every scheduled round stay in bounds. A reveal records its
  event before it computes the prices, so a price out of bounds leaves a round that waits for its reveal
  while every further reveal is refused as a duplicate.
- Gold amounts are read back from their text exactly when they have at most 28 significant digits.

`dafny verify dfyconfig.toml` checks the whole project.

## Model

| member | source | states |
|---|---|---|
| `MarketOracle.AgentDrivenMarket.PublishIntent` | arena_game/a2a_market.py:207-235 | the new state and answer are those of the publish transition (replay by result, id reuse, one intent per participant and round, claim of the result), and the market invariant is kept |
| `MarketOracle.AgentDrivenMarket.PublicDirectory` | arena_game/a2a_market.py:237-295 | fails exactly for an unknown, non-buyer or expired requester and when something listed, or the session itself, cannot be put on the wire; otherwise returns exactly the listed intents, each once, by id, without private limits, expiring with the earliest of requester and entries |
| `MarketOracle.AgentDrivenMarket.CollectEntries` | arena_game/a2a_market.py:254-281 | the loop yields the listed entries exactly if each of them can be shown, and stops at the first that cannot |
| `MarketOracle.AgentDrivenMarket.CheckRequest` | arena_game/a2a_market.py:327-381 | the checks of a new request in order, the scan for an open request included |
| `MarketOracle.AgentDrivenMarket.HasUnresolved` | arena_game/a2a_market.py:339-351 | the scan finds a pending or engaged request of the buyer if and only if there is one |
| `MarketOracle.AgentDrivenMarket.CheckTerms` | arena_game/a2a_market.py:546-585 | the checks on a deal's terms in order |
| `MarketOracle.AgentDrivenMarket.SubmitRequests` | arena_game/a2a_market.py:303-397 | performs the submit transition with all its refusals and keeps the invariant |
| `MarketOracle.AgentDrivenMarket.EngageRequest` | arena_game/a2a_market.py:417-474 | performs the engage transition: replay, ownership, status, busy mark on refusal, both slots reserved on success |
| `MarketOracle.AgentDrivenMarket.CloseEngagement` | arena_game/a2a_market.py:476-509 | performs the close transition: rejection needs its own result, a timeout has none, slots are freed and the request is declined |
| `MarketOracle.AgentDrivenMarket.FreezeDeal` | arena_game/a2a_market.py:511-617 | performs the freeze transition: terms, binding opening, claims of proposal and acceptance, permanent Deal |
| `MarketOracle.AgentDrivenMarket.ReleaseSlots` | arena_game/a2a_market.py:673-678 | frees the slots of both sides, and only where this engagement holds them |
| `MarketOracle.AgentDrivenMarket.ClaimResults` | arena_game/a2a_market.py:680-700 | claims a batch all or nothing: granted exactly when no result has authored another action, in the table or in the batch |
| `MarketInvariant.PublishKeepsInv` | arena_game/a2a_market.py:207-235 | publishing keeps every link between the eleven dictionaries |
| `MarketInvariant.SubmitKeepsInv` | arena_game/a2a_market.py:303-397 | submitting keeps the invariant: one open request per buyer intent, distinct sellers, budget |
| `MarketInvariant.EngageKeepsInv` | arena_game/a2a_market.py:417-474 | engaging keeps the invariant, including the refused case |
| `MarketInvariant.CloseKeepsInv` | arena_game/a2a_market.py:476-509 | closing keeps the invariant: live engagements and reserved slots stay in step |
| `MarketInvariant.FreezeKeepsInv` | arena_game/a2a_market.py:511-617 | freezing keeps the invariant: each accepted engagement has its Deal and owns its claims |
| `MarketRuns.StepKeepsInv` | arena_game/a2a_market.py:186-205 | any call of any kind keeps the invariant, so it holds after every run |
| `MarketTheorems.SlotReservedExactlyByLiveEngagement` | arena_game/a2a_market.py:417-509 | after any run a (game, round, participant) slot is reserved by e if and only if e is active or accepted and names that participant in that round |
| `MarketTheorems.OneDealPerParticipantPerRound` | arena_game/a2a_market.py:511-617 | over any run a participant is party to at most one Deal per game round |
| `MarketTheorems.DealsAreFair` | arena_game/a2a_market.py:561-585 | every Deal joins a buy and a sell intent of one game, round and good, by different participants, at a price within both private limits |
| `MarketTheorems.EveryDealHasOppositeAuthors` | arena_game/a2a_market.py:546-560 | every Deal was frozen by a call whose proposer and accepter are its two parties |
| `MarketTheorems.DealsNeverShareAResult` | arena_game/a2a_market.py:680-700 | two Deals never share a proposal or acceptance result, also when a proposal is the opening of its own request |
| `MarketTheorems.RfqBudget` | arena_game/a2a_market.py:339-381 | a buyer intent makes at most max_outbound_rfq requests, each to a different seller, of which at most one is pending or engaged |
| `MarketTheorems.EngagedExactlyWhileLive` | arena_game/a2a_market.py:439-509 | a request is engaged if and only if it has a live engagement |
| `MarketTheorems.PendingBuyerSlotIsFree` | arena_game/a2a_market.py:439-474 | while a request is pending, the slot of its buyer is free |
| `MarketTheorems.OnlyTheSellerCanBeBusy` | arena_game/a2a_market.py:439-474 | counterparty_busy is answered only because the seller's slot is taken |
| `MarketTheorems.DirectoryListsExactlyTheAskable` | arena_game/a2a_market.py:237-295 | for a buyer free to ask, the directory at t answers if and only if everything it lists can be shown (price within the gold bound, identifiers within the wire's), and an untried seller accepts a request at t if and only if it is listed |
| `MarketTheorems.DirectoryCanFail` | arena_game/a2a_market.py:271-281 | a published seller priced above the gold bound makes the directory fail for a buyer who could still ask it |
| `MarketTheorems.PriceShowsExactlyWithinBound` | arena_game/money.py:49-57 | a price prints if and only if it is within the gold bound, and the wire then reads it back exactly |
| `MarketReplay.RunsLoseNothing` | arena_game/a2a_market.py:186-205 | over any run intents, requests, claims and deals are permanent and closed engagements final |
| `MarketReplay.SuccessfulCallsReplay` | arena_game/a2a_market.py:207-235 | repeating a successful call after any further run answers with the same record and changes nothing |
| `MarketReplay.FailuresLeaveNoTrace` | arena_game/a2a_market.py:445-451 | a failing call changes nothing, except the busy mark of a refused engagement |
| `MarketInFields.OneIntentPerParticipantAndRound` | arena_game/a2a_market.py:221-227 | after any run two intents of the same game, round and participant are the same intent |
| `MarketInFields.PublishedExactlyWhenFirst` | arena_game/a2a_market.py:207-235 | after any run an intent with fresh intent and result ids is published if and only if its participant has no intent in that game and round; it is then stored as given |
| `MarketInFields.ReservedMeansBusy` | arena_game/a2a_market.py:650-678 | a slot is reserved if and only if some active or accepted engagement has an intent of that game, round and participant |
| `MarketInFields.OneEngagementPerSeat` | arena_game/a2a_market.py:417-474 | a participant is in at most one active or accepted engagement per game and round |
| `MarketInFields.OneDealPerSeat` | arena_game/a2a_market.py:511-617 | after any run two Deals naming the same participant, whose intents are of the same game and round, are the same Deal |
| `MarketInFields.RequestedExactlyWhenAllowed` | arena_game/a2a_market.py:303-397 | after any run a new request is taken if and only if both intents exist, are counterparts and unexpired, the opening price is within the buyer's limit, neither side is engaged, nothing of the buyer is unanswered, the seller was not asked before and the budget is not used up |
| `MarketInFields.ListedMeans` | arena_game/a2a_market.py:254-281 | an intent is listed to a buyer if and only if it is a counterpart, unexpired and not engaged |
| `MarketInFields.EngagedExactlyWhenAllowed` | arena_game/a2a_market.py:417-474 | after any run a new selection engages if and only if the actor is the seller of a pending request and both sides are free; the engagement then names exactly the two intents of the request and their owners, who are both busy afterwards |
| `MarketInFields.ClosedExactlyWhenAllowed` | arena_game/a2a_market.py:476-509 | after any run an active engagement closes if and only if a rejection names a result that authored nothing else or a timeout names none; it is then rejected or timed out and its request declined |
| `MarketInFields.ClosingFreesBothSeats` | arena_game/a2a_market.py:476-509 | closing leaves both participants free in that round |
| `MarketInFields.FrozenExactlyWhenAllowed` | arena_game/a2a_market.py:511-617 | after any run an active engagement is frozen if and only if the parties, opening, limits and identifiers are in order and its results are unused or its own; the Deal then carries the terms given |
| `SettlementTables.SettlementSource.Claim` | arena_payments/postgres_worker.py:166-217 | insert, or takeover of an early attempt whose lease ran out, for the same facilitator |
| `SettlementTables.SettlementSource.Mark` | arena_payments/postgres_worker.py:219-285 | update guarded by the lease owner alone; terminal statuses give up the lease |
| `SettlementTables.SettlementSource.TakeFence` | arena_payments/postgres_worker.py:287-337 | one fence per facilitator, granted only if nothing of it is unresolved and the old lease has expired |
| `SettlementTables.SettlementSource.DeleteFence` | arena_payments/postgres_worker.py:339-358 | delete guarded by facilitator, intent and owner |
| `SettlementTables.SettlementSource.Defer` | arena_payments/postgres_worker.py:360-385 | moves the lease of an early attempt of the owner |
| `SettlementTables.SettlementSource.RecordRecovered` | arena_payments/postgres_worker.py:89-131 | records a found transaction and drops the fence of that intent |
| `SettlementTables.ClaimInColumns` | arena_payments/postgres_worker.py:166-217 | a claim succeeds if and only if there is no row or an early row of that facilitator whose lease ran out; every column afterwards |
| `SettlementTables.MarkInColumns` | arena_payments/postgres_worker.py:219-285 | a mark succeeds if and only if the worker owns the row; a final status clears owner and lease, any other keeps them |
| `SettlementTables.FenceInColumns` | arena_payments/postgres_worker.py:287-337 | a fence is granted if and only if no unrecorded attempt of the facilitator is submitting or unknown and the old fence has expired; every column afterwards |
| `SettlementTables.DropsInColumns` | arena_payments/postgres_worker.py:339-358 | a worker drops exactly its own fence of that intent; a recovery drops the fence of the recovered intent and no other |
| `SettlementTables.DeferInColumns` | arena_payments/postgres_worker.py:360-385 | a deferral succeeds if and only if the worker owns an early attempt, and moves the lease alone |
| `SettlementSafety.StepKeepsInv` | arena_payments/automatic_worker.py:222-348 | every step of every worker, crash, takeover or recovery keeps the protocol invariant |
| `SettlementSafety.RunsKeepInv` | arena_payments/automatic_worker.py:128-176 | the invariant holds after every interleaving |
| `SettlementSafety.AtMostOneSettle` | arena_payments/automatic_worker.py:286-310 | whatever the timing, at most one execution passes the submitting mark of an intent and at most one external settle is started for it |
| `SettlementOutcomes.StatusTellsTheAnswer` | arena_payments/automatic_worker.py:301-324 | over any run, once a settle was started for an intent its attempt is failed only if some step of the run answered it with a definite rejection, submitted only after a stored acceptance, unknown only in doubt |
| `SettlementOutcomes.AnswerDecidesTheStatus` | arena_payments/coordinator.py:183-211 | over any run an ambiguous answer leaves the attempt submitting or unknown, a rejection submitting or failed, an acceptance never failed |
| `SettlementOutcomes.AmbiguousExecutionsKeepTheFence` | arena_payments/automatic_worker.py:319-324 | over any run an execution whose settle was answered ambiguously takes no later step that gives up its fence |
| `SettlementOutcomes.FencesSurviveRuns` | arena_payments/postgres_worker.py:287-358 | over any run the fence of such an execution stays as it is until a transaction is recorded for its intent |
| `SettlementOutcomes.CommittedExecutionsNeverCleanUp` | arena_payments/automatic_worker.py:286-348 | over any run an execution that heard its submitting mark succeed never cleans up or defers afterwards |
| `SettlementExclusion.TimelyRunsStayExclusive` | arena_payments/postgres_worker.py:287-358 | if a worker marks submitting only while its own fence lease is unexpired, at most one attempt per facilitator is ever unresolved |
| `SettlementExclusion.LatenessBreaksExclusion` | arena_payments/postgres_worker.py:274-275 | any positive lateness admits a run with two unresolved attempts of one facilitator |
| `SettlementExclusion.ExclusionExactlyWhenTimely` | arena_payments/postgres_worker.py:219-358 | exclusion holds in all runs if and only if no marking is later than the fence lease |
| `SettlementExclusion.AsWrittenExclusionCanFail` | arena_payments/postgres_worker.py:274-275 | the statements alone, which do not look at the lease when marking, admit a run that breaks exclusion |
| `SettlementRelease.CleanupIsSafeExactlyWhenOwned` | arena_payments/automatic_worker.py:322-348 | no run gives back, by a cleanup, an amount for which a settle was started if and only if only owners of an attempt clean up |
| `SettlementRelease.OwnersCleanUpSafely` | arena_payments/automatic_worker.py:222-348 | if only owners clean up, this holds in every interleaving |
| `SettlementRelease.UnownedCleanupFrees` | arena_payments/automatic_worker.py:322-337 | as written, a slow worker whose attempt was taken over gives the amount back after its successor marked submitting in time and started the settle |
| `SettlementRelease.FreedCannotBeRecovered` | arena_payments/postgres_worker.py:89-116 | an amount given back by a cleanup stays so, and no recovered transaction can be recorded for it |
| `PaymentRepository.InMemoryPaymentRepository.CreateMandate` | arena_payments/repository.py:169-196 | performs the create transition with its two loops: conflict, lapse of expired rivals (kept even when the call then fails), refusal of an active rival |
| `PaymentRepository.InMemoryPaymentRepository.LapseRivals` | arena_payments/repository.py:174-187 | revokes exactly the unrevoked mandates of the same user and game whose window has closed |
| `PaymentRepository.InMemoryPaymentRepository.FindRival` | arena_payments/repository.py:188-194 | finds another unrevoked mandate of the same user and game if and only if there is one |
| `PaymentRepository.InMemoryPaymentRepository.RevokeMandate` | arena_payments/repository.py:346-356 | performs the revoke transition; a second revocation changes nothing |
| `PaymentRepository.InMemoryPaymentRepository.ReserveMandate` | arena_payments/repository.py:212-259 | performs the reserve transition: replay by intent, mandate checks, new totals, index |
| `PaymentRepository.InMemoryPaymentRepository.ConsumeReservation` | arena_payments/repository.py:261-288 | performs the consume transition |
| `PaymentRepository.InMemoryPaymentRepository.SubmitReservation` | arena_payments/repository.py:290-313 | performs the submit transition |
| `PaymentRepository.InMemoryPaymentRepository.ReleaseReservation` | arena_payments/repository.py:315-344 | performs the release transition |
| `PaymentRepository.InMemoryPaymentRepository.ReconcileFinalized` | arena_payments/postgres.py:654-729 | each reverted row ends released without a hash and its amount leaves the reserved total alone; each confirmed row ends consumed with its hash and its amount moves from the reserved to the consumed total; other rows and terms stay; the whole is the run of the guarded steps, one per row |
| `PaymentRepository.InMemoryPaymentRepository.UpdateRow` | arena_payments/postgres.py:683-729 | the same for one row, in statuses, hashes and totals |
| `LedgerSteps.CreateKeepsInv` | arena_payments/repository.py:169-196 | creating keeps the totals and leaves at most one unrevoked mandate per user and game |
| `LedgerSteps.ReserveKeepsInv` | arena_payments/repository.py:212-259 | reserving keeps the invariant, is accepted exactly when the mandate checks pass, and the new totals always fit the record |
| `LedgerSteps.ConsumeKeepsInv` | arena_payments/postgres.py:889-969 | consuming keeps the invariant and fails on a live reservation exactly for a malformed hash |
| `LedgerSteps.ReleaseKeepsInv` | arena_payments/repository.py:315-344 | releasing keeps the invariant and its record checks never fail |
| `LedgerSteps.SubmitKeepsInv` | arena_payments/repository.py:290-313 | submitting keeps the invariant and fails on a reserved amount exactly for a malformed hash |
| `LedgerSteps.ReconciledKeepsInv` | arena_payments/postgres.py:683-729 | the plain row updates keep what the checked copies would enforce |
| `LedgerSteps.RevokeKeepsInv` | arena_payments/repository.py:346-356 | revoking keeps the totals |
| `LedgerRuns.TotalsAreSums` | arena_payments/models.py:127-139 | after every run reserved and consumed totals are the sums over held and consumed reservations, and together stay within the cumulative cap |
| `LedgerRuns.OneReservationPerIntent` | arena_payments/repository.py:219-233 | after every run an intent has one reservation at most, and each reservation obeys amount, payee and time limits of its mandate |
| `LedgerRuns.ReservedExactlyWhenPermitted` | arena_payments/repository.py:364-390 | after every run a new intent is reserved if and only if its mandate exists, is in force for game, chain, token, payee, time and amount, and the cap covers the sum of its held and consumed reservations plus the amount |
| `LedgerRuns.OneActiveMandate` | arena_payments/repository.py:174-194 | after every run a user has at most one unrevoked mandate per game |
| `LedgerRuns.RunsOnlyGrow` | arena_payments/repository.py:261-344 | over any run terms never change, spent totals never shrink, consumed and released reservations and revocations are final |
| `LedgerRuns.ReserveReplays` | arena_payments/repository.py:219-233 | a reservation once made answers the same terms after any further run, whatever its status, without a change |
| `LedgerRuns.NothingIsLost` | arena_payments/repository.py:212-344 | every amount ever reserved under a mandate is still held, was consumed or was given back |
| `LedgerEffects.ConsumingMovesTheAmount` | arena_payments/repository.py:261-288 | consuming a held amount makes it consumed with the hash in lower case and moves it from the reserved to the consumed total; nothing else changes |
| `LedgerEffects.ConsumingAnswers` | arena_payments/repository.py:261-288 | what consuming answers for an unknown, a released and a consumed reservation, none of which changes anything |
| `LedgerEffects.SubmittingKeepsTheAmount` | arena_payments/repository.py:290-313 | submitting records the hash and keeps every total |
| `LedgerEffects.SubmittingAnswers` | arena_payments/repository.py:290-313 | what submitting answers for an unknown, a released, a submitted and a consumed reservation, none of which changes anything |
| `LedgerEffects.ReleasingReturnsTheAmount` | arena_payments/repository.py:315-344 | releasing takes the amount out of the reserved total, keeps the consumed total and records reason and time |
| `LedgerEffects.ReleasingAnswers` | arena_payments/repository.py:315-344 | what releasing answers for a bad reason and for reservations that are unknown, submitted, consumed or released, none of which changes anything |
| `LedgerEffects.ReservingHoldsTheAmount` | arena_payments/repository.py:212-259 | a new reservation carries the terms asked for and its amount is added to the reserved total of that mandate alone |
| `LedgerEffects.RefusalsAreTrue` | arena_payments/repository.py:364-390 | each refusal of a mandate names a rule it breaks |
| `LedgerEffects.RevokingRevokes` | arena_payments/repository.py:346-356 | exactly the owner revokes; the first revocation time is kept and nothing else changes |
| `LedgerEffects.RevokedMandatesTakeNothing` | arena_payments/repository.py:346-390 | after a revocation and any further run the mandate is still revoked and takes no new reservation |
| `LedgerEffects.CreatedExactlyWhenNoneInTheWay` | arena_payments/repository.py:169-196 | a mandate under a new id is created if and only if no unrevoked, unexpired mandate of its user and game exists |
| `LedgerEffects.CreatingRevokesOnlyTheExpired` | arena_payments/repository.py:174-187 | creating revokes exactly the unrevoked mandates of that user and game whose window has closed |
| `LedgerEffects.HashesInLowerCase` | arena_payments/models.py:186-203 | a transaction hash is 0x and 64 hexadecimal digits; lowering changes capital letters alone |
| `LedgerEffects.FieldsFitTheStatus` | arena_payments/models.py:186-230 | after every run a reservation has a final time, a hash and a reason exactly as its status demands |
| `SettlementCoordinator.X402SettlementCoordinator.Execute` | arena_payments/coordinator.py:85-211 | for every outcome and with other callers in between: a release is asked only if settle was never reached or was definitely rejected; settle without a definite answer ends unknown (or submitted) with the amount still held; a definite rejection always asks for the release; failed means released |
| `SettlementCoordinator.X402SettlementCoordinator.Attempt` | arena_payments/coordinator.py:113-182 | settle is reached only after a valid payload, a positive verification and a recorded approval; which exceptions leave it and in which state of the ledger |
| `SettlementCoordinator.X402SettlementCoordinator.Handle` | arena_payments/coordinator.py:183-211 | what the two exception handlers do with the reservation |
| `SettlementCoordinator.HttpIsDefiniteExactlyWhen` | arena_payments/facilitator.py:192-272 | over HTTP a settle answer is a definite rejection if and only if it is a 4xx status or a complete reply without success and transaction, and an acceptance if and only if the reply has both; verify says yes exactly for a complete positive reply and is never ambiguous |
| `SettlementCoordinator.BystandersLeave` | arena_payments/coordinator.py:85-211 | calls of others on other reservations leave this one as it is |
| `SettlementCoordinator.HeldIsLocked` | arena_payments/repository.py:378-390 | a held reservation keeps its amount out of the spendable budget |
| `Matching.GreedyCount` | arena_game/liquidity.py:86-97 | the two-pointer count over sorted limits is the size of a maximum matching with buyer limit >= seller limit |
| `Matching.CompatibleCapacity` | arena_game/liquidity.py:82-97 | the count is the size of a maximum matching for all inputs in any order |
| `Matching.MaximumSurvivesReordering` | arena_game/liquidity.py:82-85 | the size of a maximum matching does not depend on the order of the limits |
| `Matching.CoverBounds` | arena_game/liquidity.py:82-97 | a set touching every pair bounds the size of a matching |
| `Liquidity.SummarizeRoundLiquidity` | arena_game/liquidity.py:100-155 | succeeds exactly for distinct participants within the count, and publishes a minimum-unmatched figure that is non-negative, attained by some pairing of the round and never beaten |
| `Liquidity.CapacitiesAddUp` | arena_game/liquidity.py:118-155 | the capacities of the goods add up to the largest matching of the whole round |
| `Liquidity.FiguresAreTrue` | arena_agent_contracts/tasks.py:187-207 | the published figures satisfy the wire contract's consistency rules and mean what they say |
| `FcfsMarket.FcfsPair` | arena_game/market.py:68-140 | returns the first-come outcome, or the error of the checks |
| `FcfsMarket.PairGood` | arena_game/market.py:105-139 | the pop-and-append loops compute the serial dictatorship of one good and stop exactly at a self trade |
| `FcfsMarket.ServedIsFirstCome` | arena_game/market.py:105-118 | the pairing is feasible and first come first served |
| `FcfsMarket.FirstComeIsUnique` | arena_game/market.py:83-118 | the first-come condition has exactly one feasible solution |
| `FcfsMarket.FirstComeFirstServed` | arena_game/market.py:68-140 | when pairing returns, each overlapping buyer and seller of a good either has the buyer paired no later than that seller, or the seller with an earlier buyer |
| `FcfsMarket.PairingIgnoresInputOrder` | arena_game/market.py:68-91 | the outcome, errors included, does not depend on the order of the entries |
| `FcfsMarket.ServedReachesHalf` | arena_game/market.py:60-140 | with all limits set the pairing of a good has at least half of its maximum compatible capacity, and no more than it |
| `FcfsRound.OutcomeIsASolution` | arena_game/market.py:68-140 | the returned pairs are feasible over the whole pool and first come first served |
| `FcfsRound.EveryPairingIsTrue` | arena_game/market.py:123-138 | each pairing returned names two entries of the pool that fit, of different participants, with their entry and participant ids on the right sides, both limits, the smaller quantity, the buyer's game, round and good, and as sequence the number of pairings of that good so far |
| `Ordering.TextLessMeans` | arena_game/market.py:83-91 | identifiers are compared at the first place where they differ, a prefix being smaller |
| `FcfsRound.FirstComePairingIsTheOutcome` | arena_game/market.py:68-140 | any feasible, first-come set of pairs over the pool is the one returned |
| `FcfsRound.RoundReachesHalf` | arena_game/market.py:68-140 | with all limits set the number of pairings returned is at least half of the summed capacities of the goods, and no more than them |
| `TaskRepository.MemoryArenaCoreRepository.CreateTask` | arena_core/repository.py:152-211 | performs the create transition: hash checks, idempotent replay, id conflict |
| `TaskRepository.MemoryArenaCoreRepository.CreateTimeoutResult` | arena_core/repository.py:247-278 | stores the default result of a task and closes it |
| `TaskRepository.MemoryArenaCoreRepository.SubmitResult` | arena_core/repository.py:280-411 | performs the submit transition: conflict, duplicate, late, default at the deadline, acceptance |
| `TaskRepository.MemoryArenaCoreRepository.FinalizeExpired` | arena_core/repository.py:413-434 | closes the expired open tasks with the earliest (deadline, id), in that order, at most limit of them; with enough limit none is left |
| `TaskRepository.MemoryArenaCoreRepository.CloseBatch` | arena_core/repository.py:429-433 | no task of a batch is closed by closing the ones before it |
| `TaskRepository.MemoryArenaCoreRepository.PendingResults` | arena_core/repository.py:436-451 | pending results alone, in order of (received, id), at most limit of them and none passed over |
| `TaskRepository.MemoryArenaCoreRepository.ApplyResult` | arena_core/repository.py:453-524 | performs the apply transition; it fails exactly for an unknown id and applies exactly when the result was pending |
| `TaskRepository.ArenaResultConsumer.ConsumePending` | arena_core/result_consumer.py:22-39 | each pending result of the batch yields one new action; with enough limit every closed task is applied |
| `TaskRepository.Converge` | arena_core/finalizer.py:22-26 | finalizer then consumer, with limits no smaller than the number of tasks, leave every expired task with one applied action, logged once |
| `TaskInvariant.SubmitKeepsInv` | arena_core/repository.py:280-411 | submitting keeps the one-to-one correspondence, the deadlines and the log |
| `TaskInvariant.ApplyKeepsInv` | arena_core/repository.py:453-524 | applying keeps the invariant and never meets the rejected or different-result branches |
| `TaskInvariant.CreateKeepsInv` | arena_core/repository.py:152-211 | creating keeps the invariant |
| `TaskInvariant.FinalizeKeepsInv` | arena_core/repository.py:413-434 | finalizing keeps the invariant |
| `TaskRuns.ClosedExactlyByOneResult` | arena_core/repository.py:247-411 | after every run a task is terminal if and only if it has a result, and it never has two |
| `TaskRuns.DeadlinesDecide` | arena_core/repository.py:356-394 | after every run a result is from the runtime if and only if it was received before the deadline, and a timed-out default otherwise; the task is completed exactly for succeeded, cancelled exactly for cancelled, defaulted exactly for failed and timed out, at the time of the result |
| `TaskRuns.AcceptedSubmissionsCloseTheTask` | arena_core/repository.py:372-411 | a new result of an open task before its deadline is stored as pending, the task and the receipt get the status of its outcome, and nothing else changes |
| `TaskRuns.LateSubmissionsDefaultTheTask` | arena_core/repository.py:356-370 | a new result at or after the deadline of an open task closes it as defaulted by a timed-out result, and the receipt says so |
| `TaskRuns.OtherSubmissionsChangeNothing` | arena_core/repository.py:300-354 | a result seen before, or for a closed task, adds one log line, and its receipt tells status, authoritative result and time |
| `TaskRuns.CreatedTasksAreStoredAsGiven` | arena_core/repository.py:152-211 | a task of a new id and slot is created if and only if both hashes fit; it is stored queued as given |
| `TaskRuns.SlotsAreReusedOnlyForTheSame` | arena_core/repository.py:178-190 | a used slot answers the stored task if and only if the hashes fit and are those stored, and never changes anything |
| `TaskRuns.AppliedActionsAreDerived` | arena_core/application_policy.py:57-140 | after every run each applied action belongs to the task's own result and has the outcome and action derived from it; candidates entered when received, before the deadline, defaults when applied |
| `TaskRuns.NoResultIsRefused` | arena_core/repository.py:462-494 | after every run no result is rejected and applying a stored one succeeds |
| `TaskRuns.LogTellsTheState` | arena_core/repository.py:134-150 | after every run the log shows creation, closing and application of a task once each, exactly when they happened |
| `TaskRuns.RunsOnlyGrow` | arena_core/repository.py:280-524 | over any run closed tasks, results, applied actions and log lines are permanent |
| `TaskRuns.SubmissionsAreDecided` | arena_core/repository.py:280-411 | a submission conflicts, is a duplicate, is accepted or is late exactly when its name was used for other content, for the same content, is new to an open task before its deadline, or otherwise; every receipt names an authoritative result |
| `TaskRuns.CreatedTasksReplay` | arena_core/repository.py:178-190 | creating a task again after any further run finds the same task and changes nothing |
| `TaskRuns.AcceptedResultsReplay` | arena_core/repository.py:300-338 | an accepted result sent again after any further run is a duplicate with the same receipt and adds one log line |
| `CandidateValidation.MarketRfqCandidateViolation` | arena_core/candidate_validation.py:155-175 | no violation exactly when the action passes, or asks within the budget and each request is visible, passes the precision check (in the 28-digit decimal context) and lies within the ceiling; otherwise the first violation in order |
| `CandidateValidation.NoViolationMeansEveryRequestOk` | arena_core/candidate_validation.py:167-175 | the scan reports nothing if and only if every request is in order |
| `CandidateValidation.ApplicationIsTotal` | arena_core/application_policy.py:57-140 | every result is accepted; it enters as a candidate exactly when it succeeded, fits the kind of task and breaks no rule |
| `CandidateValidation.DefaultsByKind` | arena_core/application_policy.py:34-140 | without a candidate a decide or intent task passes, a negotiation and the other market tasks time out, and the reason is the runtime status exactly when the run did not succeed |
| `CandidateValidation.KindsOfActions` | arena_core/application_policy.py:57-140 | which actions fit which kind of task |
| `CandidateValidation.SelectionsAreAllowedExactlyWhen` | arena_core/candidate_validation.py:178-191 | a selection is allowed if and only if it engages nothing, or a visible request within the inventory |
| `CandidateValidation.NegotiationViolationsAreTrue` | arena_core/candidate_validation.py:194-237 | each violation of a negotiation action names a rule it breaks |
| `MarketCandidates.DecideAcceptsExactlyTheRule` | arena_core/candidate_validation.py:85-118 | a decide candidate is accepted if and only if action and good are allowed, nothing is public, prices pass the precision check and holdings, or cash against the rounded product, cover it |
| `MarketCandidates.IntentAcceptsExactlyTheRule` | arena_core/candidate_validation.py:121-152 | a market intent candidate is accepted if and only if both prices are set, pass the precision check and lie on the right side of each other, and holdings, or cash against the rounded product, cover it |
| `PriceChecks.PrecisionCheckIsExactWhen` | arena_core/candidate_validation.py:80-82 | for wire prices of up to d digits and p places the check means at most six places if and only if d is at most 28 or p at most 6 |
| `PriceChecks.AnAcceptedPriceWithEighteenPlaces` | arena_core/candidate_validation.py:80-82 | 10000000000.000000000000000001 passes the check although its last place is not zero |
| `PriceChecks.SixPlacesArePrecise` | arena_core/candidate_validation.py:80-82 | a price of at most six places is never refused |
| `PriceChecks.PreciseWhenRounded` | arena_core/candidate_validation.py:80-82 | the check asks for six places of the price rounded to 28 digits |
| `PriceChecks.ConvertsExactlyWhen` | arena_game/money.py:17-46 | gold() converts a price if and only if it passes the precision check and its rounded amount is within the bound |
| `PriceChecks.AnAcceptedPriceOutsideTheBound` | arena_game/money.py:41-46 | 10^32 gold passes the check and is refused by gold() |
| `PriceChecks.ConversionKeepsOrder` | arena_game/money.py:17-46 | gold() keeps the order of accepted prices of any number of places |
| `PriceChecks.ConvertedSurvives` | arena_game/money.py:41-46 | what gold() returned has at most 28 significant digits |
| `PriceChecks.CheckedCashCovers` | arena_core/candidate_validation.py:108-118 | if the cash check passes with its rounded product, the cash covers the converted price exactly |
| `DecimalRounding.RoundedMonotone` | arena_game/money.py:41-46 | rounding to 28 digits keeps order |
| `DecimalRounding.RoundedSurvives` | arena_game/money.py:41-46 | rounding twice is rounding once |
| `DecimalRounding.RoundsToNearestEven` | arena_game/money.py:41-46 | rounding goes to a nearest multiple of the unit, and to the even one when two are equally near |
| `MarketCandidates.ValidatedIntentsAreBuiltExactlyWhen` | arena_game/a2a_market.py:82-115 | both prices of a validated candidate convert if and only if their rounded amounts are within the bound, and then the market intent's price checks never fail |
| `MarketCandidates.FedDirectoriesAnswer` | arena_game/a2a_market.py:237-295 | after any run fed with converted candidates under wire identifiers, the directory answers every unexpired buyer |
| `MarketCandidates.DealsAreAffordable` | arena_core/candidate_validation.py:121-152 | after any run of the market fed with validated candidates converted by gold(), every Deal is within its buyer's cash and its seller's holdings at publishing time |
| `NegotiationProtocol.Negotiation.Apply` | arena_game/negotiation.py:81-115 | the checks in order, the first failing one is the error and nothing changes; else the turn is appended and the status and price set |
| `NegotiationProtocol.Negotiation.Expire` | arena_game/negotiation.py:117-119 | only an active negotiation times out |
| `NegotiationProtocol.Open` | arena_game/negotiation.py:71-75 | accepts exactly 2 to 6 turns and two different participants |
| `NegotiationProtocol.MovedKeepsInv` | arena_game/negotiation.py:81-115 | turns are numbered, alternate from the buyer, and only the last one closes |
| `NegotiationProtocol.ActiveNeverStuck` | arena_game/negotiation.py:92-107 | in every reachable active state the turn-limit and not-a-proposal errors cannot occur and the next side always has a move |
| `NegotiationProtocol.RunsKeepInv` | arena_game/negotiation.py:81-119 | the invariant holds after any sequence of moves and expiries |
| `NegotiationProtocol.ClosesWithinTheLimit` | arena_game/negotiation.py:92-101 | at most max_turns moves are ever taken, and the max_turns-th closes the negotiation |
| `NegotiationProtocol.TurnsAlternateFromTheBuyer` | arena_game/negotiation.py:77-115 | after any run the turns are numbered from 1, even places are the buyer's, all but the last are positive proposals, and an accepted price is that of the proposal before the acceptance |
| `NegotiationProtocol.RefusalsAreTrue` | arena_game/negotiation.py:81-107 | each refused move breaks the rule that is named |
| `NegotiationProtocol.ValidatedExactlyWhenTaken` | arena_core/candidate_validation.py:194-237 | on the view of an open negotiation a move passes candidate validation if and only if the protocol takes it and its price respects the mover's limit |
| `NegotiationProtocol.ConvertedPriceStaysWithin` | arena_core/candidate_validation.py:218-237 | a validated wire price stays within its author's limit through the conversion |
| `NegotiationProtocol.AgreementsRespectBothLimits` | arena_core/candidate_validation.py:211-237 | if every taken move comes from a validated action, converted by gold() like the limits, an accepted price lies within both private limits |
| `RateLimiter.SlidingWindowRateLimiter.Check` | connector_gateway/rate_limit.py:32-55 | performs the check transition on the ordered table and keeps it within max_keys |
| `RateLimiter.SlidingWindowRateLimiter.PurgeExpiredBuckets` | connector_gateway/rate_limit.py:57-64 | the nested loops drop whole expired queues from the stale end |
| `RateLimiter.PurgeLosesNothing` | connector_gateway/rate_limit.py:57-64 | purging loses no accepted time inside the window, of any key |
| `RateLimiter.CheckKeepsTable` | connector_gateway/rate_limit.py:38-45 | the table never exceeds max_keys |
| `RateLimiter.QueuesAgreeWithLog` | connector_gateway/rate_limit.py:32-55 | after any run with a clock that never goes back, queue and full log hold the same times of the window |
| `RateLimiter.AcceptedExactlyBelowTheLimit` | connector_gateway/rate_limit.py:32-55 | a check whose key is tracked or whose table has room is accepted if and only if fewer than attempts accepted checks of its key lie in the last window; otherwise the whole window is the answer |
| `RateLimiter.WaitingWorks` | connector_gateway/rate_limit.py:40-54 | waiting out retry_after with no other checks makes the next check succeed, for a full queue and for a full table |
| `RateLimiter.NoShorterWaitWorks` | connector_gateway/rate_limit.py:49-54 | a whole number of seconds shorter than retry_after never suffices for a full queue |
| `RateLimiter.PurgeDropsTheStaleEnd` | connector_gateway/rate_limit.py:57-64 | purging drops the keys up to the first with a time in the window, and keeps the rest in order |
| `RateLimiter.TableIsByLastCheck` | connector_gateway/rate_limit.py:32-55 | after any run the table lists its keys by their last check, the longest unchecked first |
| `RateLimiter.NoAttemptsCrash` | connector_gateway/rate_limit.py:49-53 | with a limit of no attempts a check with a place always fails on the empty queue |
| `World.WorldState.Reveal` | arena_game/events.py:168-177 | refusals in order; otherwise the id is recorded before the prices are computed, also when that fails |
| `World.WorldState.Snapshot` | arena_game/events.py:179-220 | the nested loops compute the fold of all revealed events up to the round |
| `World.WorldState.ApplyEvent` | arena_game/events.py:193-210 | market effects while active, final effects always, in order, stopping at the first price out of bounds |
| `World.LaterEventsDoNotMatter` | arena_game/events.py:188-193 | events of later rounds leave an earlier snapshot alone |
| `World.SnapshotsAreSound` | arena_game/events.py:179-273 | whatever was revealed, prices stay between zero and the bound and supply never turns negative |
| `World.ExpiredEventsLeaveTheMarket` | arena_game/events.py:110-115 | an event that is no longer active changes nothing but the final prices |
| `World.FinalPricesIgnoreDurations` | arena_game/events.py:205-210 | final prices equal a fold over the final effects alone, so durations and market effects never enter them |
| `World.BasisPointsRoundHalfUp` | arena_game/money.py:60-71 | the result is within half a unit of the exact product, halves up, and within the bound |
| `Game.PawnhouseGame.Start` | arena_game/game.py:149-155 | performs the start transition |
| `Game.PawnhouseGame.RevealNow` | arena_game/game.py:157-169 | performs the reveal of the current round |
| `Game.PawnhouseGame.MoveRoundPhase` | arena_game/game.py:171-183 | only the one following phase is reachable from each phase |
| `Game.PawnhouseGame.NextRound` | arena_game/game.py:185-197 | performs the round change, or ends the rounds after the last |
| `Game.PawnhouseGame.Complete` | arena_game/game.py:199-213 | computes the final snapshot and completes the game |
| `Game.Open` | arena_game/game.py:85-99 | accepts exactly the schedules with one event per round in order and distinct ids |
| `Game.StepKeepsInv` | arena_game/game.py:149-213 | in every reachable state the revealed ids are those of the rounds so far, and a game waits in event_reveal exactly when its prices cannot be computed |
| `Game.RevealedInOrder` | arena_game/game.py:149-197 | over any run events are revealed once each and in order, and final valuation comes after exactly round_count rounds |
| `Game.PhasesMoveOneByOne` | arena_game/game.py:171-183 | a phase move succeeds if and only if the round is in the expected phase, past the reveal, and the target is the next one |
| `Game.RoundsFollowEachOther` | arena_game/game.py:185-197 | a completed round is followed by the next with its event revealed, or by final valuation after the last; otherwise the call is refused |
| `Game.SnapshotsAreStable` | arena_game/events.py:179-220 | the snapshot of a reached round is unchanged by any later call |
| `Game.CompletingSucceeds` | arena_game/game.py:199-213 | a game in final valuation always completes |
| `Game.NoRevealRefusedExactlyWhenInBounds` | arena_game/game.py:157-169 | no run meets a refused reveal if and only if the prices of every round of the schedule stay in bounds |
| `ScheduleBounds.InBoundsExactlyWhenStepsFit` | arena_game/events.py:179-273 | a schedule stays in bounds if and only if, round by round and price by price, each change lies within -10,000 to 1,000,000 basis points and each running price within the gold bound |
| `ScheduleBounds.SnapshotExactlyWhenItFits` | arena_game/events.py:179-220 | a snapshot can be computed if and only if its price steps fit, and it then shows the unbounded running prices |
| `ScheduleBounds.ActiveExactlyForItsDuration` | arena_game/events.py:110-115 | an event is active from its reveal for as many rounds as its duration, or forever without one |
| `ScheduleBounds.SnapshotShowsTheRest` | arena_game/events.py:179-273 | supply, bubble and orders of a snapshot are those of the effects active in its round, in order |
| `Game.OutOfBoundsStrands` | arena_game/events.py:176-177 | a schedule out of bounds has a run after which the reveal is refused as a duplicate |
| `Game.RefusedOnlyWhenStuck` | arena_game/events.py:168-175 | a reveal is refused only as a duplicate, in a round whose prices failed; never as unknown or out of round |
| `Game.StuckForGood` | arena_game/game.py:149-213 | such a game stays as it is, whatever is called |
| `Game.SomeSchedulesRunOutOfBounds` | arena_game/events.py:45-69 | a concrete schedule the constructors accept runs out of bounds |
| `Money.GoldDecimalParses` | arena_game/hosted_coordinator.py:63-67 | the six-place text of every amount in the bound parses on the wire to exactly that amount |
| `Money.FormatGoldParses` | arena_game/money.py:49-57 | the shortest text of every amount in the bound parses on the wire to exactly that amount |
| `Money.GoldRounds` | arena_game/money.py:17-46 | gold() of any decimal standing for an amount is that amount rounded half-even to 28 digits, if in bounds |
| `Money.GoldReadsBackExactlyWhen` | arena_game/money.py:17-57 | gold() reads both printers' texts back to the same amount if and only if it has at most 28 significant digits |
| `Money.SmallAmountsSurvive` | arena_game/money.py:41-46 | all amounts below 10^28 do |
| `Money.LargeAmountsMayBeLost` | arena_game/money.py:41-46 | 10^28 + 1 is in the bound and does not |
| `Money.ParseAcceptsOnly` | arena_agent_contracts/actions.py:27-77 | every accepted text is a canonical whole part with or without a point and a fraction, within the digit limits, and is read as exactly that number |
| `Money.ParseParts` | arena_agent_contracts/actions.py:48-77 | a canonical whole part, a point and a fraction within the limits are read as one coefficient with that many places |

## Left out

- Text checks of record constructors (message and name lengths, address and time-zone normalisation); identifier rules are modelled where the directory and the oracle apply different ones. Quantities that the contracts fix at 1 are 1.
- Digests are modelled by the value they are taken of, so they are injective; where results with equal receive times are ordered by digest text, the model orders by the plain id.
- HTTP, RPC, signing and chain reading: every answer is nondeterministic. Only the facilitator client's classification of HTTP replies is modelled.
- Clocks: all workers read one clock that never goes back in the settlement model; elsewhere each call takes its reading as a parameter. The rate limiter's readings never go back, as those of a monotonic clock taken in lock order; its times are exact numbers, without floating-point rounding.
- The queues of a settlement scan: any worker may start an execution of any intent at any time, which includes every order the scan produces. Settlement rows written before facilitators were recorded (NULL facilitator) are not modelled, nor is the status of the game's own settlement intent.
- SettlementCoordinator.X402SettlementCoordinator.Execute: states the release rule for one execution. A later execution of the same intent, started on the reservation an ambiguous one left behind, may still release it; what happens across executions of the worker path is the subject of SettlementRelease, the public endpoint is not modelled. The recorder never raises the facilitator's exception.
- LedgerSteps.ConsumeKeepsInv: does not say that a submitted transaction hash survives consuming; the code overwrites it.
- PaymentRepository.InMemoryPaymentRepository.CreateMandate: takes mandates with nothing reserved or consumed, as the API creates them (`arena_payments/api.py:170-191`), and static payee lists only; the dynamic payee rule, wallets and join authorisations are not modelled.
- LedgerSteps.CreateKeepsInv: the same; totals a mandate brought along would have to be added to every sum.
- PaymentRepository.InMemoryPaymentRepository.ReconcileFinalized: takes the selected rows as given, distinct and submitted; locking and the row limit decide which they are.
- The lookup of the active mandate and other plain reads.
- CandidateValidation.ApplicationIsTotal: the public projection of actions is not modelled.
- `seed_tasks`, task leases of other repositories, and the SQL versions of submit, finalize and apply.
- NegotiationProtocol.Negotiation.Apply: messages of moves are not modelled.
- Game setup (joining, portfolios, locking), portfolio distribution and rankings: the game model starts with locked portfolios. Schedule commitments are digests and not modelled.
- Market feedback on snapshots. Its documentation bounds order-flow pressure by 2 percent; the code allows 2,000 basis points, which is 20 percent (`arena_game/events.py:276-298`).
- Money.GoldRounds: reads plain decimals; signs, exponents, blanks and non-numeric forms that gold() also accepts or refuses are not modelled.
- The text of pairing ids, public payloads of liquidity summaries beyond their figures, and percentile statistics.
- TaskRepository.MemoryArenaCoreRepository.PendingResults: results received at the same time are taken by plain id, where the source takes them by the text of a digest.
- Game.PawnhouseGame.Complete: does not compute rankings.
