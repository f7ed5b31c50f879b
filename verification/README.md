# Schwab gateway: a verified model

This project models the parts of the Schwab market-data gateway whose correctness depends on
interleaving, on time or on shared state, and proves what each of them promises over every input
and every run.

| files | what they model |
|---|---|
| `DispatchBoard`, `DispatchGuarantees` | the history of a strict-priority single-slot scheduler as a list of events, the board a reader would draw from it, and what every legal history guarantees |
| `SchedulerModel`, `SchedulerInvariant`, `SchedulerGuarantees`, `SchedulerEffects` | the scheduler's critical sections as atomic steps, the invariant they all keep, the theorems over runs (every run's history is a legal one), and what each step does, told on job records and the history |
| `ExecutionScheduler` | the scheduler object, its fields updated in place, each method proved equal to the step it implements |
| `Failures`, `ReadGateway`, `ReadGatewayGuarantees`, `ReadGatewayCooldown`, `ReadGatewayTiming`, `ReadGatewayProgress`, `ReadGatewayAnswers` | classification of upstream failures, and the product of many concurrent reads with the one scheduler they share: one retry inside an absolute budget, a shared rate-limit cooldown, and answers that say what happened |
| `MarketDataReads` | those reads as an object above the scheduler object, updating the shared backoff in place, each method proved equal to its move |
| `Payloads`, `Freshness`, `ChainMetadata`, `OptionChain`, `OptionChainLaws`, `OptionChainFields`, `OptionChainAcceptance` | the strict option-chain normalizer, the tolerant metadata counter, re-evaluation of cached freshness, the laws between them, where every delivered field comes from, and exactly which payloads are accepted |
| `SessionHistory`, `SessionFields`, `SessionCache` | one day's candles split into sessions, which candles a session holds, and the cache of completed sessions |
| `RecencyCache`, `ChainFetches`, `ChainFetchGuarantees`, `ChainFetchEffects`, `OptionChainUpstream` | bounded least-recently-used caches against the unbounded log of accesses; coalescing of fetches under every interleaving; what each step does in every reachable state; the upstream object itself |
| `TokenDocuments`, `TokenFile`, `TokenManager`, `TokenSharing`, `TokenIntervals` | the token file with crash points, one manager's state machine, many operations of many threads and processes on one path, and the proof that a manager's refreshes and transactions are runs of that protocol |
| `Dates`, `MarketCalendar` | the Gregorian calendar and the exchange's holidays, early closes and latest completed session |
| `OrderBookStore` | bounded recent depth and bounded fan-out against the unbounded log of publishes |

Conventions. Clocks are reals that never run backwards; the environment picks the instants at
which callers, timers, tasks and providers act, so a theorem over runs is one over every
interleaving. Code that runs without suspending is one step at one instant. Python's own
conversions (`float`, `int`, `fromtimestamp`, the New York wall clock) are parameters: each yields
a value, refuses, or fails otherwise, and nothing more is assumed of them. Integers in the source
are unbounded and so are they here. Ages, deadlines and prices are reals.

Five findings that a reader of the documentation alone would not expect, each with an input and
the exact condition:

* The chain metadata reader is documented to raise only for a payload that is not an object
  (packages/sdk/src/schwab_gateway_sdk/chain_metadata.py:110-113). It also fails on an object whose
  quote time lies past the year 9999 (`ChainMetadata.SummaryMayFailOnAnObject`).
  `ChainMetadata.SummaryFailsIff` says exactly when it fails.
* A completed session with a price that is not finite is stored, its JSON text carries null for
  that price, and every later hit fails on reading it back
  (`SessionCaches.InfinitePriceBreaksEveryHit`). `SessionCaches.HitEqualsFreshWorkIffFinite` says
  that a hit equals fresh work if and only if every price is finite.
* A refresh or write that fails can still have replaced the token document
  (`TokenManagers.FailedRefreshMayCommit`): if and only if the rename went through and only the
  directory sync after it failed (`TokenManagers.FailedRefreshCommitsOnlyPastTheRename`).
* After such a failed write a read in the same transaction still gives the old document although
  the new one is on disk (`TokenManagers.ReadsMayMissTheDisk`): if and only if some write lost its
  directory sync over another document than the client had, and no later write reached the disk
  (`TokenManagers.ReadsMissTheDiskIff`).
* A coroutine that is cancelled while it waits for the token lock, and cancelled again while it
  then waits for the outcome without a shield, never gives an acquired lock back, and no other
  thread of its process enters any more (`TokenIntervals.SecondCancellationLeaksTheLock`). The lock
  is given back if and only if there is no such second cancellation
  (`TokenIntervals.CancelledEntryGivesBackIff`).

## Model

| member | source | states |
|---|---|---|
| `DispatchBoard.LegalBoardOk` | src/schwab_gateway/scheduler.py:241-256 | in every legal history each queue holds its own class in admission order, the running job waits nowhere, and neither class holds more than its capacity |
| `DispatchGuarantees.BoundedBypass` | src/schwab_gateway/scheduler.py:389-404 | while a protected job waits, every job dispatched is a protected one, and they are at most as many as were queued before it, hence fewer than the protected capacity |
| `DispatchGuarantees.FifoWithinClass` | src/schwab_gateway/scheduler.py:389-404 | two jobs of one class are dispatched in the order of their admissions |
| `DispatchGuarantees.TicketFromAdmission` | src/schwab_gateway/scheduler.py:226-237 | the class and queue deadline on record for a job are those of its admission |
| `DispatchGuarantees.DispatchedInTime` | src/schwab_gateway/scheduler.py:400-405 | a job is dispatched after its own admission and strictly before its queue deadline |
| `DispatchGuarantees.UniqueFate` | src/schwab_gateway/scheduler.py:352-404 | every admitted job has left its queue exactly once or still waits, and has returned its allocation exactly once or still waits or runs; no other id ever has |
| `DispatchGuarantees.OperationsNeverOverlap` | src/schwab_gateway/scheduler.py:432-491 | between the starts of any two operations the first one ended, in order and in time, and no operation runs twice |
| `DispatchGuarantees.NothingNewAfterShutdown` | src/schwab_gateway/scheduler.py:319-341 | after shutdown nothing is admitted, dispatched or withdrawn; what still happens belongs to the job that was running |
| `SchedulerInvariant.StepKeepsInv` | src/schwab_gateway/scheduler.py:241-299 | every step, at any instant, keeps the invariant tying allocations, queues, job records, worker flag, idle event and history together |
| `SchedulerGuarantees.SlotAccounting` | src/schwab_gateway/scheduler.py:241-256 | in every reachable state each allocation count is queued plus running and within its limit, the worker is active iff exactly one job runs, an inactive worker means empty queues, and idle means nothing is allocated |
| `SchedulerGuarantees.AnswersAreFinal` | src/schwab_gateway/scheduler.py:475-517 | along any run a job only moves forward and its answer, once given, never changes |
| `SchedulerGuarantees.AnswerMatchesDeadline` | src/schwab_gateway/scheduler.py:432-517 | an operation ending strictly before its deadline delivers its own outcome, one ending strictly after it the timeout; a withdrawn answer means the operation never began |
| `SchedulerGuarantees.RunsAreLegal` | src/schwab_gateway/scheduler.py:241-430 | every run's history is legal and its board agrees with the scheduler's queues, slot and records, so every guarantee about legal histories is one about the scheduler |
| `SchedulerGuarantees.ProtectedIsNeverOvertaken` | src/schwab_gateway/scheduler.py:389-404 | bounded bypass over whole runs |
| `SchedulerGuarantees.ReleasedExactlyOnce` | src/schwab_gateway/scheduler.py:352-358 | over whole runs a job's allocation was returned once iff it is finished, and it left its queue once iff it is no longer queued, under any race |
| `SchedulerEffects.StepKeepsReached` | src/schwab_gateway/scheduler.py:241-341 | every step keeps the invariant together with: admission is open iff the history holds no stop |
| `SchedulerEffects.AllottedIsUnfinished` | src/schwab_gateway/scheduler.py:241-256 | an allocation count is the number of job records of that class that are not finished |
| `SchedulerEffects.AdmissionFollowsRoom` | src/schwab_gateway/scheduler.py:211-256 | in every reachable state a named request with positive timeouts is admitted iff no stop is in the history and fewer jobs of its class are unfinished than its capacity; each other request gets its own refusal and changes nothing; the new record has the queue deadline now + queue timeout, cut at the request deadline |
| `SchedulerEffects.CancellationEffect` | src/schwab_gateway/scheduler.py:273-299 | a cancelled queued job leaves its queue withdrawn, its allocation free, a running one only gets a mark, a finished one nothing, and no other record changes |
| `SchedulerEffects.QueueTimeoutEffect` | src/schwab_gateway/scheduler.py:262-276 | exactly a queued job whose deadline has passed expires, with the timeout as its caller's answer |
| `SchedulerEffects.StartEffect` | src/schwab_gateway/scheduler.py:432-437 | the dispatched task starts its budget now, once, with the execution timeout cut at the request deadline |
| `SchedulerEffects.OperationEffect` | src/schwab_gateway/scheduler.py:442-449 | an operation begins once after its budget has started, and ends now with the outcome it had |
| `SchedulerEffects.DrainEffect` | src/schwab_gateway/scheduler.py:475-491 | a live operation past its deadline is answered with the timeout, once, and keeps the slot; before the deadline nothing happens |
| `SchedulerEffects.FinishEffect` | src/schwab_gateway/scheduler.py:470-554 | a job whose operation is over leaves the slot finished, with its own outcome if it ended by the deadline and nothing was answered before, else the timeout |
| `SchedulerEffects.ShutdownEffect` | src/schwab_gateway/scheduler.py:319-333 | shutdown empties both queues, withdraws exactly the queued jobs and leaves every other record alone |
| `ExecutionSchedulers.ExecutionScheduler.Execute` | src/schwab_gateway/scheduler.py:201-256 | admission in place: accepted iff the arguments are good, nothing has stopped the scheduler and the class has an unfinished job fewer than its capacity; which refusal else, changing nothing; and the record an accepted request leaves; all equal to the admission step |
| `ExecutionSchedulers.ExecutionScheduler.DispatchLocked` | src/schwab_gateway/scheduler.py:389-430 | the dispatch loop equals the recursive specification: overdue heads expire, then the oldest protected job, else the oldest background job, starts |
| `ExecutionSchedulers.ExecutionScheduler.QueueDeadlineFires` | src/schwab_gateway/scheduler.py:258-271 | a passed queue deadline expires a queued job and no other, and reports whether the caller must raise |
| `ExecutionSchedulers.ExecutionScheduler.CallerCancelled` | src/schwab_gateway/scheduler.py:273-299 | cancelling a queued job withdraws it, cancelling a running one only marks it |
| `ExecutionSchedulers.ExecutionScheduler.SettleAndFinishLocked` | src/schwab_gateway/scheduler.py:503-554 | the finished operation settles the answer if none was given, the slot and allocation go back, and the next job is dispatched |
| `ExecutionSchedulers.ExecutionScheduler.LifecycleWakesUp` | src/schwab_gateway/scheduler.py:451-554 | a wake-up settles an ended operation or times a late one out while keeping the slot |
| `ExecutionSchedulers.ExecutionScheduler.Shutdown` | src/schwab_gateway/scheduler.py:319-333 | the shutdown loop withdraws every queued job of both classes and closes admission |
| `Failures.Classify` | src/schwab_gateway/failures.py:62-76 | the nearest of the first eight causes that decides wins; if none does, the failure has no metadata |
| `Failures.WhatDecides` | src/schwab_gateway/failures.py:62-76 | exactly carried metadata, a connect timeout and the status 429 decide, the last with its hint; every other status leaves the question to the cause |
| `Failures.RetryAfterSeconds` | src/schwab_gateway/failures.py:34-51 | an upstream hint outside 0..60 seconds is no hint at all |
| `Failures.WholeHintIsKeptIff` | src/schwab_gateway/failures.py:39-51 | a hint in whole seconds, with any blanks around it, is kept as it is if it is at most sixty and dropped if it is more |
| `Failures.DateHintIsKeptIff` | src/schwab_gateway/failures.py:44-51 | a date is kept iff it lies at most sixty seconds ahead |
| `Failures.RetryAfterRoundTrip` | packages/sdk/src/schwab_gateway_sdk/client.py:212-215 | a delay of at most a minute is announced as an integer in 1..60, never too short and less than a second too long, which the client decodes to the same integer |
| `ReadGatewayGuarantees.ActKeeps` | src/schwab_gateway/api.py:692-789 | every move of any read, job, timer or client keeps the invariant of the whole gateway |
| `ReadGatewayGuarantees.BackoffNeverShrinks` | src/schwab_gateway/api.py:655-662 | the shared backoff instant never decreases |
| `ReadGatewayCooldown.CooldownSafety` | src/schwab_gateway/api.py:710-727 | in every run, when one provider read begins after another, the earlier is over, and if it ended rate limited at least max(1, hint) seconds have passed since its end, whoever met the limit; operations that run or end otherwise are all logged reads; the backoff is at most sixty seconds ahead; every announced Retry-After is in 1..60 and survives the wire |
| `ReadGatewayCooldown.RepliesAreHonoured` | src/schwab_gateway/api.py:655-666 | after a rate-limit answer announcing n seconds, however it came about, no provider read begins for n - 1 seconds, the rounding being upwards, and after one without a number for a whole second |
| `ReadGatewayGuarantees.OneRetryInsideTheBudget` | src/schwab_gateway/api.py:721-759 | a read makes at most two attempts, the second only after the first failed to connect and released its allocation, with queue and execution deadlines inside the first attempt's absolute deadline |
| `ReadGatewayAnswers.AnswersSayWhatHappened` | src/schwab_gateway/api.py:728-788 | in every run an answered read with attempts either lost its client or is answered by its last job: the body iff the operation returned that value as the answer, each timeout and each failure iff it is the job's, a rate limit with its hint rounded up; a failure to connect only if no retry was allowed or 1.1 seconds were not left, and if the retry was refused, by capacity or cooldown |
| `ReadGatewayAnswers.ResumeAnswers` | src/schwab_gateway/api.py:741-788 | a first attempt that failed to connect sleeps a tenth of a second, unanswered, iff the read is retryable and 1.1 seconds are left |
| `ReadGatewayAnswers.AttemptIsRight` | src/schwab_gateway/api.py:721-741 | an attempt during a cooldown is told the seconds left, one without room or after a stop gets the capacity reply, and every other one waits on a job of its own |
| `ReadGatewayAnswers.ArrivalEffect` | src/schwab_gateway/api.py:700-727 | a new read joins the table with the upstream budget before it and makes its first attempt at once |
| `ReadGatewayAnswers.JoinedEffect` | src/schwab_gateway/api.py:875-885 | a read that joined another's fetch is answered by that fetch's failure, whichever of the three it is |
| `ReadGatewayAnswers.BeginEffect` | src/schwab_gateway/api.py:710-715 | the guarded operation is a provider read outside a cooldown, and ends at once during one with what is left of it, at most sixty seconds, as the hint |
| `ReadGatewayAnswers.EndEffect` | src/schwab_gateway/api.py:714-719 | an operation that ends in a rate limit moves the backoff to at least the hint or one second from now; any other end notes nothing |
| `ReadGatewayAnswers.OnlyLimitsAreNoted` | src/schwab_gateway/api.py:655-666 | besides those two moves exactly a read that hears of a rate limit, from its own job or a joined fetch, notes it |
| `MarketDataReads.MarketDataReads.NoteRateLimit` | src/schwab_gateway/api.py:655-662 | noting a rate limit in place moves the backoff as the specification does and records it |
| `MarketDataReads.MarketDataReads.AttemptRead` | src/schwab_gateway/api.py:721-741 | one round of the attempt loop: refused during a cooldown, else submitted with the first attempt's budgets or what is left of them |
| `MarketDataReads.MarketDataReads.BuildStarts` | src/schwab_gateway/api.py:710-715 | the guarded operation starts in place and ends at once, unbuilt, while the cooldown lasts |
| `MarketDataReads.MarketDataReads.BuildStops` | src/schwab_gateway/api.py:714-719 | the provider read ends and a rate limit is noted before anybody hears of it |
| `MarketDataReads.MarketDataReads.ReadResumes` | src/schwab_gateway/api.py:741-788 | a resumed read answers by its job's outcome, or sleeps before its one retry if that still fits the budget |
| `MarketDataReads.MarketDataReads.RetryWakesUp` | src/schwab_gateway/api.py:721-740 | after its pause a read makes its second attempt, cooldown checked again |
| `ReadGatewayTiming.AnsweredWithinBudget` | src/schwab_gateway/api.py:705-760 | with punctual timers every read is answered within queue timeout plus upstream timeout of its arrival, retry included |
| `ReadGatewayProgress.TimeCanAlwaysPass` | src/schwab_gateway/api.py:705-760 | from every state of a punctual run finitely many punctual moves at the present instant lead to a state where time may advance, so the bound above is never empty |
| `MarketDataReads.MarketDataReads.JoinedReadFails` | src/schwab_gateway/api.py:875-885 | a read that joined another's fetch notes a rate limit and answers by the fetch's failure |
| `ChainMetadata.CountExpiration` | packages/sdk/src/schwab_gateway_sdk/chain_metadata.py:73-101 | the counting loops return the number and the distinct strikes of the listed rows, skipping what they cannot read |
| `ChainMetadata.ExtractChainMetadata` | packages/sdk/src/schwab_gateway_sdk/chain_metadata.py:104-145 | the summary holds the counts of both sides, the union's strikes, the latest underlying time and exactly the flags of what is missing |
| `ChainMetadata.SummaryFailsIff` | packages/sdk/src/schwab_gateway_sdk/chain_metadata.py:51-145 | the summary fails iff the payload is not an object, a listed strike key or the underlying price overflows its conversion, or an underlying time overflows or names no representable instant |
| `ChainMetadata.SummaryMayFailOnAnObject` | packages/sdk/src/schwab_gateway_sdk/chain_metadata.py:51-59 | a concrete object that the summary refuses |
| `OptionChainAcceptance.ListedIsWhatSits` | packages/sdk/src/schwab_gateway_sdk/chain_metadata.py:73-101 | the rows listed are exactly the items filed under a key naming the expiration and a strike that reads as a number, in the payload's order |
| `OptionChainFields.SummarySays` | packages/sdk/src/schwab_gateway_sdk/chain_metadata.py:104-145 | the summary carries the payload's price, the later of its two positive underlying times, the counts of the listed rows and of their distinct strikes, and exactly the flags of what is missing |
| `OptionChains.ExpirationOptions` | src/schwab_gateway/upstream.py:479-505 | the strict reader yields every row of the expiration in order, or fails on the first unexpected shape |
| `OptionChains.TermsSayWhatTheContractSays` | src/schwab_gateway/upstream.py:218-301 | an accepted contract carries the two observed prices in order, flagged iff they came crossed; intrinsic value is cut at zero, and a time value is absent iff it was missing or negative |
| `OptionChainFields.FieldsAreTheirOwn` | src/schwab_gateway/upstream.py:508-556 | every field of an accepted contract comes from the payload field of its own name; each analytic is that number, or absent iff it is missing, unreadable or -999, the theoretical and time values also when negative; the event is the instant of the greatest of the four positive times |
| `OptionChainFields.AcceptedIff` | src/schwab_gateway/upstream.py:508-556 | a contract is accepted iff its symbol, strike and three prices are there and nothing else present is other than it should be, field by field |
| `OptionChainFields.ContractComesFromItsRow` | src/schwab_gateway/upstream.py:508-556 | a delivered contract holds its row's own fields, its age and exactly the flags that are so |
| `OptionChainFields.EventIsOf` | src/schwab_gateway/upstream.py:322-332 | the event is the instant of the greatest positive one of the four time fields, absent iff none is positive, and cannot be read iff one overflows or that instant does |
| `OptionChainFields.StaleExactlyBeyondTheThreshold` | src/schwab_gateway/upstream.py:333-345 | an age is the time since the event, never negative, and a reading is stale iff there is no event or the age exceeds the threshold |
| `OptionChains.AppendSide` | src/schwab_gateway/upstream.py:575-588 | collecting one side equals normalizing its rows one by one, refused as soon as the cap would be exceeded |
| `OptionChains.NormalizeOptionChain` | src/schwab_gateway/upstream.py:559-627 | the streaming normalization returns the specified chain or fails, including the cap and every validator |
| `OptionChainAcceptance.RowsIff` | src/schwab_gateway/upstream.py:479-505 | the strict reader accepts a side iff it is absent or every key is a text and, where the expiration occurs in it, holds readable strikes over lists of objects |
| `OptionChainAcceptance.ChainAcceptedIff` | src/schwab_gateway/upstream.py:559-627 | a payload becomes a chain iff its summary does not fail, both sides are listed strictly and hold rows, at most 5000 together, every row is acceptable, no symbol occurs twice, and a price, if there is one, is finite and positive |
| `OptionChainFields.ChainDeliversItsRows` | src/schwab_gateway/upstream.py:568-588 | contract by contract, a delivered chain carries the fields of its own row, calls before puts |
| `OptionChainFields.DeliveredChainSays` | src/schwab_gateway/upstream.py:589-627 | a delivered chain names its request, carries the payload's price, its age, and the flags for missing price, missing times and crossed markets iff they are so |
| `OptionChainLaws.HitEqualsFreshWork` | src/schwab_gateway/upstream.py:1072-1103 | re-evaluating at a later time the chain normalized earlier gives exactly what normalizing the same payload then gives, but for the time of receipt; whether normalization succeeds does not depend on time |
| `OptionChainLaws.ReevaluationComposes` | src/schwab_gateway/upstream.py:1072-1103 | re-evaluating twice is re-evaluating once, at the last time, for any chain |
| `OptionChainLaws.AggregateFreshness` | src/schwab_gateway/upstream.py:595-613 | a chain is stale iff every contract is, and its two freshness flags say which of all, some or none holds |
| `OptionChainLaws.AggregateAge` | src/schwab_gateway/upstream.py:590-600 | a chain's age is that of its freshest contract |
| `OptionChainLaws.DeliveredChainsQualify` | src/schwab_gateway/upstream.py:594-600 | every delivered chain, fresh or re-evaluated, has contracts and carries their latest event time, as the two lemmas above ask |
| `OptionChainLaws.NothingIsTruncated` | src/schwab_gateway/upstream.py:568-588 | an accepted chain has one contract for each row of the payload, calls first, in order |
| `OptionChainLaws.StrictRowsAreListed` | packages/sdk/src/schwab_gateway_sdk/chain_metadata.py:73-101 | whatever the strict reader accepts the tolerant reader lists row for row |
| `OptionChainLaws.StrictAgreesWithTolerant` | packages/sdk/src/schwab_gateway_sdk/chain_metadata.py:104-145 | whenever strict normalization succeeds, calls, puts and distinct strikes equal the tolerant summary's and no missing-side flag appears in either |
| `SessionHistories.NormalizeSessionHistory` | src/schwab_gateway/upstream.py:834-892 | the loop returns the specified session: the picked bars, the dropped-bar, holiday, early-close and empty flags, and freshness |
| `SessionFields.BarIff` | src/schwab_gateway/upstream.py:636-661 | a candle gives a bar iff its time is positive and representable, its prices and volume read and the volume is not negative, each from the field of its own name; it breaks the read iff a conversion overflows |
| `SessionFields.SessionHoldsItsCandles` | src/schwab_gateway/upstream.py:834-892 | a session holds, in order, exactly the bars its candles tell of that New York day and of those hours, 09:30 to 13:00 or 16:00 being regular, and its event, age and five flags say what is so |
| `SessionFields.CompletedIff` | src/schwab_gateway/upstream.py:895-905 | a session counts as completed iff its day is over in New York, it holds a bar and every candle of the response told of one |
| `SessionHistories.SessionsPartitionTheDay` | src/schwab_gateway/upstream.py:853-875 | the regular and extended results interleave to exactly the well-formed bars of that New York day, regular ones being those of regular hours; on a day without a session both are empty |
| `SessionHistories.InterleavingConserves` | src/schwab_gateway/upstream.py:861-875 | an interleaving loses nothing and repeats nothing |
| `SessionHistories.CachedSessionEqualsFreshWork` | src/schwab_gateway/upstream.py:347-356 | refreshing a session read earlier gives what normalizing the same candles now gives, but for the time of receipt |
| `SessionHistories.RefreshingComposes` | src/schwab_gateway/upstream.py:347-356 | refreshing twice is refreshing once, at the last time |
| `RecencyCaches.TrimmedIsLongestFit` | src/schwab_gateway/upstream.py:1245-1251 | eviction keeps the longest run of most recently used entries that meets both bounds |
| `RecencyCaches.JustStoredSurvives` | src/schwab_gateway/upstream.py:990-1005 | an entry that fits on its own survives the eviction its arrival causes, as the most recently used one |
| `RecencyCaches.BoundedIsRecentPartOfStack` | src/schwab_gateway/upstream.py:986-1005 | after any accesses a bounded cache is the most recently used end of the unbounded one, within both bounds, and every entry is the latest stored under its key |
| `RecencyCaches.TouchedMovesToTheEnd` | src/schwab_gateway/upstream.py:949-952 | a hit moves its entry to the end, keeps the others in order and neither loses nor adds one |
| `SessionCaches.SessionHistoryUpstream.CachedSessionHistory` | src/schwab_gateway/upstream.py:940-958 | a miss changes nothing; a hit moves the entry and returns the latest session stored under that key, read back and refreshed: some response normalized now but for the time of receipt if its prices are finite, a failure if they are not |
| `SessionCaches.SessionReadsBackIff` | src/schwab_gateway/upstream.py:954-990 | a session survives its stored text iff all its prices are finite, and otherwise cannot be read back |
| `SessionCaches.HitEqualsFreshWorkIffFinite` | src/schwab_gateway/upstream.py:940-958 | a stored read looked at later equals normalizing the same response then, but for the time of receipt, iff every price is finite; otherwise the hit fails |
| `SessionCaches.InfinitePriceBreaksEveryHit` | src/schwab_gateway/upstream.py:636-661 | on any trading day a concrete response that is accepted and may be stored, and on which every later hit fails |
| `SessionCaches.SessionHistoryUpstream.EvictToBounds` | src/schwab_gateway/upstream.py:1001-1007 | the eviction loop leaves the specified run of entries and keeps the byte counter equal to their sum |
| `SessionCaches.SessionHistoryUpstream.Insert` | src/schwab_gateway/upstream.py:993-1007 | the previous entry under the key goes, the new one is last, the rest is trimmed to the bounds, and the byte counter stays exact |
| `SessionCaches.SessionHistoryUpstream.Store` | src/schwab_gateway/upstream.py:986-1007 | a read is stored iff its session is complete and it fits alone, and is then the last entry; otherwise nothing changes |
| `SessionCaches.SessionHistoryUpstream.ReadArrives` | src/schwab_gateway/upstream.py:971-984 | a response is normalized and returned, and cached exactly when it may be |
| `ChainFetchGuarantees.StepKeepsInv` | src/schwab_gateway/upstream.py:1144-1267 | every step of callers, fetches and callbacks keeps the invariant of cache, registry and log |
| `ChainFetchGuarantees.FetchesAreCoalesced` | src/schwab_gateway/upstream.py:1180-1202 | in every run at most one fetch per key is unfinished, there are no more than the in-flight bound, and a running fetch's key is not cached |
| `ChainFetchGuarantees.StoreNeverReplaces` | src/schwab_gateway/upstream.py:1223-1226 | a completing fetch finds no entry under its key to replace |
| `ChainFetchGuarantees.HitIsRecentLatestAndFresh` | src/schwab_gateway/upstream.py:1144-1163 | in every run a hit is younger than the time to live, the latest chain stored under exactly that key, the outcome of the fetch started last for it, and equal to normalizing its payload now but for the time of receipt |
| `ChainFetchEffects.RequestEffect` | src/schwab_gateway/upstream.py:1144-1202 | in every reachable state a request hits iff an unexpired entry of its key is cached; else it joins iff a fetch of its key is under way; else it is refused iff as many fetches are under way as may be; else it starts one; the lookup drops exactly what has expired and moves the hit last |
| `ChainFetchEffects.LookUpEffect` | src/schwab_gateway/upstream.py:1144-1163 | the lookup before admission gives the same hits and does nothing but prune else |
| `ChainFetchEffects.JoinEffect` | src/schwab_gateway/upstream.py:1165-1178 | joining waits on the fetch under way for the key, and without one does nothing |
| `ChainFetchEffects.ResponseEffect` | src/schwab_gateway/upstream.py:1204-1251 | a response that normalizes completes its fetch with that chain and, iff it fits alone, is stored last for the time to live behind the longest run of recent entries that leaves it room; any other completes its fetch as malformed and leaves the cache alone |
| `ChainFetchEffects.StoredIsFound` | src/schwab_gateway/upstream.py:1144-1235 | what a response has just stored is what the next lookup of its key gives at any time before it expires, and nothing is from then on |
| `ChainFetchEffects.FailureEffect` | src/schwab_gateway/upstream.py:1206-1209 | a failed fetch is unavailable, a cancelled one cancelled, and neither touches the cache |
| `ChainFetchGuarantees.CacheRefinesRecencyLog` | src/schwab_gateway/upstream.py:1220-1251 | in every run the cache is the bounded reading of its access log and the recent end of the unbounded cache |
| `ChainFetchGuarantees.JoinersGetTheFetchOutcome` | src/schwab_gateway/upstream.py:1165-1202 | whoever waited on a fetch at any point, its owner included, is answered with that fetch's outcome or withdraws |
| `ChainFetchGuarantees.CancellationsAreInvisible` | src/schwab_gateway/upstream.py:1165-1178 | taking all cancellations out of a run leaves a run with the same fetches, registry, cache and answers of the others |
| `ChainFetchGuarantees.EntryRemovedExactlyOnce` | src/schwab_gateway/upstream.py:1257-1267 | a fetch's completion callback runs at most once, finds its own registry entry, and frees exactly its key |
| `OptionChainUpstreams.OptionChainUpstream.PruneExpired` | src/schwab_gateway/upstream.py:1237-1243 | the pruning loop leaves exactly the unexpired entries, in order, with the byte counter equal to their sum |
| `OptionChainUpstreams.OptionChainUpstream.EvictToBounds` | src/schwab_gateway/upstream.py:1245-1251 | the eviction loop leaves the specified run of entries with an exact byte counter |
| `OptionChainUpstreams.OptionChainUpstream.Insert` | src/schwab_gateway/upstream.py:1221-1234 | storing replaces an entry under the key, trims to the bounds and keeps the byte counter exact |
| `OptionChainUpstreams.OptionChainUpstream.LookUp` | src/schwab_gateway/upstream.py:1144-1163 | the lookup before admission equals its step, and a hit is some payload normalized now but for the time of receipt |
| `OptionChainUpstreams.OptionChainUpstream.JoinInflightOptionChain` | src/schwab_gateway/upstream.py:1165-1178 | joining adds one waiter to the running fetch and starts nothing |
| `OptionChainUpstreams.OptionChainUpstream.GetOptionChain` | src/schwab_gateway/upstream.py:1180-1202 | a request hits, joins, is refused or starts exactly one registered fetch, in that order of preference |
| `OptionChainUpstreams.OptionChainUpstream.ProviderResponded` | src/schwab_gateway/upstream.py:1204-1235 | a response is normalized, stored iff it fits alone, and completes its fetch with the chain or as malformed |
| `OptionChainUpstreams.OptionChainUpstream.ProviderFailed` | src/schwab_gateway/upstream.py:1206-1209 | a provider failure completes the fetch as unavailable and leaves the cache alone |
| `OptionChainUpstreams.OptionChainUpstream.FinishFetch` | src/schwab_gateway/upstream.py:1257-1267 | the callback removes exactly its own key from the registry |
| `TokenDocuments.ValidIff` | packages/token-store/src/schwab_token_store/__init__.py:397-425 | a document passes validation iff it is an object whose last creation timestamp is a positive number, whose last token field is an object with nonempty last access and refresh tokens, and in which nothing is beyond the encoder |
| `TokenDocuments.SerializableIff` | packages/token-store/src/schwab_token_store/__init__.py:418-424 | a document can be encoded iff no value at any depth is non-finite or unknown to the encoder |
| `TokenFiles.TokenFile.Write` | packages/token-store/src/schwab_token_store/__init__.py:237-274 | whatever step fails, at every instant the path holds the whole old or the whole new document, and once the new one never the old again; what is recorded for the sharing protocol is what happened, statement by statement |
| `TokenManagers.RefreshSettles` | packages/token-store/src/schwab_token_store/__init__.py:491-533 | a refresh never ends refreshing, and succeeds exactly into ready with the returned document on disk, computed from a valid document still inside its lifetime |
| `TokenManagers.RefreshIsAnswered` | packages/token-store/src/schwab_token_store/__init__.py:491-533 | every refresh, case by case and by what the documents contain: lock timeout, lock unavailable, file missing, corrupt, expired, callback revoked, reauthorization, raising, returning no token document, each step of writing failing, and success; each with its error, its health and what the path then holds |
| `TokenManagers.LoadSettles` | packages/token-store/src/schwab_token_store/__init__.py:429-489 | every load, case by case: the document at the path iff it is a token document before creation time plus lifetime, else the error and the health of what is wrong |
| `TokenManagers.WriteIsAnswered` | packages/token-store/src/schwab_token_store/__init__.py:694-721 | a client's write puts its document at the path only if it is a token document, and then iff nothing fails up to the rename |
| `TokenManagers.ScriptSettles` | packages/token-store/src/schwab_token_store/__init__.py:688-721 | after any accesses the path holds the document of the last write that landed, reads give that of the last write that returned, and the health is that of the last write |
| `TokenManagers.EachAccessIsAnswered` | packages/token-store/src/schwab_token_store/__init__.py:688-721 | what client code is told at each access: a read the last document that was written normally before it, a write its success or the error of what is wrong |
| `TokenManagers.FailedRefreshCommitsOnlyPastTheRename` | packages/token-store/src/schwab_token_store/__init__.py:237-274 | a failed refresh changes the path iff the callback returned a valid new document and only the directory sync after the rename failed |
| `TokenManagers.FailedRefreshMayCommit` | packages/token-store/src/schwab_token_store/__init__.py:262-274 | a concrete refresh that raises and yet changes the file |
| `TokenManagers.ReadsSeeTheLastWrite` | packages/token-store/src/schwab_token_store/__init__.py:688-721 | inside a transaction a read returns the last document whose write returned normally |
| `TokenManagers.ReadsMissTheDiskIff` | packages/token-store/src/schwab_token_store/__init__.py:688-721 | a read differs from what is on disk iff some write lost its directory sync over a document other than the one the client had, and no later write reached the disk |
| `TokenManagers.ReadsMayMissTheDisk` | packages/token-store/src/schwab_token_store/__init__.py:714-721 | a concrete write after which reads and disk differ |
| `TokenManagers.ClosedCallbacksAreInert` | packages/token-store/src/schwab_token_store/__init__.py:723-730 | after close every callback fails and touches neither file nor health |
| `TokenManagers.TokenManager.Load` | packages/token-store/src/schwab_token_store/__init__.py:481-489 | a load returns the document at the path, an unexpired token document, and leaves ready, or raises exactly the error of what is wrong and leaves that failure's state; the steps it records one by one make up one lock interval and touch no document |
| `TokenManagers.TokenManager.Refresh` | packages/token-store/src/schwab_token_store/__init__.py:491-533 | what is returned, and newly put at the path, is a token document by its fields; every case of failure has its error, its health and an untouched path but for a lost directory sync; the result equals the specified refresh, and the steps recorded at acquisition, load, callback, each part of the write and release add up to one lock interval |
| `TokenManagers.TokenManager.RunAccessTransaction` | packages/token-store/src/schwab_token_store/__init__.py:535-558 | it begins iff the path holds an unexpired token document, and is refused with the error of what is wrong otherwise, changing nothing; client code, whether it returns or raises, is answered access by access, sees exactly its own writes and finds its callbacks closed afterwards; what it raises leaves the health alone; its steps are one lock interval |
| `TokenManagers.TokenManager.RunAccessTransactionAsync` | packages/token-store/src/schwab_token_store/__init__.py:560-616 | the same for a coroutine; cancelled while waiting for the lock it runs nothing and leaves file and health alone, and gives an acquired lock back unless a second cancellation ends its bare wait |
| `TokenManagers.ScopedCallbacks.Write` | packages/token-store/src/schwab_token_store/__init__.py:694-721 | only a token document, by its fields, gets to the path and becomes current; each failure has its error and its health; on closed callbacks nothing changes |
| `TokenSharing.NoLostRefresh` | packages/token-store/src/schwab_token_store/__init__.py:340-394 | however operations interleave, fail or crash, a load or shared read sees the document committed last, a client is given the document its own interval loaded or last wrote normally, which is the one on disk unless a rename of that interval was never confirmed, and a commit replaces exactly what is on disk |
| `TokenSharing.GivenInItsOwnInterval` | packages/token-store/src/schwab_token_store/__init__.py:491-526 | whatever a client is given or writes from was loaded, or written normally, by the same operation with no acquisition or release in between |
| `TokenSharing.WritesLieInTheirOwnInterval` | packages/token-store/src/schwab_token_store/__init__.py:364-394 | every write to the path comes after its operation's own acquisition, with no acquisition or release between, and the next release is its own |
| `TokenSharing.AloneInItsInterval` | packages/token-store/src/schwab_token_store/__init__.py:340-394 | between taking the lock and leaving, whatever the others do, an operation's steps have the effect and the log they have with nobody else about |
| `TokenIntervals.RefreshInAnyCompany` | packages/token-store/src/schwab_token_store/__init__.py:491-533 | a refresh under its lock, interleaved with anything, leaves the path exactly as the specified refresh does and adds exactly its events to the shared log |
| `TokenIntervals.TransactionInAnyCompany` | packages/token-store/src/schwab_token_store/__init__.py:535-558 | an access transaction under its lock, interleaved with anything, leaves the path exactly as performing its script does, and every read is given what the script specifies |
| `TokenIntervals.RefreshInterval` | packages/token-store/src/schwab_token_store/__init__.py:491-533 | the steps a manager records for a refresh, lock and release included, leave the specified path, a free lock and one closed interval in the log |
| `TokenIntervals.TransactionInterval` | packages/token-store/src/schwab_token_store/__init__.py:535-558 | the same for an access transaction and its script |
| `TokenIntervals.CancelledEntryGivesBackIff` | packages/token-store/src/schwab_token_store/__init__.py:580-594 | an entry cancelled while it waits gives the acquired lock back iff no further cancellation ends the bare wait, and leaves the path alone |
| `TokenIntervals.SecondCancellationLeaksTheLock` | packages/token-store/src/schwab_token_store/__init__.py:584-594 | after two cancellations in a row on a free lock no other thread of the process ever enters, whatever anybody does |
| `TokenIntervals.HeldLockShutsOthersOut` | packages/token-store/src/schwab_token_store/__init__.py:178-185 | while an operation does not leave, no operation of another thread of its process gets as far as the in-process lock |
| `TokenSharing.ExclusiveWork` | packages/token-store/src/schwab_token_store/__init__.py:340-394 | at most one operation works on the path, never beside a reader, even where the re-entrant in-process lock lets operations of one thread nest; operations of different threads never share that lock |
| `MarketCalendar.EasterDateValid` | src/schwab_gateway/market_calendar.py:39-54 | the computed month and day are a real date for every year |
| `MarketCalendar.EasterIsFirstSundayAfterPaschalMoon` | src/schwab_gateway/market_calendar.py:39-54 | for every year the result is a Sunday from March 22 to April 25, the first one after the ecclesiastical full moon of the church's tables |
| `MarketCalendar.MoonAgrees` | src/schwab_gateway/market_calendar.py:40-52 | the algorithm's number for the moon is the one the golden number and the corrected epact give, for every year |
| `MarketCalendar.NthWeekdayIsNth` | src/schwab_gateway/market_calendar.py:27-30 | the result is that weekday, in the n-th week of the month, inside the month |
| `MarketCalendar.LastWeekdayIsLast` | src/schwab_gateway/market_calendar.py:33-36 | the result is that weekday within the last seven days of the month |
| `MarketCalendar.HolidaysAreWeekdaysOfTheirYear` | src/schwab_gateway/market_calendar.py:58-77 | every holiday is a Monday to Friday of its own year |
| `MarketCalendar.HolidayCount` | src/schwab_gateway/market_calendar.py:58-77 | holidays never coincide, so a year has exactly eight, plus New Year's Day unless it falls on a Saturday, plus Juneteenth from 2022 |
| `MarketCalendar.ClosuresByDate` | src/schwab_gateway/market_calendar.py:58-77 | a day is a listed closure iff the dates say so: the third Mondays of January and February, the last of May and the first of September, the fourth Thursday of November, the Friday before Easter by the church's moon, and the weekday nearest to January 1, unless that is a Saturday, June 19 from 2022, July 4 and December 25 |
| `MarketCalendar.TradingDaysByDate` | src/schwab_gateway/market_calendar.py:80-82 | a day trades iff it is a weekday and no year has such a closure on it |
| `MarketCalendar.SessionEndsByDate` | src/schwab_gateway/market_calendar.py:85-106 | a trading day ends at minute 780 iff it is July 3, December 24 or the Friday after the fourth Thursday of November, every other trading day at 960, and no other day has an end |
| `MarketCalendar.SevenDaysTrade` | src/schwab_gateway/market_calendar.py:80-82 | any seven consecutive days contain a trading day |
| `MarketCalendar.DayAfterThanksgivingClosesEarly` | src/schwab_gateway/market_calendar.py:85-98 | the day after Thanksgiving always trades and closes early |
| `MarketCalendar.LatestCompletedSession` | src/schwab_gateway/market_calendar.py:109-117 | the walk back returns the greatest trading day already closed at the given Eastern instant, within a week; closed means past, or today at or after 13:00 or 16:00 by the date alone |
| `MarketCalendar.LatestIsMonotone` | src/schwab_gateway/market_calendar.py:109-117 | a later instant never has an earlier latest session, and each instant has one |
| `OrderBookStores.FanoutConserves` | src/schwab_gateway/order_book_store.py:64-74 | arrivals are consumed, dropped or queued; the queue is bounded and holds the newest in order; nothing is dropped while everything fits |
| `OrderBookStores.Subscription.Offer` | src/schwab_gateway/order_book_store.py:67-74 | a full queue drops exactly its oldest item to make room |
| `OrderBookStores.OrderBookStore.Remember` | src/schwab_gateway/order_book_store.py:60-61 | the kept depth of every key stays the tail of the unbounded publish log |
| `OrderBookStores.OrderBookStore.FanOut` | src/schwab_gateway/order_book_store.py:64-74 | the loop serves every listed subscriber once, whatever the others' queues hold, and counts the overflows |
| `OrderBookStores.OrderBookStore.Publish` | src/schwab_gateway/order_book_store.py:59-74 | every matching subscriber gets the snapshot, no other queue changes, the drop counter grows by the number of matching full queues, the venue's feed counts as connected, and the store still refines its log |
| `OrderBookStores.OrderBookStore.QueueRefinesLog` | src/schwab_gateway/order_book_store.py:59-74 | since a subscriber joined, the matching publishes of the log are those it consumed, those it lost and those queued; its queue is bounded and is the newest part of them, and nothing is lost while all of them fit |
| `OrderBookStores.OrderBookStore.Consume` | src/schwab_gateway/api.py:1019-1019 | a subscriber takes the oldest item of its own queue and the store still refines its log |
| `OrderBookStores.OrderBookStore.MarkFeedState` | src/schwab_gateway/order_book_store.py:98-99 | only that venue's feed state changes |
| `OrderBookStores.OrderBookStore.SnapshotHealth` | src/schwab_gateway/order_book_store.py:104-122 | a key is healthy iff its feed is connected and its last publish in the log is recent enough; a limit that is not positive is an error |
| `OrderBookStores.OrderBookStore.Recent` | src/schwab_gateway/order_book_store.py:76-82 | the last min(n, history limit) publishes of the key, and an error exactly for a limit outside 1..1000 |
| `OrderBookStores.OrderBookStore.Subscribe` | src/schwab_gateway/order_book_store.py:84-93 | a new empty queue that joins at the present end of the log for a nonempty symbol set, nothing otherwise |
| `OrderBookStores.OrderBookStore.Unsubscribe` | src/schwab_gateway/order_book_store.py:95-96 | exactly that subscription goes |

## Left out

- Job, fetch and call objects live in tables indexed by order of creation rather than on the heap; no object is shared between schedulers or upstreams, so no aliasing is lost.
- One instant per uninterrupted section: the few clock readings inside one section of the source count as one.
- `_serve_upstream` is a coroutine per request; each stretch between its awaits is one method of `MarketDataReads`, and a request's local variables are its entry in a table of reads.
- Which exception a failing normalization raises: a refused validation and an overflowing conversion both count as failure. When several parts of one payload are bad, which one is met first is not modelled.
- `OptionChains.ExpirationOptions`: the generator is modelled as the list it yields; the consumer's cap is checked row by row in `AppendSide`.
- `ChainMetadata.CountExpiration`: two strike keys that both read as not-a-number count as one strike here; the strict normalizer rejects such a chain anyway.
- `OptionChainFields.AcceptedIff`: whitespace in contract symbols is ASCII.
- `Failures.RetryAfterSeconds`: digits and whitespace are ASCII; HTTP dates are a parameter.
- `SessionCaches.SessionHistoryUpstream.CachedSessionHistory`: the stored text is modelled where it loses something, in the bars' prices; the other fields come back as they were written.
- `SessionCaches.SessionHistoryUpstream.ReadArrives`: the cache lookup and the provider's failure before the response change no state and are not repeated here.
- `ReadGatewayCooldown.RepliesAreHonoured`: a read that joined another's fetch enters the table with its answer; its wait before that belongs to `ChainFetches`.
- `ReadGatewayTiming.AnsweredWithinBudget`: speaks of timers and tasks that run when due; nothing is claimed for a stalled event loop.
- `TokenFiles.TokenFile.Write`: rename is atomic as in IEEE Std 1003.1; descriptors, permissions and inode checks are not modelled, and the document is a value rather than bytes.
- `TokenManagers.TokenManager.RunAccessTransaction`: client code is the list of its accesses, chosen in advance, and whether it raises at the end.
- `TokenIntervals.SecondCancellationLeaksTheLock`: speaks of the in-process lock; the file lock of the abandoned context is freed whenever the interpreter collects it, and a later thread that is given the same identifier would count as the holder.
- `TokenSharing.NoLostRefresh`: about documents only; the health of a manager used from several threads at once is not modelled.
- `MarketCalendar.LatestCompletedSession`: the Eastern day and minute are inputs; before the first representable session the walk ends in no answer, and the upper end of the date range is not modelled.
- Metrics, logging, HTTP routing and response bodies, configuration checks, key issuing, the quote, spot, history and movers normalizers, stream login and the start-up warm-up read would only add easy members.
