# Portfolio and user valuations in Redis: model and proofs

A worker keeps portfolio and user valuations in Redis from three at-least-once Kafka streams: price ticks, trades, and
portfolio creations and deletions. This project models the protocol that keeps those cached numbers right when handlers
are cut off, records are redelivered, answers get lost, locks expire and workers overlap, and proves what the protocol
guarantees. Where the code guarantees less than its comments or design suggest, the exact condition is proved instead, with
a run that shows it.

The files, from the bottom up:

- `Domain.dfy`, `RedisDb.dfy`: trades, totals, sums over finite maps, the store as a value, and every write the worker
  makes on it (the Lua scripts, the mapping and snapshot pipelines).
- `Store.dfy`: the store as an object. Each method is one call. A `schedule` says how many more calls are made, what other
  workers do before each, and which answers get lost; when it is used up the handler has been cut.
- `TradeHandler.dfy`, `CacheService.dfy`, `Refinement.dfy`: the trade handler as a machine with one step per store call, as
  the service's methods, and as part of a system of many workers.
- `Ledger.dfy`, `TradeSystem.dfy`, `Quantities.dfy`, `ExactlyOnce.dfy`, `Exclusive.dfy`, `HoldingIndexes.dfy`,
  `AssetCount.dfy`, `Rounding.dfy`, `LostReads.dfy`, `PriceWorkers.dfy`, `StalePriceSaves.dfy`: any number of workers, price
  batches between their steps, against a plain ledger that posts each trade once.
- `Offsets.dfy`, `RecordConsumer.dfy`, `EndToEnd.dfy`: the consumer group, the retry, wait and rewind loops, and the group
  and the store together.
- `PriceTicks.dfy`, `Coalescing.dfy`, `PriceLock.dfy`, `FanOutWrites.dfy`, `PriceLockSet.dfy`, `PriceLockRuns.dfy`,
  `ProfitService.dfy`: versions, batch folding and the freshness filter, the lease locks and the writes under them with any
  interleaving, and the calls that use them.
- `Valuation.dfy`, `Revaluation.dfy`, `PriceBatch.dfy`, `FanOut.dfy`: the replacement script, what each write does to the
  distance between a portfolio's total and its stock values, and the fan-out of a batch.
- `UserAccounts.dfy`, `UserAggregates.dfy`, `PortfolioEvents.dfy`, `DoubleCount.dfy`, `LostOwners.dfy`,
  `TornMapping.dfy`: user totals over serial runs of trades, creations, deletions and price batches.
- `MarkerKeys.dfy`: the strings behind the markers.

What the proofs show that the code's comments do not say, with the condition for each and a run that fails it:

- A read that fails counts as zero, and the snapshot after it writes that zero over the counter: a redelivered trade can
  destroy a purchased value (`LostReads.OneLostReadDestroysTheCounter`). A price worker that saves the counters its script
  returned can take a trade back that ran in between (`StalePriceSaves.StaleSaveDestroysTheCounter`). A snapshot keeps the
  counters exactly when they are what it brings (`ExactlyOnce.SnapshotKeepsAccountsIffFresh`,
  `ExactlyOnce.CapturedKeepsAccountsIffFresh`).
- A rewind stops at the first Seek that fails, so a record of a partition it has not reached is committed over
  (`Offsets.RevokedSeekLosesRecord`, `Offsets.RewindIsSafeIff`). A fetch that fails after polling drops what it has polled
  (`Offsets.FailedFetchLosesRecord`, `Offsets.DroppingIsSafeIff`). An error of the Seek in a wait is ignored
  (`Offsets.FailedPutBackLosesRecord`, `Offsets.SkippingIsSafeIff`). Together: `Offsets.ProperIffNothingIsLost`.
- A price batch that re-sums a user between the portfolio write and the user write of a trade makes the trade count twice
  in the user's current value, and a batch that is given up before its re-sum leaves the user behind
  (`DoubleCount.OneTickBetweenTheWrites`, `DoubleCount.GivenUpBatchLeavesDebt`, `UserAggregates.ValueIsOffByDebt`).
- The replacement scripts do not check the lock: a call whose lock has expired writes an older value and version after a
  newer tick has been committed (`FanOutWrites.LateWriteFallsBehind`, `FanOutWrites.NeverBehindIff`).
- A mapping cut between its two commands, by a trade or a creation, stays half done until a deletion removes it
  (`TornMapping.OneTornTrade`, `TornMapping.TornCreationHalfMaps`, `TornMapping.HalfMappedIff`).
- A trade that gets no answer about the owner marks a counted portfolio as not counted, and its deletion then leaves the
  user one portfolio too many (`LostOwners.DeletedAndStillCounted`, `UserAggregates.DeleteKeepsIff`).
- The fold of a price batch comes before the integer check, so a newest tick with a fractional price hides older ticks that
  would have been applied (`Coalescing.FractionalWinnerHidesTick`, `Coalescing.CoalescingPreservesIff`).

## Model

| member | source | states |
|---|---|---|
| RedisStore.CountTrade | internal/redisstore/idempotent.go:163-191 | The trade script on a portfolio hash, branch by branch, equals its specification |
| RedisStore.Store.EvalCompareAndSet | internal/redisstore/idempotent.go:39-55 | One atomic step: replay answers the stored result, a changed value conflicts, otherwise value and marker are written together |
| RedisStore.Store.EvalPortfolioTradeTotals | internal/redisstore/idempotent.go:195-223 | All portfolio fields and the marker move in one step, and only once |
| RedisStore.Store.EvalUserTotals | internal/redisstore/idempotent.go:226-255 | All user fields and the marker move in one step, and only once |
| CacheService.RetryCompareAndSet | internal/redisstore/idempotent.go:60-84 | The retry loop takes the handler machine from its first attempt to a stored result, a lost call or giving up |
| CacheService.ChangeStockQuantity | internal/redisstore/idempotent.go:98-128 | Quantity once, then indexes, whatever interferes |
| CacheService.ApplyTradeToPortfolio | internal/redisstore/idempotent.go:195-223 | Legacy read, portfolio script and projection follow the machine; a legacy read without an answer counts as zero |
| CacheService.ApplyPortfolio | internal/service/cache.go:74-95 | The mapping, where no owner is found or the answer is lost, comes before the trade |
| CacheService.Trade | internal/service/cache.go:99-149 | Quantity, portfolio, user, in that order, with the result of the quantity step in the later deltas |
| CacheService.SavePortfolioSnapshot | internal/service/cache.go:163-173 | The snapshot writes back what its reads returned, and zero for a read without an answer |
| CacheService.SaveUserSnapshot | internal/service/cache.go:270-280 | The same for the user |
| CacheService.UpdatePortfolioCaches | internal/service/cache.go:24-72 | Under any interference, any lost answers and any cut the store ends where the machine ends, and nil is returned exactly when the machine is done |
| TradeHandler.GivingUpChangesNothing | internal/redisstore/idempotent.go:69-83 | A call that gives up has lost all its attempts and left the store to the others |
| TradeHandler.StoredNeverGivesUp | internal/redisstore/idempotent.go:60-84 | After its quantity is stored a handler no longer gives up |
| Refinement.InvocationIsARun | internal/service/cache.go:24-72 | A method invocation under interference by other workers, with lost answers, is a run of the system of all workers |
| TradeSystem.QuantityReachable | internal/redisstore/idempotent.go:39-84 | Under every interleaving, with lost answers, torn pipelines and price batches, the quantities are the fold of the distinct stored events, none is lost, and each marker holds the result of its own fold step |
| TradeSystem.StepHasQuantityEffect | internal/redisstore/idempotent.go:39-55 | A step stores the next quantity with its marker, or touches neither |
| Quantities.PostingTrades | internal/redisstore/idempotent.go:98-128 | Posting a buy stores the sum of what was there and its quantity; posting a sell stores the difference while it is positive and removes the key otherwise; no other key changes |
| Quantities.AttemptTrades | internal/redisstore/idempotent.go:39-84 | An attempt on an unmarked event with the value it expected does the same to the store, and marks whether the holding was new or is now gone; any other attempt changes no quantity and no marker |
| Quantities.AttemptLeadsTo | internal/redisstore/idempotent.go:60-84 | It leads to the index sync with the result that was stored first, or round again with the value found |
| Quantities.FifthConflictGivesUp | internal/redisstore/idempotent.go:23-84 | A handler gives up exactly on the fifth conflict of an event that is not marked |
| Quantities.StoredQuantityIsRunning | internal/redisstore/idempotent.go:39-128 | In every reachable state a stored quantity is what its distinct stored events come to one after the other; where no sell has emptied the holding, the opening quantity and their signed sum |
| Ledger.PostAllSnoc | internal/service/cache.go:99-149 | Posting one more trade leaves the results of the earlier ones |
| ExactlyOnce.ChainKept | internal/service/cache.go:97-98 | processed implies user-marked implies portfolio-marked implies quantity-marked, after every step |
| ExactlyOnce.OwnFrameKept | internal/service/cache.go:99-149 | What a running handler knows about its markers stays true across its own steps |
| ExactlyOnce.MarkersReachable | internal/redisstore/idempotent.go:13-15 | Quantities, marker chain and handler knowledge hold in every reachable state, whatever snapshots are saved |
| ExactlyOnce.SnapshotKeepsAccountsIffFresh | internal/redisstore/store.go:448-469 | Saving a snapshot keeps every counter exactly when nothing moved it since it was read |
| ExactlyOnce.CapturedKeepsAccountsIffFresh | internal/redisstore/store.go:470-490 | A price worker's save keeps every counter exactly when nothing moved it since its script ran |
| ExactlyOnce.InvKept | internal/redisstore/idempotent.go:13-15 | Every step keeps quantities, marker chain, handler knowledge and accounts |
| ExactlyOnce.InvReachable | internal/redisstore/idempotent.go:13-15 | With fresh snapshots, of trade handlers and price workers, the accounts hold each marked share once, and what price batches have moved, in every reachable state |
| ExactlyOnce.FullTotalIsLedger | internal/service/cache.go:99-149 | When every share has arrived the accounts are the ledger's |
| ExactlyOnce.TradesCountExactlyOnce | internal/service/cache.go:24-149 | Once each trade that left a trace has one complete invocation, quantities and all accounts equal a ledger that posted each distinct trade once, opened where the run started and moved by the price batches |
| LostReads.LostReadZeroesPurchased | internal/redisstore/store.go:517-521 | In any state, a redelivery of a processed trade whose read of pv gets no answer sets pv to zero and changes no other counter |
| LostReads.LostReadLeavesTheBooks | internal/service/cache.go:163-173 | It takes a store off the books exactly when the purchased value was not zero |
| LostReads.LostReadDestroysTheCounter | internal/service/cache.go:24-72 | From any blank start: one complete run counts the only trade, and such a redelivery destroys its purchased value |
| LostReads.OneLostReadDestroysTheCounter | internal/service/cache.go:24-72 | A concrete purchase of 10 from an empty store that ends at zero |
| StalePriceSaves.SaveStaysOnTheBooksIff | internal/redisstore/store.go:470-490 | Such a save keeps a store on the books exactly when its counters are the current ones |
| StalePriceSaves.StaleSaveDestroysTheCounter | internal/service/profit.go:225-252 | From any blank start: a price worker reads, the only trade is counted, and the save takes its purchased value back |
| PriceWorkers.PortfolioBatchIsRun | internal/service/profit.go:225-252 | Undisturbed, the price worker's actions on a portfolio leave its hash as after the fifth call of a batch and record by how much its total has moved |
| PriceWorkers.UserBatchIsRun | internal/service/profit.go:255-286 | The same for a user, after the ninth call |
| ExclusiveHandlers.ReadsReachable | internal/service/cache.go:163-173 | Handlers that overlap neither with each other nor with a price worker's save, and lose no answer about a non-zero counter, never save a stale snapshot |
| ExclusiveHandlers.ExclusiveTradesCountExactlyOnce | internal/service/cache.go:24-149 | Exactly-once for every such run, cut, torn and repeated in any way, with any price batches |
| HoldingIndexes.QuantitiesStayPositive | internal/redisstore/idempotent.go:112-119 | A stored quantity is always positive |
| HoldingIndexes.IndexReachable | internal/redisstore/idempotent.go:130-145 | When no two handlers overlap on one holding, the indexes follow the quantities wherever no trade is between quantity and sync, torn syncs included |
| HoldingIndexes.IndexesFollowQuantities | internal/redisstore/idempotent.go:130-145 | With the same: once the trades are complete, both indexes hold a holding exactly when a positive quantity is stored, late replays included |
| HoldingIndexes.TornSyncIsRepaired | internal/redisstore/idempotent.go:130-145 | A torn sync brings the stock's set of portfolios in line and leaves the portfolio's set of stocks behind; a sync after it brings both in line |
| AssetCount.AssetCountIsHoldings | internal/redisstore/idempotent.go:98-128 | ac plus the pending deltas is the number of held stocks less the sells of nothing, in every reachable state |
| AssetCount.LedgerCounts | internal/service/cache.go:106-134 | The ledger's count moves with the holdings, less one per sell of nothing |
| AssetCount.SharesPlusPending | internal/service/cache.go:106-134 | What has arrived and what is still owed together make up the ledger's count |
| Rounding.PurchasedValueIsWithinHalfPerTrade | internal/model/model.go:214-223 | A purchased value is within half a unit per distinct trade of the exact signed sum |
| Rounding.LedgerIsWithinHalves | internal/service/cache.go:110-136 | The same for every ledger |
| Rounding.LedgerValueIsExact | internal/service/cache.go:110-136 | A ledger's current values are its opening ones and the signed sums of price times quantity, exactly |
| Rounding.CurrentValueIsExactSum | internal/service/cache.go:24-149 | Once the trades are complete, in every run with fresh snapshots, a current value is the opening one, that sum, and what price batches have moved |
| Rounding.RoundingIsOdd | internal/model/model.go:214-223 | Rounding is symmetric about zero |
| Rounding.RoundingOfIntegersAndTies | internal/model/model.go:214-223 | Integers stay and ties go away from zero |
| Rounding.EqualBuyAndSellCancel | internal/service/cache.go:110-136 | A buy and a sell of one amount cancel in purchased and current value |
| Offsets.StepSafeIff | internal/kafka/consumer.go:330-446 | An action keeps the offsets safe exactly when it is proper: a fetch error drops, a rewind leaves behind, and a failed put-back skips, only settled records |
| Offsets.RunsAreSafeIff | internal/kafka/consumer.go:330-446 | The runs of the code that keep the offsets safe throughout are exactly the proper ones |
| Offsets.ProperIffNothingIsLost | internal/kafka/consumer.go:330-446 | An action is proper exactly when no proper continuation of it commits over a record that is not settled |
| Offsets.OffsetsAreSafe | internal/kafka/consumer.go:330-446 | In every proper run each offset below a stored or committed one belongs to a record that was handled or dead-lettered |
| Offsets.EarliestIsLeast | internal/kafka/consumer.go:531-539 | The rewind map holds the least offset of each partition of the batch |
| Offsets.RewindSafe | internal/kafka/consumer.go:530-546 | A rewind whose seeks all work keeps positions covered |
| Offsets.DroppingIsSafeIff | internal/kafka/consumer.go:207-214 | A fetch that fails after polling is harmless exactly when everything it drops is settled |
| Offsets.FailedFetchLosesRecord | internal/kafka/consumer.go:207-214 | A run in which a fetch fails after its first Poll and the next record is committed over the one dropped |
| Offsets.RewindIsSafeIff | internal/kafka/consumer.go:540-544 | A rewind, whichever of its seeks fail, is safe exactly when every polled record of a partition that they do not reach, in their order, is settled |
| Offsets.SkippingIsSafeIff | internal/kafka/consumer.go:392-395 | Passing over a message that was not put back is safe exactly when it is settled or in hand |
| Offsets.FailedPutBackLosesRecord | internal/kafka/consumer.go:392-395 | From any safe group: a put-back that fails on any other message has a continuation that commits over it |
| Offsets.RevokedSeekLosesRecord | internal/kafka/consumer.go:331-338 | A run in which a revoked partition's failing Seek loses a record of another partition |
| Offsets.CrashRedelivers | internal/kafka/consumer.go:183-204 | After a crash the partition is polled from its committed offset on, with nothing in hand |
| RecordConsumers.BackoffGrowsWithinBounds | internal/kafka/consumer.go:375 | The wait stays between initial and maximum and never decreases |
| RecordConsumers.DefaultWaits | internal/kafka/consumer.go:56-62 | The default policy waits one second first and thirty from the sixth wait on |
| RecordConsumers.FourteenWaits | internal/kafka/consumer.go:56-62 | Under the default policy, while publishing works, a record waits at most fourteen times |
| RecordConsumers.RecordConsumer.WaitPaused | internal/kafka/consumer.go:381-404 | A wait polls exactly while it has time left, each poll at most a tenth of a second and a millisecond, and does what its polls bring; it ends by itself exactly when they use its time up and none takes the partition of the record away; otherwise the partition is gone or the polls have run out |
| RecordConsumers.RecordConsumer.TryOnce | internal/kafka/consumer.go:348-374 | The dead letter topic is tried exactly when the handler fails, the worker is running, and the record cannot be decoded or its time is up; a turn settles the record exactly when the handler succeeds or that publication does; otherwise the earlier offsets are committed and the wait decides whether the loop goes on |
| RecordConsumers.RecordConsumer.ProcessRecord | internal/kafka/consumer.go:345-377 | Some number of turns went on and the next one decides: the record is settled exactly when that turn settles it, and is then in handled or in dead accordingly; otherwise there is no next turn, the worker shuts down, or the wait is cut. The waits are the backoff sequence; the first dead-letter attempt of a decodable record comes within one wait and one handler run after the allowed time |
| RecordConsumers.SettledIff | internal/kafka/consumer.go:345-377 | A record whose partition is assigned is settled exactly when some turn handles it, or is due and publishes, and every turn before it leaves the worker running and waits its whole time out with the partition kept |
| RecordConsumers.OneRetry | internal/kafka/consumer.go:345-404 | Under the default policy a record whose first run fails waits a second in ten polls and is handled by the next run |
| RecordConsumers.RecordConsumer.RewindBatch | internal/kafka/consumer.go:530-546 | The loops do one rewind action that visits every partition of the rest of the batch |
| RecordConsumers.RecordConsumer.ProcessRecords | internal/kafka/consumer.go:330-341 | The first records of the batch are settled and the rest is rewound, and nothing is rewound exactly when all are settled; while their partitions are kept, the settled ones are settled by a turn in time and the next one is not; a batch that is not rewound commits what it has stored |
| RecordConsumers.NothingIsRewound | internal/kafka/consumer.go:330-341 | A batch whose records all keep their partitions and are all settled in time is not rewound |
| RecordConsumers.SeekOneMore | internal/kafka/consumer.go:540-544 | A seek after a failed one is not reached |
| RecordConsumers.ProcessingKeepsOffsetsSafe | internal/kafka/consumer.go:330-446 | Processing a batch keeps the offsets safe throughout exactly when its trace is proper |
| RecordConsumers.RewindDecides | internal/kafka/consumer.go:530-546 | Where every put-back works, that is decided by what the final rewind leaves behind |
| RecordConsumers.StoredAfterBatch | internal/kafka/consumer.go:323-325 | After a price batch each assigned partition has the offset after its last record stored |
| RecordConsumers.ProcessPriceBatch | internal/kafka/consumer.go:303-327 | The handler runs again exactly while it fails, the worker is running and sleeps its time out, at most priceRetries + 1 times; the batch is finished exactly when the last run succeeds or is the last one allowed, and then its offsets are stored and committed |
| RecordConsumers.ThreePriceRuns | internal/kafka/consumer.go:303-327 | With the default policy a price batch whose handler keeps failing is given up after its third run |
| EndToEnd.WorldStep | internal/kafka/consumer.go:345-376 | Every step of handlers, and every proper one of the group, keeps the marker and offset invariants and their link |
| EndToEnd.CommittedRecordsAreCountedOrDead | internal/kafka/consumer.go:345-376 | Under every interleaving each record below a committed offset is dead-lettered or its trade is counted; a given-up trade has at most a prefix of its writes; with fresh snapshots the accounts hold each share once |
| PriceTicks.WallClockVersionOrder | internal/model/model.go:34-49 | A tick without version sorts before every versioned tick of its second and after every one of earlier seconds |
| PriceTicks.CommitsWholeTick | internal/redisstore/price_application.go:174-181 | What a commit stores of a request is its price, its time, and its version, for a tick without one the epoch second of the market's wall clock in millionths |
| PriceTicks.AcceptedIsNewer | internal/service/profit.go:84-108 | A request is accepted exactly when that version is higher than the applied one, which counts by its wall clock where it has none |
| Coalescing.RequestKeepsVersion | internal/model/model.go:79-84 | The request's effective version is its message's version |
| Coalescing.CoalesceBatch | internal/kafka/consumer.go:234-285 | The two loops keep one tick per stock in order of first appearance and make its request |
| Coalescing.WinnerIsFirstNewest | internal/kafka/consumer.go:251-269 | The kept tick is the first with the maximal version |
| Coalescing.FilterFresh | internal/service/profit.go:84-108 | Accepted requests in order and skipped ones by reason |
| Coalescing.EveryRequestIsTallied | internal/service/profit.go:84-108 | Each request is accepted or skipped for exactly one reason |
| Coalescing.OneByOneAt | internal/service/profit.go:84-108 | Messages taken one at a time end with the first newest tick with an integer price, if it is fresh |
| Coalescing.CoalescingPreservesMeaning | internal/kafka/consumer.go:234-270 | With integer prices a batch does what its messages would do one at a time |
| Coalescing.CoalescingPreservesIff | internal/kafka/consumer.go:273-281 | In general it does so for a stock exactly when the winner has an integer price or no integer tick is fresh |
| Coalescing.BatchInPlainTerms | internal/kafka/consumer.go:234-299 | A batch stores price, time and version of the first newest tick of a stock, if its price is an integer and it is newer than what is applied, and otherwise leaves the stock as it is |
| Coalescing.FractionalWinnerHidesTick | internal/kafka/consumer.go:273-281 | Two ticks of one stock, 10 and then 10.5: one at a time 10 is applied, as a batch nothing is |
| PriceLock.LeaseKept | internal/redisstore/price_application.go:50-144 | While a lock holds the token of a worker that has read, the applied state is the one it read |
| PriceLock.LockInvReachable | internal/redisstore/price_application.go:50-240 | That holds in every run of any workers, with expiry, loss of answers and crashes at any moment |
| PriceLock.CommitsAreAccepted | internal/redisstore/price_application.go:174-218 | Every commit stores price, time and version of one offered request that is newer than exactly the state it replaces, so the version strictly rises |
| PriceLock.OriginKept | internal/redisstore/price_application.go:174-181 | Every applied state is the initial one or holds one offered request's price, time and version |
| PriceLock.SettledKept | internal/service/profit.go:110-136 | A request whose call succeeded is never newer than the applied state |
| PriceLock.NewestTickIsApplied | internal/service/profit.go:84-129 | However ticks are ordered, repeated and split, once the newest of a stock has succeeded its state is the applied one and stays |
| PriceLock.LastOfTwoIsStored | internal/redisstore/price_application.go:183-187 | Two accepted requests for one stock in one call: the last is stored even if older |
| FanOutWrites.WorldReachable | internal/service/profit.go:110-129 | Locks, fan-out writes without a token check and commits, under any interleaving and expiry: a call that still holds its lock has not been overwritten by a committed one |
| FanOutWrites.CommittedWriterIsApplied | internal/service/profit.go:110-129 | Where the last writer of a holding has committed, its value and sv are those of the applied state |
| FanOutWrites.NeverBehindIff | internal/redisstore/store.go:174-206 | In every run no value is ever older than the applied state exactly when each write is at least as new as that state and each commit at most as new as the values of its stock |
| FanOutWrites.GuardedRunsAreTimely | internal/service/profit.go:139-167 | A run in which every write happens under its lock meets that condition |
| FanOutWrites.LateWriteFallsBehind | internal/redisstore/store.go:174-206 | A run in which a lock expires, a newer tick is committed, and the older call then writes the older value and version |
| PriceLockSet.UniqueIDs | internal/redisstore/price_application.go:54-62 | Strictly increasing, same elements |
| PriceLockSet.ReadReplies | internal/redisstore/price_application.go:78-95 | The leases acquired, a missing answer, and the first busy stock |
| PriceLockSet.ReleaseAllAt | internal/redisstore/price_application.go:220-240 | A release drops a lock exactly when it carries its token |
| PriceLockSet.CommitAllAt | internal/redisstore/price_application.go:174-218 | A commit stores and drops exactly where it carries the lock's token |
| PriceLockSet.LeftBehind | internal/redisstore/price_application.go:96-107 | A failed acquisition leaves a token behind exactly where an answer was lost or a release was not sent |
| PriceLockSet.PriceStore.AcquireStockPriceLocks | internal/redisstore/price_application.go:50-109 | All distinct ids with one fresh token each, or none up to lost commands; busy names the least taken id; other locks untouched |
| PriceLockSet.PriceStore.Refresh | internal/redisstore/price_application.go:153-172 | Succeeds exactly when every lock is still owned and answered; reports the first that is not |
| PriceLockSet.PriceStore.Commit | internal/redisstore/price_application.go:183-218 | Succeeds exactly when every lease with a state owned its lock and was answered |
| PriceLockSet.PriceStore.Release | internal/redisstore/price_application.go:227-240 | Only own tokens are deleted |
| PriceLockRuns.SettingIsARun | internal/redisstore/price_application.go:64-95 | The SETNX pipeline leaves the locks where the lock machine's steps of its worker do, and its yes answers are the locks it holds |
| PriceLockRuns.CommittingIsARun | internal/redisstore/price_application.go:183-218 | The pipeline of commit scripts is the machine's commits, locks and applied states alike |
| PriceLockRuns.ReleasingIsARun | internal/redisstore/price_application.go:227-240 | The pipeline of release scripts is the machine's releases |
| PriceLockRuns.OneCall | internal/service/profit.go:35-137 | A call for one newer tick of a free stock: undisturbed it is applied field by field and settled and its lock is gone; where the lock expires before the commit, nothing is stored and the call cannot succeed |
| PriceLockRuns.AbandonedLockBlocks | internal/redisstore/price_application.go:50-109 | The lock of a worker that gives up keeps every other worker out until it expires |
| ProfitService.UpdateProfitsByStockPriceChanges | internal/service/profit.go:35-137 | The call succeeds exactly when all requests have a time, all locks are free and answered, the fan-out succeeds, and reads, refreshes and commits are answered; it stores exactly the accepted ticks whose commit is carried out, field by field; locks found stay, and its own are gone except where an unanswered SETNX or a release that was not sent leaves one |
| ProfitService.FilteredTicks | internal/service/profit.go:84-129 | Committing the filtered requests leaves every requested stock with the tick if that is newer, and otherwise as it was |
| ProfitService.HandleStockMessages | internal/kafka/consumer.go:230-299 | A batch succeeds exactly when the call for its requests does, and leaves locks behind only as that does; a successful integer-priced batch leaves every stock where its messages one at a time would |
| Valuation.ReplaceStockCurrentValues | internal/redisstore/store.go:174-206 | The replacement script, accumulating one delta, equals replacing stock by stock |
| Valuation.ReplacedStock | internal/redisstore/store.go:183-192 | Exactly the listed stocks get new values and versions |
| Valuation.ReplacedTotal | internal/redisstore/store.go:190-198 | The total moves by the sum of the differences |
| Valuation.ReplacingTwice | internal/redisstore/store.go:174-206 | Running a script again changes nothing, whatever previous values it brings |
| Valuation.ScriptsCommute | internal/redisstore/store.go:174-206 | Scripts for different stocks of one portfolio commute |
| Valuation.ReplacementDrift | internal/redisstore/store.go:186-190 | A replacement keeps cvp minus the stock values exactly when its base is the value readers see |
| Valuation.TradeDrift | internal/redisstore/idempotent.go:163-191 | Buys and partial sells keep it, a deleting sell moves it by its residue, a missing total starts at zero and not at cv |
| Valuation.TradeWritesOnce | internal/redisstore/idempotent.go:195-223 | Script and projection of an unmarked trade are the trade that law speaks about |
| Valuation.DriftIsResidues | internal/redisstore/idempotent.go:163-191 | Over any serial run from any hash the drift equals the sum of the residues, a missing total's included |
| Valuation.TradeKeepsVersions | internal/redisstore/idempotent.go:159-191 | A trade deletes a stock's version exactly with its value, and otherwise touches no version |
| Valuation.RunsStayVersioned | internal/redisstore/store.go:64-66 | Over any serial run of replacements and trades a stock has a version only while it has a value |
| Valuation.DeletionStaysVersionedIff | internal/redisstore/store.go:365-378 | Deleting a portfolio's state breaks that exactly when a deleted stock has a version |
| FanOut.BuildTasks | internal/service/profit.go:184-189 | One task per requested stock and indexed portfolio |
| FanOut.ComputeValues | internal/service/profit.go:204-219 | New values for exactly the tasks with a quantity, each the requested price times the quantity stored |
| FanOut.SumValues | internal/redisstore/store.go:327-338 | The loop computes the sum over the user's portfolios |
| FanOut.WriteUsers | internal/service/profit.go:264-286 | Users are as far along as the calls got |
| FanOut.ApplyStockPriceChanges | internal/service/profit.go:169-290 | Undisturbed, the store is as far along as the calls got, and a complete batch succeeds |
| PriceBatch.HoldingsRevalued | internal/service/profit.go:206-219 | Exactly the indexed holdings of the batch with a quantity get price times quantity and the tick's version, in plain arithmetic; no other holding changes |
| PriceBatch.ThreeSharesAtTwenty | internal/service/profit.go:206-219 | Three shares of an indexed holding at 20 are worth 60 in the hash and in the compatibility key |
| PriceBatch.TotalsRevalued | internal/redisstore/store.go:182-198 | Each cvp moves by the sum of differences and keeps its distance from the sum of its stock values |
| PriceBatch.UsersRevalued | internal/redisstore/store.go:291-363 | Each touched owner's cvp is the re-sum; other users are as before |
| PriceBatch.RevaluingAgain | internal/service/profit.go:169-290 | A batch cut after any call and run again leaves the store as one complete run does |
| PortfolioEvents.CreatePortfolioMapping | internal/service/cache.go:216-241 | The creation's writes in order, however far they get; it succeeds unless it is cut within its six calls |
| PortfolioEvents.DeletePortfolioMapping | internal/service/cache.go:245-268 | The deletion's writes in order, however far they get; it succeeds unless it is cut within its ten calls |
| PortfolioEvents.UpdateUserCaches | internal/service/cache.go:175-212 | One event: all writes and the snapshot on success, which only a cut within its calls prevents |
| UserAggregates.CreateKeeps | internal/service/cache.go:214-241 | A creation, cut anywhere, keeps what each user's totals owe to their portfolios |
| UserAggregates.DeleteKeeps | internal/service/cache.go:243-268 | A deletion of a portfolio whose creation is whole or absent, cut anywhere, keeps it too |
| UserAggregates.DeleteKeepsIff | internal/service/cache.go:243-268 | It keeps it exactly then |
| UserAggregates.UncountedDeletionLeavesOne | internal/service/cache.go:248-257 | Otherwise it leaves the user one portfolio too many |
| UserAggregates.AloneKeeps | internal/service/cache.go:24-149 | So does a trade handler, cut anywhere |
| UserAggregates.AloneIsRun | internal/service/cache.go:24-72 | The undisturbed handler is the handler machine under an idle schedule |
| UserAggregates.TickKeeps | internal/service/profit.go:169-290 | A price batch, cut anywhere, moves nothing but values |
| UserAggregates.PurchasesAndCountsAddUp | internal/service/cache.go:216-268 | A finished user has the purchased values and the number of the mapped portfolios, and owner fields and sets are inverse |
| UserAggregates.ValueIsOffByDebt | internal/kafka/consumer.go:303-327 | After any allowed run a finished user's value is the sum of the user's portfolios less the debt the run's price batches left, and right exactly when that is zero |
| DoubleCount.UndisturbedHandlerFinishes | internal/service/cache.go:24-72 | An undisturbed trade handler is done after at most twenty-one calls |
| DoubleCount.ReSumBetweenTheWritesCountsTwice | internal/service/profit.go:255-286 | A re-sum between the two writes of a trade leaves the finished user off by its amount |
| DoubleCount.OneTickBetweenTheWrites | internal/service/profit.go:255-286 | A concrete store in which that happens |
| DoubleCount.GivenUpBatchLeavesDebt | internal/kafka/consumer.go:303-327 | A concrete batch that is given up before its re-sum: the portfolio stands at 20 and its finished user at 10 |
| LostOwners.LostOwnerMiscounts | internal/service/cache.go:74-95 | For any counted portfolio: a trade that gets no answer about the owner, however far it gets, makes the deletion leave the user one portfolio too many |
| LostOwners.DeletedAndStillCounted | internal/service/cache.go:74-95 | A concrete user whose only portfolio is deleted and who still has a count of one |
| TornMapping.TornMappingIsNeverRepaired | internal/redisstore/store.go:400-406 | Until a deletion removes it, a half-mapped portfolio is out of its owner's set and of every re-sum |
| TornMapping.HalfMappedIff | internal/redisstore/store.go:393-421 | Over any serial run a portfolio is half mapped in the end exactly when it was in the beginning and no deletion has removed its mapping |
| TornMapping.TornRunHalfMaps | internal/redisstore/store.go:400-406 | From any store without the portfolio: a trade handler torn at its mapping leaves it half mapped |
| TornMapping.OneTornTrade | internal/redisstore/store.go:400-406 | A concrete run from the empty store |
| TornMapping.TornCreationHalfMaps | internal/redisstore/store.go:393-399 | A creation torn at its mapping leaves the portfolio half mapped, and run again writes nothing towards it |
| TornMapping.TornRemovalIsRepaired | internal/redisstore/store.go:413-421 | A removal that runs again takes the portfolio out of the set, wherever the first one was torn |
| MarkerKeys.MarkerSharesSlotIff | internal/redisstore/idempotent.go:17-35 | A marker's hash tag is its data key exactly when that key is not empty and has no closing brace |
| MarkerKeys.MarkerSharesSlot | internal/redisstore/idempotent.go:17-18 | The marker of a non-empty data key without a closing brace is hashed like the key itself, whatever else that holds |
| MarkerKeys.MarksShareSlots | internal/redisstore/idempotent.go:17-18 | Every marker of the model lies in the slot of the key it guards, for user names without a closing brace |
| MarkerKeys.QuantityKeyInjective | internal/redisstore/store.go:56-58 | Different holdings have different quantity keys |
| MarkerKeys.MarkerKeyInjective | internal/redisstore/idempotent.go:25-35 | A marker key determines its data key, whatever that holds, and its event key |
| MarkerKeys.EventKeyInjective | internal/service/cache.go:151-161 | An event key determines its event |
| MarkerKeys.MarksAreDistinctKeys | internal/redisstore/idempotent.go:25-35 | Different markers of the model are different strings, whatever the user names are |
| MarkerKeys.MarkerExamples | internal/redisstore/idempotent.go:25-35 | The markers of trade 7 on portfolio 1, stock 105 and the user ann, and of the two events of portfolio 3, spelled out |

## Left out

- Atomicity: in the systems of all workers the two-command pipelines of a trade (mapping, index sync) can be torn, and TornMapping has the torn pipelines of creations and deletions; the methods of the store, the deletion of a portfolio's state and the bulk writes of the price handler run whole.
- Reads: lost answers are part of the trade handler. The serial runs of UserAggregates and the methods of PortfolioEvents have none; LostOwners has what a lost owner does there.
- Interference on snapshots: exactly-once for pv, ac and pc needs snapshots that are fresh when saved, which workers that do not overlap and lose no counter guarantee; quantities, markers, holding indexes and the price locks need no such assumption.
- Price workers among trade handlers: their writes carry any values, and a batch is one worker per account; creations and deletions are not among those actions, but in the serial runs of UserAggregates.
- Requests: one trade per invocation of UpdatePortfolioCaches and one event per invocation of UpdateUserCaches, as the consumers make them.
- Trades: every trade names its user and has a non-zero id, and its content is fixed by its id; trades without a user and the unmarked writes of trade id zero are not modelled.
- Markers: they do not expire.
- Arithmetic: amounts, values and Lua numbers are exact; binary floating point, saturation of rounding and 64-bit overflow are not modelled.
- Compare-and-set: quantities are compared as numbers, and the code compares their decimal strings.
- User ids: numbers that stand for the strings; MarkerKeys takes their names as a parameter.
- CacheService.UpdatePortfolioCaches: the sets of changed portfolios and users are one portfolio and one user.
- FanOut.WriteUsers: proved for a store that nobody else writes meanwhile.
- FanOut.ApplyStockPriceChanges: the re-sum and the replacement scripts are proved for a store that nobody else writes meanwhile.
- PortfolioEvents.CreatePortfolioMapping: proved for a store that nobody else writes meanwhile and with every answer arriving.
- PortfolioEvents.DeletePortfolioMapping: the same.
- PortfolioEvents.UpdateUserCaches: the same, for one event per call.
- PriceLockSet.PriceStore.AcquireStockPriceLocks: one call at a time, with commands lost in any way; what other workers do between its commands is the subject of PriceLock, of which each pipeline is a run (PriceLockRuns).
- ProfitService.UpdateProfitsByStockPriceChanges: the fan-out is a flag that says whether it succeeds (FanOut has its calls, FanOutWrites its place between read and commit), and the renewal in the background is left out: the proofs of PriceLock do not depend on it.
- ProfitService.HandleStockMessages: the same.
- Offsets.OffsetsAreSafe: a partition is assigned only with a committed offset, so the offset reset is not modelled; the price topics, whose batches are given up, are outside it.
- RecordConsumers.RecordConsumer.ProcessRecord: commits and publications take no time, and an attempt at the list's end counts as a shutdown.
- UserAggregates.PurchasesAndCountsAddUp: a portfolio is created once and before it is deleted, no trade follows its deletion, and a trade that maps a portfolio before its creation finds it at zero.
- UserAggregates.ValueIsOffByDebt: the same runs.
- Calendar and decoding: wall-clock seconds and decoded events are inputs; JSON, time layouts and sub-second parts are not modelled.
- Dirty sets, profit rates, update times, metrics, logging, configuration, health handlers, price-gap checks and the unused incremental user update: no property here depends on them.
- Kafka and Redis client plumbing and dead-letter headers: publishing succeeds or fails.
