# Verified model of the collection, roll-up and backtest core

This Dafny project models the parts of the system whose correctness depends on whole runs: what is known
about each instant of a market (coverage), how candles are rolled up and recomputed, how work is leased and
handed on, how operators and the exchange's catalog share control over collection, how a backtest replays the
past, how the gateway keeps to the exchange's limits, how the realtime stream notices losses, and how a dataset
gets its canonical hash. Check it with `dafny verify dfyconfig.toml`.

| files | subject |
|---|---|
| `Ordering.dfy` | sorting, filtering and text order used by the others |
| `Calendar.dfy`, `RollupRanges.dfy` | roll-up buckets on the Gregorian calendar, ranges of affected buckets |
| `Coverage.dfy`, `MarketAvailability.dfy` | the table of coverage intervals; catalog observations over time |
| `Rollup.dfy`, `RollupBuild.dfy`, `RollupLocality.dfy`, `RollupTotals.dfy` | what a rolled-up candle is, how the code builds it, what it depends on, what is conserved |
| `RollupMeaning.dfy`, `RollupSlots.dfy`, `RollupAnswer.dfy` | what the returned candles say of the source candles: values, slots, the whole list |
| `Incremental.dfy`, `Invalidation.dfy`, `InvalidationLimits.dfy` | recomputing only what changed; which buckets a coverage change invalidates |
| `LeaseQueue.dfy`, `LeaseSafety.dfy`, `LeaseRequests.dfy`, `LeaseMeaning.dfy` | the leased queue of backtest runs, its guarantees, its requests, how long a lease is good for |
| `TargetIntent.dfy`, `TargetIntentRuns.dfy`, `BackfillWork.dfy`, `BackfillExact.dfy` | collection targets, subscriptions and backfill work |
| `BacktestReplay.dfy`, `BacktestCausality.dfy`, `BacktestMeaning.dfy` | the replay engine; no look-ahead, a ledger that adds up, what a run reports |
| `RateLimits.dfy`, `RateBounds.dfy` | sliding-window limiters and their bounds |
| `RealtimeStream.dfy`, `StreamOnTrust.dfy`, `SubscriptionGate.dfy` | the sequenced stream end to end, with and without a `subscribed`; the page's subscription gate |
| `BackfillFetch.dfy` | missing ranges, backward paging, completeness of a backfill target |
| `CanonicalDigest.dfy`, `DigestLimits.dfy`, `DatasetProjection.dfy` | streaming and batch hashing of a dataset, where they part; its projections |

## How it is modelled

Times are integers (UTC microseconds from 0001-01-01, which was a Monday; seconds as reals in the limiters),
prices and quantities are reals, hashes are kept as what they digest. Each database transaction is one step of
a class that stands for the tables; clock readings, status readings and replies of the exchange are parameters,
and results over whole runs quantify over all sequences of such steps. A `trading_status` is modelled as trading
or not.

Where the code does not meet a property everywhere, the model follows the code, shows an input and proves the
exact condition:

- A coverage overwrite whose bounds are off a unit's slot grid (minutes up to a day, days for weeks and months)
  can change a candle without recording a transition; on the grid it never does.
- Coverage of a daily spec is read by all units, but its changes enqueue days, weeks and months only, so its
  invalidation is complete for exactly those units.
- A failing run with 31 or more attempts behind it and attempts left cannot be reported as failed, because the
  backoff power is cast to a 32-bit integer before it is capped; it waits for its lease to expire. The HTTP API
  allows at most 10 attempts (`apps/api/goodmoneying_api/schemas.py:437`), so only direct callers of `create_run`
  can get there.
- The replay engine itself accepts a negative latency and then looks ahead; the store that builds its
  specification refuses one (`packages/shared/goodmoneying_shared/backtest_store.py:1127`).
- A tracker that has not seen `subscribed` takes the first event or heartbeat it gets on trust. Such a tracker is
  made after every recovery, before the next `subscribed` arrives (`apps/web/src/useRealtimeAnalysis.ts:400`). It
  can be relied on exactly when no event was posted between the `subscribed` it missed and that first message.
- A subscription answered with `snapshot_required` stays in the gate's queue, so every later session on that socket
  is credited to an older generation and no data is applied any more; without such a reply data is applied exactly
  when it is the latest subscription's.
- An error about an already answered subscription that arrived while newer ones are pending would make the gate
  count wrongly and show stale data. The server in this repository answers each subscription once and sends no
  such error.
- The streaming digest compares keys as text, where a missing unit and a unit called "None" are the same.
- An exclusion whose free-text reason equals the internal "data type disabled" mark is later read as that mark.

## Model

| member | source | states |
|---|---|---|
| `Coverage.CoverageTable.Replace` | packages/shared/goodmoneying_shared/coverage_transition.py:33-122 | from any table of pairwise exclusive intervals: the new table is exclusive, every instant of the range reads the new classification and every other instant and spec reads as before, no bound is invented, and the transitions are disjoint, cover exactly the instants whose status changed and carry the previous status (None for a gap); an empty range or unknown spec changes nothing |
| `Coverage.CoverageTable.SplitOverlaps` | packages/shared/goodmoneying_shared/coverage_transition.py:65-95 | deletes each overlapping row, re-inserts its parts outside the range, and records the clipped ranges and status changes |
| `Coverage.AppendGaps` | packages/shared/goodmoneying_shared/coverage_transition.py:96-103 | the gap loop appends exactly the transitions of the uncovered parts |
| `Coverage.GapsExact` | packages/shared/goodmoneying_shared/coverage_transition.py:96-103 | the gaps found between ordered covered ranges are exactly the instants of the range that no covered range holds |
| `Coverage.TransitionsExact` | packages/shared/goodmoneying_shared/coverage_transition.py:62-103 | overlap and gap transitions together are exact: disjoint, within the range, covering precisely the changed instants, each with its previous status |
| `Coverage.CarvedReads` | packages/shared/goodmoneying_shared/coverage_transition.py:74-95 | a table with the range carved out reads as before outside it |
| `Coverage.RepeatIsSilent` | packages/shared/goodmoneying_shared/coverage_transition.py:62-103 | repeating an overwrite with the same status yields no transition |
| `MarketAvailability.Observe` | packages/shared/goodmoneying_shared/data_foundation_repository.py:577-643 | one catalog observation overwrites, per spec of the market, exactly what the pointwise step says |
| `MarketAvailability.Withdraw` | packages/shared/goodmoneying_shared/data_foundation_repository.py:591-608 | an unavailable market reads unavailable from the observation to the open end |
| `MarketAvailability.Resume` | packages/shared/goodmoneying_shared/data_foundation_repository.py:610-643 | a resumed market loses exactly the instants still marked unavailable by the catalog |
| `MarketAvailability.AvailabilityOverRuns` | packages/shared/goodmoneying_shared/data_foundation_repository.py:577-643 | for every run of observations: once one at or before it found the market not trading (or any was made, if the catalog had withdrawn it before the run), an instant reads unavailable with that reason exactly when the latest observation at or before it was not trading, else unverified; until then, and for other specs, it reads as it did |
| `MarketAvailability.LatestIsLatest` | packages/shared/goodmoneying_shared/data_foundation_repository.py:577-643 | the observation the closed form names is the last one at or before the instant |
| `Calendar.GregorianYearStart` | packages/shared/goodmoneying_shared/incremental_aggregation.py:64-83 | the model's year starts agree with the Gregorian leap-year rule in closed form |
| `Calendar.BucketContains` | packages/shared/goodmoneying_shared/aggregation.py:29-49 | every instant lies in its bucket, for minutes, hours, days, ISO weeks and calendar months |
| `Calendar.EndIsStart` | packages/shared/goodmoneying_shared/incremental_aggregation.py:64-83 | the end of a bucket is the start of the next one |
| `Calendar.BucketUnique` | packages/shared/goodmoneying_shared/aggregation.py:29-49 | an instant of a bucket has that bucket's start: buckets partition time |
| `Calendar.SlotsTile` | packages/shared/goodmoneying_shared/aggregation.py:270-295 | the slots a bucket's completeness is judged by tile the bucket, including months of 28 to 31 days |
| `Calendar.DayNests` | packages/shared/goodmoneying_shared/aggregation.py:83-105 | days nest in weeks and months |
| `RollupRanges.GroupStarts` | packages/shared/goodmoneying_shared/incremental_aggregation.py:96-117 | the grouping loop cuts ordered bucket starts into maximal contiguous runs of at most 512 |
| `RollupRanges.AffectedRanges` | packages/shared/goodmoneying_shared/incremental_aggregation.py:86-117 | the ranges of all changed instants, unit by unit |
| `RollupRanges.AffectedRangesForInterval` | packages/shared/goodmoneying_shared/incremental_aggregation.py:120-149 | refinement: the interval form returns exactly what the point form returns for all instants of the interval, and terminates |
| `RollupRanges.AffectedExactly` | packages/shared/goodmoneying_shared/incremental_aggregation.py:86-117 | a bucket lies in a range exactly when it holds a changed instant; every range is a whole run of 1 to 512 buckets |
| `RollupRanges.IntervalTiles` | packages/shared/goodmoneying_shared/incremental_aggregation.py:120-149 | the ranges of an interval tile from the bucket of its start to the first boundary at or after its end, all full but the last |
| `RollupRanges.ChunksCover` | packages/shared/goodmoneying_shared/incremental_aggregation.py:96-117 | every bucket start is in some range |
| `RollupRanges.ChunksOnly` | packages/shared/goodmoneying_shared/incremental_aggregation.py:96-117 | ranges hold no other bucket start |
| `Rollup.SortSame` | packages/shared/goodmoneying_shared/aggregation.py:138-140 | lists with the same candles at each instant sort alike |
| `Rollup.LastDailyIn` | packages/shared/goodmoneying_shared/aggregation.py:84-92 | the daily source candle that wins is one of those with that start, and one wins whenever there is one |
| `RollupBuild.SplitSource` | packages/shared/goodmoneying_shared/aggregation.py:64-70 | the source is split by unit in order |
| `RollupBuild.GroupByBucket` | packages/shared/goodmoneying_shared/aggregation.py:74-79 | the dictionary holds, under exactly the buckets that occur, the items of each in order |
| `RollupBuild.MissingSlotStatuses` | packages/shared/goodmoneying_shared/aggregation.py:270-293 | the qualities of exactly the slots without a candle, in order |
| `RollupBuild.AggregateGroups` | packages/shared/goodmoneying_shared/aggregation.py:131-176 | one candle per bucket, in order of start |
| `RollupBuild.Overlay` | packages/shared/goodmoneying_shared/aggregation.py:84-92 | later views replace earlier ones of the same start, others stay |
| `RollupBuild.AggregateDaily` | packages/shared/goodmoneying_shared/aggregation.py:80-92 | days from minutes, overridden by daily source candles, in order |
| `RollupBuild.AggregateLong` | packages/shared/goodmoneying_shared/aggregation.py:93-106 | weeks and months through days: the list holds exactly the candle of every week or month that has a day |
| `RollupBuild.AggregateCandles` | packages/shared/goodmoneying_shared/aggregation.py:52-106 | for every unit the list holds the candle of every bucket that has one, in order of start, each once |
| `RollupLocality.ViewLocal` | packages/shared/goodmoneying_shared/coverage_transition.py:268-292 | rolling up only the candles and clipped coverage of a bucket-aligned range gives inside it exactly the full roll-up, and nothing outside |
| `RollupLocality.ViewUnchanged` | packages/shared/goodmoneying_shared/aggregation.py:52-176 | a candle depends only on the source of its own bucket |
| `Incremental.IncrementalEqualsFull` | packages/shared/goodmoneying_shared/incremental_aggregation.py:86-117 | if two sources differ only at the changed instants, recomputing only the affected ranges, each from its own candles and clipped coverage, turns the old roll-up table into exactly the new one, for every unit |
| `Incremental.RollupIgnoresOrder` | packages/shared/goodmoneying_shared/aggregation.py:131-176 | the roll-up ignores the order of the source when no two candles of a unit start together |
| `Incremental.TableLookup` | packages/shared/goodmoneying_shared/aggregation.py:52-106 | the table holds exactly the candles the bucket function gives |
| `Invalidation.Enqueue` | packages/shared/goodmoneying_shared/coverage_transition.py:184-292 | clamping, cutting and skipping ranges without source yields exactly the enqueued ranges, and each has a reason: it holds a source revision, and each of its whole buckets holds an instant of the transition at most 32 days from the revisions |
| `Invalidation.EnqueuedJustified` | packages/shared/goodmoneying_shared/coverage_transition.py:238-255 | the same of any one enqueued range, and its unit is one the spec affects |
| `Invalidation.ClampNear` | packages/shared/goodmoneying_shared/coverage_transition.py:238-240 | the clamp keeps exactly the instants of the transition within 32 days of the source revisions |
| `Invalidation.InvalidationComplete` | packages/shared/goodmoneying_shared/coverage_transition.py:123-292 | when bounds lie on the unit's slot grid, every candle whose quality or completeness a coverage overwrite changes lies in a range enqueued for one of its transitions, despite the 32-day clamp and the skipped ranges |
| `InvalidationLimits.MisalignedIsMissed` | packages/shared/goodmoneying_shared/aggregation.py:270-293 | for every unit, every status and every range with a bound off that grid there is an aligned table and a source for which the overwrite records no transition and still changes a candle: alignment is exactly what completeness needs |
| `InvalidationLimits.DailySpecMisses` | packages/shared/goodmoneying_shared/coverage_transition.py:184-292 | for each unit a daily spec leaves out, a missing first day changes a candle that no range of that spec covers |
| `InvalidationLimits.CompleteIffAffected` | packages/shared/goodmoneying_shared/coverage_transition.py:184-292 | invalidation is complete for a unit exactly when the spec enqueues that unit: daily specs for days, weeks and months only, minute specs for every unit |
| `InvalidationLimits.DailySpecUnits` | packages/shared/goodmoneying_shared/coverage_transition.py:184-292 | a daily spec enqueues days, weeks and months only |
| `RollupTotals.HierarchicalIsDirect` | packages/shared/goodmoneying_shared/aggregation.py:93-106 | from minutes alone, the week or month built through days has the open, high, low, close, volume, amount, source and knowledge times and revisions of its minutes taken directly |
| `RollupTotals.TotalsConserved` | packages/shared/goodmoneying_shared/aggregation.py:131-176 | for every unit all candles together have the first open, extremes, last close, volume and amount of all minutes together |
| `RollupTotals.ListingIsCandles` | packages/shared/goodmoneying_shared/aggregation.py:52-106 | these are the candles the operation returns |
| `RollupTotals.BucketsAreAll` | packages/shared/goodmoneying_shared/aggregation.py:74-79 | the buckets one after the other are the minutes in order |
| `RollupAnswer.CandlesSay` | packages/shared/goodmoneying_shared/aggregation.py:52-176 | of the list that is returned, for any source: candles in strict order of start, one for every bucket a source candle goes into; each says in terms of the source candle fields what it should - prices, totals, source and knowledge times, revisions, digest, and slot by slot its quality and completeness; weeks and months are the same of the listed days, and for a minute source of the minutes themselves |
| `RollupMeaning.SummaryReports` | packages/shared/goodmoneying_shared/aggregation.py:131-176 | high and low are the extremes of the source candles of the bucket, open and close those of an earliest and a latest one, volume and amount their sums, source and knowledge time the latest of theirs (the collection time where there is no knowledge time), the revisions exactly theirs |
| `RollupMeaning.SummaryCombines` | packages/shared/goodmoneying_shared/aggregation.py:145-173 | the same of ordered items that are candles themselves |
| `RollupSlots.QualityGraded` | packages/shared/goodmoneying_shared/aggregation.py:270-309 | quality, slot by slot: the gravest status told of a slot without an item counts, nothing told counts as unverified, and a slot that should have had a trade as missing; available exactly when all such slots had no trade |
| `RollupSlots.GroupJudged` | packages/shared/goodmoneying_shared/aggregation.py:138-151 | complete exactly with as many items as slots, or fewer when every slot without an item had no trade |
| `RollupAnswer.SortDigests` | packages/shared/goodmoneying_shared/aggregation.py:223-249 | the hash digests the fields of the inputs in order of start, those of one instant in the order given |
| `RollupAnswer.DayMeans` | packages/shared/goodmoneying_shared/aggregation.py:80-126 | a day carries the fields of the last daily source candle that starts on it, complete and available; without one it is rolled up from its minutes |
| `RollupAnswer.DaysMean` | packages/shared/goodmoneying_shared/aggregation.py:93-106 | a week or month combines the listed days that start in it, judged by slots of a day |
| `LeaseQueue.RunStore.CreateRun` | packages/shared/goodmoneying_shared/backtest_store.py:283-475 | a new run is queued with no lease and no attempts; a repeated request under its key is answered with its run; another request under the key, a strategy or dataset that is not ready, a taken input and a bad attempt budget are refused |
| `LeaseRequests.OneRunPerRequest` | packages/shared/goodmoneying_shared/backtest_store.py:320-434 | in every reachable table each idempotency key, each input and each strategy-dataset-engine-parameters-seed has at most one run |
| `LeaseRequests.CreationIsIdempotent` | packages/shared/goodmoneying_shared/backtest_store.py:320-339 | once a key has made a run, the same request is answered with that run and another is refused, over any calls in between, and neither changes anything |
| `LeaseRequests.FailureCanBeRefused` | packages/shared/goodmoneying_shared/backtest_store.py:256-279 | from an empty table, every budget above 31 reaches a row whose holder, with a valid lease, reports a failure and is refused, after any number of attempts from 31 on |
| `LeaseQueue.RunStore.ClaimNextRun` | packages/shared/goodmoneying_shared/backtest_store.py:121-169 | the transaction is one step of the table: sweep, pick, lease with the next generation |
| `LeaseQueue.RunStore.CompleteClaimedRun` | packages/shared/goodmoneying_shared/backtest_store.py:172-236 | the transaction is one step: lease checked twice, input compared, results and status written together or not at all |
| `LeaseQueue.RunStore.FailClaimedRun` | packages/shared/goodmoneying_shared/backtest_store.py:239-280 | the transaction is one step: retry with backoff or dead letter, or no change |
| `LeaseQueue.Next` | packages/shared/goodmoneying_shared/backtest_store.py:144-153 | the first claimable run by request time and id; none exactly when none is claimable |
| `LeaseSafety.ReachableGood` | packages/shared/goodmoneying_shared/backtest_store.py:121-280 | every table reachable by any calls is consistent: generation equals attempts and never exceeds the budget, leases only on running runs, one saved result per finished run |
| `LeaseSafety.RunsOnlyMoveOn` | packages/shared/goodmoneying_shared/backtest_store.py:121-280 | generations never fall, the remaining-steps measure never rises, terminal runs never change |
| `LeaseSafety.OnlyTheHolderActs` | packages/shared/goodmoneying_shared/backtest_store.py:197-235 | a completion or failure takes effect only for the owner of the current generation with an unexpired lease and, for completions, the run's own input; otherwise the table is unchanged |
| `LeaseSafety.CompletionStays` | packages/shared/goodmoneying_shared/backtest_store.py:172-236 | what a completion wrote is what the run shows from then on |
| `LeaseSafety.CompletedOnce` | packages/shared/goodmoneying_shared/backtest_store.py:172-236 | no run is completed twice in any sequence of calls |
| `LeaseSafety.StaleGenerationIsFenced` | packages/shared/goodmoneying_shared/backtest_store.py:197-274 | once a run was leased again, completions and failures of an older generation change nothing, also from the same worker |
| `LeaseSafety.ExpiredLeaseIsFenced` | packages/shared/goodmoneying_shared/backtest_store.py:197-274 | an expired or released lease is lost for good on a clock that does not go back |
| `LeaseSafety.ClaimsBounded` | packages/shared/goodmoneying_shared/backtest_store.py:154-166 | a run is claimed exactly attempt_count times and at most max_attempts times |
| `LeaseSafety.ChangesBounded` | packages/shared/goodmoneying_shared/backtest_store.py:131-279 | a run changes at most 2 * max_attempts times |
| `LeaseSafety.NeverStuck` | packages/shared/goodmoneying_shared/backtest_store.py:131-169 | an unfinished run past its lease or retry time is dead-lettered by the next valid claim, or that claim takes it or one before it in the queue |
| `LeaseSafety.QueueDrains` | packages/shared/goodmoneying_shared/backtest_store.py:131-169 | past all lease and retry times a claim makes progress or nothing is left unfinished |
| `LeaseSafety.FailureRecordedIff` | packages/shared/goodmoneying_shared/backtest_store.py:256-279 | the holder's failure is recorded exactly when no attempts are left or fewer than 31 were made (the 32-bit cast of the backoff fails otherwise); the retry comes after 2^attempts seconds, at most 300 |
| `LeaseMeaning.LeaseLetsComplete` | packages/shared/goodmoneying_shared/backtest_store.py:154-236 | over every run of calls: a worker handed a run at some moment for so many seconds, which completes it with its input before they are over and with no other report accepted in between, is answered that it is done, and row and saved result are exactly what it brought |
| `LeaseMeaning.LeaseLetsFail` | packages/shared/goodmoneying_shared/backtest_store.py:154-280 | a failure reported by then is recorded, unless 31 or more attempts are behind the run and some left: the row waits 2^attempts seconds, at most 300, or is given up, with the trimmed code and message as last error and the code as reason |
| `LeaseMeaning.LeaseRunsOut` | packages/shared/goodmoneying_shared/backtest_store.py:154-280 | from the end of those seconds on the report of that worker and generation is answered that the lease is lost, and changes nothing, whatever happened in between |
| `LeaseMeaning.ClaimMeans` | packages/shared/goodmoneying_shared/backtest_store.py:127-169 | a claim takes the first run that waits, exactly for the seconds asked for, gives up every run whose last lease ran out, and leaves every other row; it finds none exactly when none waits |
| `LeaseMeaning.CreatedIff` | packages/shared/goodmoneying_shared/backtest_store.py:320-434 | a run is made exactly for a ready request with a free key, input and identity and a positive 32-bit attempt budget; a replay names the run of that key and request |
| `LeaseMeaning.CreateMeans` | packages/shared/goodmoneying_shared/backtest_store.py:436-475 | the whole row of a new run; any other answer changes nothing |
| `LeaseMeaning.TrimMeans` | packages/shared/goodmoneying_shared/backtest_store.py:1070-1073 | a trimmed name is the name without the space around it |
| `TargetIntent.TargetStore.SyncMarketCatalog` | packages/shared/goodmoneying_shared/data_foundation_repository.py:139-448 | a valid catalog acts on every target exactly as listing or absence says; an empty, duplicated or malformed one changes nothing |
| `TargetIntent.TargetStore.SyncTarget` | packages/shared/goodmoneying_shared/data_foundation_repository.py:253-400 | one listed target: hand-managed, policy-managed or new |
| `TargetIntent.TargetStore.MarkMissing` | packages/shared/goodmoneying_shared/data_foundation_repository.py:805-900 | exactly the markets that were trading and were not observed are paused and unsubscribed |
| `TargetIntent.TargetStore.SetMarketTargetState` | packages/shared/goodmoneying_shared/data_foundation_repository.py:1356-1518 | a command acts on every data type of the market and on nothing else; when it is refused nothing changes |
| `TargetIntentRuns.IntentDecides` | packages/shared/goodmoneying_shared/data_foundation_repository.py:253-400 | over every run of syncs, disappearances and commands, status, reason and subscription are exactly what the last heeded command and the last catalog state call for |
| `TargetIntentRuns.CatalogRespectsOperator` | packages/shared/goodmoneying_shared/data_foundation_repository.py:263-285 | no catalog makes an excluded, operator-paused or policy-disabled target active or subscribed |
| `TargetIntentRuns.CatalogPauseEnds` | packages/shared/goodmoneying_shared/data_foundation_repository.py:263-285 | a target paused only by the catalog is active again with the next tradable listing |
| `TargetIntentRuns.GenerationFixesDesire` | packages/shared/goodmoneying_shared/data_foundation_repository.py:1480-1518 | two sightings with equal generation have equal desired state, and equal policy if selected at both |
| `TargetIntentRuns.GenerationCounts` | packages/shared/goodmoneying_shared/data_foundation_repository.py:380-400 | over every history the generation is one more than the number of steps, since the market was first listed, that changed what is wanted of the target or, by a heeded command, its policy: repeated catalogs and repeated commands leave it |
| `TargetIntentRuns.UntouchedTarget` | packages/shared/goodmoneying_shared/data_foundation_repository.py:296-345 | a target no command has changed has the default configuration, field by field |
| `TargetIntentRuns.ListedAuto` | packages/shared/goodmoneying_shared/data_foundation_repository.py:309-333 | listing keeps the earlier start of a target the catalog manages and resets the rest of its configuration |
| `TargetIntentRuns.PlainResumeObeyedIff` | packages/shared/goodmoneying_shared/data_foundation_repository.py:1381-1425 | a command to collect without a policy is obeyed exactly when the target does not carry the disabled mark |
| `TargetIntentRuns.MarkedExclusionIsMisread` | packages/shared/goodmoneying_shared/data_foundation_repository.py:1381-1425 | an exclusion whose free text equals the mark is later read as disabled |
| `BackfillWork.BackfillStore.EnsureBackfillJob` | packages/shared/goodmoneying_shared/data_foundation_repository.py:972-1089 | a job is created exactly when no live job occupies the instrument and work remains, with every field of the new job stated; the table stays consistent |
| `BackfillWork.BackfillStore.CancelSupersededSourceBackfill` | packages/shared/goodmoneying_shared/data_foundation_repository.py:1669-1738 | job by job, the instrument's open source work is stopped and jobs without work are paused or cancelled |
| `BackfillWork.BackfillStore.TransitionMarketBackfillWork` | packages/shared/goodmoneying_shared/data_foundation_repository.py:1740-1849 | holding, excluding and resuming an instrument; other instruments' targets unchanged |
| `BackfillWork.BackfillStore.ClaimBackfillJob` | packages/shared/goodmoneying_shared/data_foundation_repository.py:1851-1940 | the first claimable job by priority, age and id is leased or, out of attempts, given up |
| `BackfillWork.NextJob` | packages/shared/goodmoneying_shared/data_foundation_repository.py:1880-1898 | the claimable job that comes first, none exactly when none is claimable |
| `BackfillWork.StartFor` | packages/shared/goodmoneying_shared/data_foundation_repository.py:1017-1030 | new work starts where the specification's succeeded jobs end, not before the given start |
| `BackfillWork.TakenOut` | packages/shared/goodmoneying_shared/data_foundation_repository.py:1801-1849 | afterwards the instrument has no work to run in a live job, none at all when stopped; the rest is consistent and untouched |
| `BackfillWork.BroughtBack` | packages/shared/goodmoneying_shared/data_foundation_repository.py:1748-1799 | afterwards the instrument's resumable work waits in a live job that is not paused |
| `BackfillWork.HoldThenResume` | packages/shared/goodmoneying_shared/data_foundation_repository.py:1740-1849 | holding and resuming loses no work |
| `BackfillWork.NewWork` | packages/shared/goodmoneying_shared/data_foundation_repository.py:990-1089 | a new job keeps one piece of live work per instrument |
| `BackfillWork.EveryRunConsistent` | packages/shared/goodmoneying_shared/data_foundation_repository.py:986-1940 | over every run of these steps: at most one open target per instrument in live jobs, paused jobs have nothing to run and something held, cancelled jobs have neither; an instrument's targets change only by steps that name it |
| `BackfillExact.NextIsFirst` | packages/shared/goodmoneying_shared/data_foundation_repository.py:1880-1898 | the claimed job is neither over, planned, paused nor waiting for a retry time or another lease, and is first by priority, then age, then id; none exactly when no job is free |
| `BackfillExact.AddedIff` | packages/shared/goodmoneying_shared/data_foundation_repository.py:986-1089 | work is added exactly for a span that is not empty, an instrument without unfinished or planned work in a job that is not over, and a new key |
| `BackfillExact.TakenOutExactly` | packages/shared/goodmoneying_shared/data_foundation_repository.py:1801-1849 | target by target and job by job: exactly the instrument's unfinished work in jobs that are not over changes, and exactly the jobs left with nothing to run are paused or cancelled |
| `BackfillExact.BroughtBackExactly` | packages/shared/goodmoneying_shared/data_foundation_repository.py:1748-1799 | exactly the held targets with an active specification wait again, and exactly their paused jobs are pending |
| `BacktestReplay.RunCandleBacktest` | packages/shared/goodmoneying_shared/backtest_engine.py:130-236 | the loop computes the replay of the ordered signals on the ordered events; a look-ahead signal fails the run |
| `BacktestReplay.ReplaySignals` | packages/shared/goodmoneying_shared/backtest_engine.py:174-221 | cash, position, trades and equity points after all signals |
| `BacktestReplay.FirstUsable` | packages/shared/goodmoneying_shared/backtest_engine.py:376-389 | the first available event at or after the target, none before it |
| `BacktestReplay.PositionsMeanStable` | packages/shared/goodmoneying_shared/backtest_engine.py:337-339 | sorting with the list position as last key is stable sorting without it |
| `BacktestCausality.NoLookAhead` | packages/shared/goodmoneying_shared/backtest_engine.py:138-223 | two runs that agree on everything known up to a moment have the same trades and equity points up to it, as the same prefix |
| `BacktestCausality.CausalIffLatency` | packages/shared/goodmoneying_shared/backtest_engine.py:376-389 | that holds for all runs of a specification exactly when its latency is not negative |
| `BacktestCausality.NegativeLatencyLooksAhead` | packages/shared/goodmoneying_shared/backtest_engine.py:376-389 | with any negative latency two such runs differ in the past |
| `BacktestCausality.TradeTimesNeverDecrease` | packages/shared/goodmoneying_shared/backtest_engine.py:174-223 | trade knowledge times never decrease |
| `BacktestCausality.CandleOrderIrrelevant` | packages/shared/goodmoneying_shared/backtest_engine.py:138-138 | the outcome does not depend on the order of the candles when their sort keys differ |
| `BacktestCausality.LedgerAddsUp` | packages/shared/goodmoneying_shared/backtest_engine.py:183-221 | at every equity point and at the end, cash and position are what the reported trades and fees add up to |
| `BacktestCausality.TradingCosts` | packages/shared/goodmoneying_shared/backtest_engine.py:183-221 | a trade never raises the equity marked at the event's close |
| `BacktestMeaning.BacktestReports` | packages/shared/goodmoneying_shared/backtest_engine.py:130-236 | a run fails exactly when a signal is known before it occurs; otherwise exactly the signals that may trade on a candle trade, once each, in the order in which they became known, on a first available candle known after the latency; fill, price, fee and equity point in terms of signal and candle; the final equity is the initial cash without candles, else initial cash plus cash flow plus holdings at the close of a candle that none follows |
| `BacktestMeaning.ExecutionIsFirst` | packages/shared/goodmoneying_shared/backtest_engine.py:376-389 | the execution event is a first candle by knowledge time, priority and sequence among the available ones after the latency |
| `BacktestMeaning.EquityCloses` | packages/shared/goodmoneying_shared/backtest_engine.py:399-407 | final equity from the trades and a last candle |
| `RateLimits.Prune` | apps/upbit_gateway/goodmoneying_upbit_gateway/rate_limit.py:181-182 | exactly the calls that have left the window are taken from the front of the queue |
| `RateLimits.GroupRateLimiter.TryAcquire` | apps/upbit_gateway/goodmoneying_upbit_gateway/rate_limit.py:171-187 | one pass of the critical section |
| `RateLimits.GroupRateLimiter.Observe` | apps/upbit_gateway/goodmoneying_upbit_gateway/rate_limit.py:189-198 | an exhausted second quota blocks a known group for a second |
| `RateLimits.GroupRateLimiter.Defer` | apps/upbit_gateway/goodmoneying_upbit_gateway/rate_limit.py:200-204 | a penalty extends the block and never shortens it |
| `RateLimits.JudgeSocket` | apps/upbit_gateway/goodmoneying_upbit_gateway/websocket_protocol.py:230-240 | the waits of both windows and the larger of them, from the calls of the last minute and second |
| `RateLimits.WebSocketRateLimiter.TryAcquire` | apps/upbit_gateway/goodmoneying_upbit_gateway/websocket_protocol.py:225-241 | one pass over both windows |
| `RateLimits.WithinIsRecent` | apps/upbit_gateway/goodmoneying_upbit_gateway/websocket_protocol.py:230-230 | the one-second comprehension is the tail of the queue |
| `RateBounds.SpacedIffBounded` | apps/upbit_gateway/goodmoneying_upbit_gateway/rate_limit.py:171-187 | spacing of grants is the same as a bound on every half-open window |
| `RateBounds.GroupNeverExceeds` | apps/upbit_gateway/goodmoneying_upbit_gateway/rate_limit.py:171-187 | every half-open window of the group's length holds at most limit grants, over all runs |
| `RateBounds.ForgettingIsInvisible` | apps/upbit_gateway/goodmoneying_upbit_gateway/rate_limit.py:181-187 | every pass decides as it would on the full history |
| `RateBounds.PenaltyServed` | apps/upbit_gateway/goodmoneying_upbit_gateway/rate_limit.py:177-180 | no grant comes before an earlier penalty is over |
| `RateBounds.GroupWaitIsExact` | apps/upbit_gateway/goodmoneying_upbit_gateway/rate_limit.py:177-187 | no try before the computed wait is granted; after it the group is unblocked, and granted if it was not blocked |
| `RateBounds.GroupGrantedIff` | apps/upbit_gateway/goodmoneying_upbit_gateway/rate_limit.py:171-187 | a call is granted exactly when every penalty before it is over and fewer than limit grants are less than a window old |
| `RateBounds.SocketNeverExceeds` | apps/upbit_gateway/goodmoneying_upbit_gateway/websocket_protocol.py:225-241 | every second and every minute is bounded, both at once |
| `RateBounds.SocketWaitIsExact` | apps/upbit_gateway/goodmoneying_upbit_gateway/websocket_protocol.py:231-241 | the computed wait is exactly when the next try succeeds |
| `RateBounds.SocketGrantedIff` | apps/upbit_gateway/goodmoneying_upbit_gateway/websocket_protocol.py:225-241 | a call is granted exactly when both the last second and the last minute have room |
| `RealtimeStream.EnvelopeBuilder.Make` | packages/shared/goodmoneying_shared/realtime_stream.py:57-92 | subscribed and event messages take the next number, others repeat the current one |
| `RealtimeStream.EnvelopeBuilder.ResumeFrom` | packages/shared/goodmoneying_shared/realtime_stream.py:94-99 | a foreign cursor is refused |
| `RealtimeStream.StreamTracker.Consume` | apps/web/src/realtimeStream.ts:54-118 | each stream is tracked on its own by the per-stream rule |
| `RealtimeStream.PostAll` | packages/shared/goodmoneying_shared/realtime_stream.py:57-92 | a run of the builder numbers its messages as the end-to-end claims assume |
| `RealtimeStream.AcceptedIsPrefix` | apps/web/src/realtimeStream.ts:54-118 | over a channel that drops and repeats but keeps order, events accepted after a delivered subscribed are a gap-free prefix of those posted after it, each once |
| `RealtimeStream.HeartbeatVouches` | apps/web/src/realtimeStream.ts:75-88 | an accepted heartbeat means every event posted before it was accepted |
| `RealtimeStream.PausedUntilSubscribed` | apps/web/src/realtimeStream.ts:67-73 | after a gap nothing is accepted until the next subscribed |
| `RealtimeStream.LossIsNoticed` | apps/web/src/realtimeStream.ts:75-114 | a lost event is noticed by the next event or heartbeat that arrives |
| `RealtimeStream.AnchoredPrefix` | apps/web/src/realtimeStream.ts:54-118 | from wherever the tracker's number was set, the events handed on are the first posted after it |
| `RealtimeStream.LosslessHandsOnAll` | apps/web/src/realtimeStream.ts:54-118 | on a channel that loses nothing every event posted after the subscribed is handed on, once and in order, repeats or not, and the stream is never paused |
| `RealtimeStream.StreamKeysApart` | apps/web/src/realtimeStream.ts:58 | two streams share a tracker entry only if topic and scope are the same |
| `StreamOnTrust.FirstTaken` | apps/web/src/realtimeStream.ts:75-117 | without a delivered subscribed, a fresh tracker takes nothing or there is a first event or heartbeat it takes |
| `StreamOnTrust.StretchFromFirst` | apps/web/src/realtimeStream.ts:103-117 | what it then hands on is a gap-free stretch from that message on |
| `StreamOnTrust.TrustedPrefixIff` | apps/web/src/realtimeStream.ts:103-117 | that stretch is a prefix of the events posted after the subscribed it missed if and only if no event lies between the two |
| `StreamOnTrust.TrustedHeartbeatIff` | apps/web/src/realtimeStream.ts:75-88 | a heartbeat taken as a sign of life, the first message included, vouches for every event since the missed subscribed under exactly that condition |
| `StreamOnTrust.FirstEventTakenOnTrust` | apps/web/src/realtimeStream.ts:103-117 | a lost event that goes unnoticed because the next event is the first to arrive |
| `StreamOnTrust.FirstHeartbeatTakenOnTrust` | apps/web/src/realtimeStream.ts:75-88 | a lost event that goes unnoticed because a heartbeat is the first to arrive |
| `SubscriptionGate.GateObject.RecordSubscriptionGeneration` | apps/web/src/useRealtimeAnalysis.ts:251-262 | a new generation becomes current, unaccepted and pending |
| `SubscriptionGate.GateObject.AcceptSubscriptionGeneration` | apps/web/src/useRealtimeAnalysis.ts:264-274 | a session takes the oldest pending generation and is accepted only if that is current |
| `SubscriptionGate.GateObject.RejectSubscriptionGeneration` | apps/web/src/useRealtimeAnalysis.ts:284-292 | an error takes the oldest pending generation |
| `SubscriptionGate.GateObject.Dispatch` | apps/web/src/useRealtimeAnalysis.ts:135-150 | which messages reach the page |
| `SubscriptionGate.OnlyTheLatestIsApplied` | apps/web/src/useRealtimeAnalysis.ts:117-150 | for every interleaving of sends, sessions, refusals, snapshot replies and data, data is applied exactly when it belongs to the most recently sent subscription and no subscription on the socket was answered with snapshot_required |
| `SubscriptionGate.OnlyTheLatestRefusalIsShown` | apps/web/src/useRealtimeAnalysis.ts:144-148 | a refusal is shown exactly when it answers the most recently sent subscription, under the same condition |
| `SubscriptionGate.NothingAfterSnapshot` | apps/web/src/useRealtimeAnalysis.ts:117-133 | after a snapshot reply no data is applied on the socket, however often it subscribes again |
| `SubscriptionGate.LateErrorBreaksTheGate` | apps/web/src/useRealtimeAnalysis.ts:144-148 | from every point where an error about an answered subscription arrives while others are pending, a continuation applies stale data |
| `BackfillFetch.MissingSourceCandleRanges` | apps/worker/goodmoneying_worker/collector.py:491-514 | ranges are ordered, disjoint, maximal and cover exactly the absent minutes |
| `BackfillFetch.UncoveredIsStored` | apps/worker/goodmoneying_worker/collector.py:491-514 | a whole minute of the range that no missing range covers is stored, wherever the range starts |
| `BackfillFetch.Newest` | apps/worker/goodmoneying_worker/upbit_client.py:299-306 | the exchange's answer: the newest candles before the cursor, without holes, at most the count |
| `BackfillFetch.FetchMinuteCandlePages` | apps/worker/goodmoneying_worker/upbit_client.py:291-339 | paging ends and yields every upstream candle of the range exactly once; no page exceeds 200 candles, and all but the last two have as many |
| `BackfillFetch.FetchMinuteCandles` | apps/worker/goodmoneying_worker/upbit_client.py:280-289 | the same candles as one ordered list |
| `BackfillFetch.StorePage` | apps/worker/goodmoneying_worker/collector.py:298-345 | the status is read between batches and only there; a page is stored completely unless a reading that ends it comes, and then exactly the batches before it are stored |
| `BackfillFetch.BackfillTarget` | apps/worker/goodmoneying_worker/collector.py:207-379 | a target succeeds exactly when no reading of the job status, at the moments before, inside and after each range, was one that ends it there, and the first such reading ends it; succeeded, every upstream candle of the range is stored; only upstream candles are added; with nothing missing nothing is read |
| `BackfillFetch.RangesComplete` | apps/worker/goodmoneying_worker/collector.py:207-379 | stored and fetched candles together include every upstream candle |
| `CanonicalDigest.CanonicalJsonArrayDigest.AddEncoded` | packages/shared/goodmoneying_shared/dataset_versions.py:152-159 | a key that does not exceed the previous one is refused, otherwise the bytes are appended |
| `CanonicalDigest.CanonicalJsonArrayDigest.AddCanonicalMember` | packages/shared/goodmoneying_shared/dataset_versions.py:161-165 | one step of the stream |
| `CanonicalDigest.StreamIs` | packages/shared/goodmoneying_shared/dataset_versions.py:145-165 | streaming accepts exactly valid members with strictly increasing keys and has then fed the canonical array encoding |
| `CanonicalDigest.StreamEqualsBatch` | packages/shared/goodmoneying_shared/dataset_versions.py:133-198 | whatever the stream accepts, its bytes are those the batch hashes for any permutation of the members |
| `CanonicalDigest.SurrogateIdsIrrelevant` | packages/shared/goodmoneying_shared/dataset_versions.py:294-318 | database ids affect neither |
| `CanonicalDigest.SamePayloadIff` | packages/shared/goodmoneying_shared/dataset_versions.py:294-318 | payloads are equal exactly when the members differ in nothing but the database id |
| `CanonicalDigest.HashOrder` | packages/shared/goodmoneying_shared/dataset_versions.py:324-334 | members are hashed in the order of kind, exchange, market, unit, definition, version, time and content |
| `CanonicalDigest.FirstMember` | packages/shared/goodmoneying_shared/dataset_versions.py:294-306 | a member is refused exactly when a hash of it is not 64 lower-case hexadecimal digits or its kind or quality is unknown |
| `CanonicalDigest.BodyIsCommas` | packages/shared/goodmoneying_shared/dataset_versions.py:140-159 | the bytes between the brackets are the members' encodings, in order, separated by commas |
| `DigestLimits.StreamAcceptsBatchIff` | packages/shared/goodmoneying_shared/dataset_versions.py:179-195 | members the batch accepts stream in canonical order exactly when no missing unit meets a unit called "None" under the same key |
| `DigestLimits.NoneClashes` | packages/shared/goodmoneying_shared/dataset_versions.py:324-334 | such a pair is accepted by the batch and by no stream |
| `DatasetProjection.ValidateProjection` | packages/shared/goodmoneying_shared/dataset_versions.py:455-499 | a projection, in whatever order it is given, is accepted exactly when no segment is repeated and no two segments of a series share an instant |
| `DatasetProjection.CheckInOrder` | packages/shared/goodmoneying_shared/dataset_versions.py:455-499 | the loop accepts exactly when each segment lets all later ones through |
| `DatasetProjection.AdmittedIffSound` | packages/shared/goodmoneying_shared/dataset_versions.py:455-499 | in canonical order, letting each other through is the same as being distinct and disjoint |

## Left out

- SQL text, advisory locks and row locks: every transaction is one atomic step, so lock order and lost locks are not captured.
- Fingerprints of quality events: results are stated on the computed transitions, assuming no event is dropped as a duplicate.
- Time zones and text forms of times: instants are UTC integers; year-one and year-9999 overflow of the calendar type is not modelled, nor are unit aliases, the plain 1m listing and unsupported unit names.
- Decimal and float rounding: prices and seconds are exact reals.
- SHA-256, HMAC, base64 and JSON text: the model keeps the data they digest; the encoder of one payload is a parameter.
- Quality events, audit logs, idempotency records of operator commands and heartbeats written beside the modelled state.
- Legacy collection targets and plans, and the configuration of a plan: they follow the modelled target.
- `persist_completed_run`, listing, paging and response mapping of backtest runs, and performance artifacts: easy beside the queue and the engine.
- Type errors of the backtest engine (values that are not decimals): the types exclude them.
- The failed result of a backtest that looks ahead, with no trades and the initial cash as final equity: the model keeps only that it failed.
- Sleeping and scheduling in the limiters and the WebSocket session: only the passes through the critical section are modelled.
- The state a REST snapshot puts on the page, and sockets that were replaced: the gate is modelled for one socket, and data counts as the last session's.
- Failures of the exchange while fetching, retry delays and the choice of the next job: a backfill target is modelled for answers that arrive.
- `internal_minute_candle_gaps`, dataset specifications and policy checks: they would only add easy members.
- LeaseQueue.RunStore.CreateRun: takes the request's hashes and whether its strategy is published and its dataset sealed as given, because they are computed from tables outside this model.
- DatasetProjection.ValidateProjection: is one model of both validators, with the last part of a segment's identity as a tag.
