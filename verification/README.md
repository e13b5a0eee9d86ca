# Models of the fleet core

This project models the eight stateful core files of the repository in Dafny and proves what
they keep over whole runs. Each component is modelled in the form its source has: state that is
updated in place becomes a class whose methods are proved against functions on values, loops become
loops with invariants, and the theorems are lemmas about those functions.

- **Clustering** (`Vectors`, `Lloyd`, `Splitting`, `Reshaping`, `SplitRule`, `SplitWitnesses`, `LeavingCube`, `Swarm`,
  `SmallPasses`, `LinePasses`, `SwarmRuns`): the Lloyd rounds of `core/account_clustering.py` never raise the total
  squared distance; a split takes a farthest pair whatever the member order, and which clusters are split
  is told from their ages, sizes and distances; merging ends settled; over
  every sequence of passes the number of centroids stays between 3 and 12 and the final truncation drops
  nothing; no run leaves the unit cube exactly when no reward below -1.5 can be reported.
- **Attribution** (`TrackingCode`, `AttributionTables`, `AttributionQueries`, `AttributionStore`, `Ledger`,
  `LedgerRows`, `AttributionEngine`): printing and parsing of tracking codes; what the queries answer, column by
  column; the LRU and TTL cache held against the tables behind it; conservation of revenue and of conversions over every run of conversions
  and flushes, whatever stale touch lists the cache hands out.
- **Lifecycle gate** (`LifecycleGate`, `LifecycleRuns`, `LifecycleVerdicts`, `LifecycleDays`, `LifecycleCooldowns`,
  `LifecycleWitnesses`, `LifecycleCrashes`): the gate and its state under arbitrary calls, and every verdict it can give; with up to m sessions of an
  account at once, restarts and operator calls interleaved, how many starts and uploads a window or
  a day can hold; how long cooldowns last; which crashes keep the gaps; runs that reach the limits of these promises.
- **Throttles** (`SlidingWindows`, `DailyCaps`, `SessionCap`, `UploadThrottle`, `Coordinator`,
  `ActivityHealing`, `FleetRuns`, `Fleet`): check-then-record protocols with up to m grants
  outstanding, for windows and for days, the equivalence of bounded and popped histories with the
  full one, and the integer rounding that repairs activity counters.
- **Selection and drift** (`ContentDecision`, `ContentGates`, `ContentSampling`, `InterestDrift`, `InterestStages`,
  `DriftDirections`): the batch filter as an exact partition with exact size bounds, the daily bound on the
  movement of interest weights, which way each outcome moves them, and which outcomes an account's stage takes
  into account.

`Sequences` holds the shared sums, counts, filters and the stable sort, `Reals` facts about products
and quotients.

Conventions. Floating point numbers are exact reals and `round(x, n)` is the identity, except in
`ActivityHealing`, where rounding is the point. Every operation reads the clock once, as a
parameter. Random draws, hashes, square roots and content scores are parameters, and the theorems
hold for all of them.

## Where the code does less than its documentation or its names suggest

- The per-account upload cap is a check before a record: with k approvals of one account out, k of
  its uploads can be recorded on one day. One upload a day holds exactly for k at most 1
  (`UploadThrottles.AccountCapHolds`, `UploadThrottles.AccountBoundIsReached`,
  `UploadThrottles.OneUploadPerDayIff`, `Coordinators.TwoUploadsOneDay`). The session cap allows
  2 + k starts in the same way, and keeps to three a day exactly for k at most 1
  (`SessionCaps.SessionBoundIsReached`, `SessionCaps.ThreeSessionsPerDayIff`).
- A cached attribution result is stored under `ar:{content}:{niche}`. A request is always told its own
  answer exactly if no other request with the same key has one. On tables that the engine writes, that
  holds on all of them exactly if the requested content id has no colon after a nonempty beginning; the
  niche does not matter (`AttributionStores.ServedRightIff`, `AttributionStores.AlwaysExclusiveIff`,
  `AttributionEngines.ColonServesOtherRow`).
- Cluster quality is meant to be nonnegative, but a reward below -1.5 drives it negative, and then merging
  can throw a centroid out of the unit cube. For every hash of the first centroids that happens in some run
  exactly if such rewards can be reported (`LeavingCube.RewardFloorIff`, `LeavingCube.BlendsStayIff`,
  `SwarmRuns.RunsStayIff`).
- The upload gap of the lifecycle gate protects recorded uploads. An upload finished in cooldown or
  warm-up is not recorded, so two actual uploads can be four hours apart
  (`LifecycleWitnesses.GrantedUploadRecordedIff`, `LifecycleWitnesses.UnrecordedUpload`).
- A dump and a load zero the daily counters even within one day. What the cap compares is the starts
  of the day since the last restart; a day without a restart keeps to three, and a single restart
  allows six (`LifecycleDays.CounterIsStartsSinceRestart`, `LifecycleDays.ThreeStartsPerDay`,
  `LifecycleWitnesses.OneRestartAllowsSix`).
- With two sessions of one account at once neither gap of the lifecycle gate holds
  (`LifecycleWitnesses.OverlapBreaksSpacing`).
- State is saved when a session ends. A process that dies inside a session loads a dump without its start:
  the four hours then hold in every continuation exactly if the dump holds the last start or that start is four
  hours ago (`LifecycleCrashes.CrashKeepsStartsIff`).
- A mild cooldown trigger overwrites a severe one and can shorten it
  (`LifecycleCooldowns.SevereCooldownLastsIff`, `LifecycleWitnesses.SevereCooldownCutShort`).
- The comment at `core/cross_account_coordinator.py:630` promises that the healed total does not
  exceed the active jobs. It can, by one, and healing again need not help
  (`ActivityHealing.HealingOvershootsIff`, `ActivityHealing.HealingCanStick`).
- A batch of the fleet never asks for an upload slot. Its uploads keep within the hourly limit exactly if no
  session is allowed at all or the limit is at least sixty times the session limit and one more; with the default
  limits of five and ten they need not (`FleetRuns.BatchUploadLimitIff`). With every upload checked, the limit
  holds up to the checks outstanding (`FleetRuns.UploadsPerHour`).
- `filter_candidates` removes explored candidates from the dropped ones by id. No sample loses an item
  exactly if nothing is explored or the candidates past the kept ones have distinct ids
  (`ContentSamplings.EverySamplePartitionsIff`, `ContentSamplings.SharedIdLosesAnItem`). Its threshold is
  soft in both directions, and it does not apply the profit gate of the worker
  (`ContentDecisions.ThresholdIsSoft`, `ContentSamplings.KeptAllProducedIff`, `ContentSamplings.WorthlessIsKept`).
- The first skip after half an hour without any skip record is granted although it makes the rate 100
  percent, and a skip granted under the ceiling can pass it later, when the other records have left the
  window (`Coordinators.GrantedSkipRate`, `Coordinators.GrantedSkipPassesCeiling`).
- With trend and exploration in [0, 1], an outcome that is neither success nor ban gives the acted niche
  no delta of its own. Its weight still moves with the other niches' deltas: it stays exactly if all
  shifts add up to zero (`InterestDrifts.NeutralOutcomeIsIgnored`, `InterestDrifts.UntouchedWeightStaysIff`).
- A ban under a trend above 0.8 is a shift within the dead zone in every stage, so it leaves the weight of its niche
  as it is (`DriftDirections.BanCountsIff`, `DriftDirections.HotBanIsIgnored`). The drift towards even weights is
  never taken into account in the mature stage, and with four niches or more never upwards; the cap on a single
  shift never decides (`DriftDirections.PullCountsIff`, `DriftDirections.PullNeverRaises`,
  `DriftDirections.CapNeverDecides`).
- Once the drift budget of a day is spent, `evolve_interests` returns before it records the outcome, so
  successes and bans of the rest of the day leave rate and memory as they were
  (`InterestStages.SpentDayForgets`, `InterestStages.AfterThreeSuccesses`).
- An account in decline is in recovery from a success rate of 0.30 on; the threshold of 0.40 at
  `core/lifecycle_engine.py:56` is never used (`InterestStages.RecoveryIff`, `InterestStages.RecoveryRatesIff`).
- The dynamic adjustment `new_k` at `core/account_clustering.py:297-301` is computed and never used.

## Model

| member | source | states |
|---|---|---|
| `Vectors.MeanIsCheapest` | core/account_clustering.py:171-173 | no centre serves a group at a smaller total squared distance than its mean |
| `Lloyd.NearestIsNearest` | core/account_clustering.py:162-168 | the chosen centroid is a closest one and ties go to the lowest index |
| `Lloyd.NearestCentroidIdx` | core/account_clustering.py:162-168 | the scanning loop finds exactly that index, and 0 when there are no centroids |
| `Lloyd.CostIsZeroIff` | core/account_clustering.py:154-173 | the total is never negative, and zero exactly if every embedding lies on its centroid |
| `Lloyd.AssignIsCheapest` | core/account_clustering.py:272-273 | reassigning every embedding to its nearest centroid is the cheapest of all assignments |
| `Lloyd.MeansImprove` | core/account_clustering.py:274-278 | the mean update, empty clusters keeping their centroid, never raises the total for any fixed assignment |
| `Lloyd.RoundDescends` | core/account_clustering.py:270-278 | a whole round never raises the total, whatever the assignment before it |
| `Lloyd.RoundsDescend` | core/account_clustering.py:270-278 | after any positive number of rounds the total is at most that of the first assignment |
| `Lloyd.PassDescends` | core/account_clustering.py:270-278 | the same for the four rounds of one pass |
| `Lloyd.RunRounds` | core/account_clustering.py:268-278 | the nested loops compute those rounds and leave the assignment of the last one |
| `Splitting.SeedsAreFarthest` | core/account_clustering.py:216-236 | the two seeds are members and no two members are farther apart |
| `Splitting.SeedsAreFirst` | core/account_clustering.py:222-236 | of several farthest pairs the first in the order of the sorted members is taken |
| `Splitting.SeedsIgnoreOrder` | core/account_clustering.py:222-228 | the seeds are the same for every permutation of the members |
| `Splitting.SplitCluster` | core/account_clustering.py:216-236 | the all-pairs loop over the sorted members returns those seeds |
| `Reshaping.SplitStep` | core/account_clustering.py:304-320 | the split loop leaves what offering every cluster in turn leaves, and never more than twelve centroids |
| `SplitRule.SplitRuleHolds` | core/account_clustering.py:304-320 | from at most twelve centroids the split step ends with one more for each cluster of age at least 3 with more than 8 members whose root distances add up to more than 0.40 times the members, and never more than twelve; such a cluster gives way to a farthest pair of its members exactly if there is room at its turn, and every other centroid stays |
| `SplitWitnesses.LooseClusterSplits` | core/account_clustering.py:258-369 | a pass over a loose cluster of ten accounts, three passes old, which replaces its centroid by its two ends |
| `SplitWitnesses.TightClustersStay` | core/account_clustering.py:258-369 | a pass over two tight clusters far apart, however large and old, changes nothing |
| `SplitWitnesses.SomePlaces` | core/account_clustering.py:258-369 | such places exist |
| `Reshaping.MergedIsSettled` | core/account_clustering.py:322-350 | on exit three centroids remain, or no two that are three passes old lie less than 0.10 apart |
| `Reshaping.MergeStep` | core/account_clustering.py:322-350 | the merge loop terminates, with the number of centroids as measure, in that settled list |
| `Reshaping.BlendInCube` | core/account_clustering.py:337-344 | with nonnegative qualities the blend of a merged pair stays in the unit cube, even when both are zero |
| `Reshaping.BlendIsWeighted` | core/account_clustering.py:334-344 | the blend is the mean of the two centroids weighted by their qualities; if these add up to nothing positive they are the weights themselves |
| `Reshaping.LargestIsLargest` | core/account_clustering.py:355-358 | the cluster offered to collapse prevention holds the most accounts |
| `Reshaping.CollapseStep` | core/account_clustering.py:352-365 | the collapse step splits exactly that cluster when it is over sixty percent and there is room |
| `SplitRule.CollapseRule` | core/account_clustering.py:352-365 | a cluster that holds more than sixty percent of the accounts gives way to a farthest pair of its members if there is room for one more; otherwise nothing changes |
| `Reshaping.TruncationIsInert` | core/account_clustering.py:368-369 | the truncation changes nothing exactly when there are at most twelve centroids |
| `Reshaping.PassKeepsShape` | core/account_clustering.py:264-369 | a pass that starts with 3 to 12 centroids ends with 3 to 12 and truncates nothing |
| `Swarms.PassesKeepShape` | core/account_clustering.py:258-393 | over every sequence of passes the count stays in 3..12 and, from the first pass over any embedding on, equals the number of stored centroids |
| `Swarms.PassesStayInCube` | core/account_clustering.py:171-365 | with embeddings in the cube and no negative quality no sequence of passes leaves the cube |
| `Swarms.InitIs` | core/account_clustering.py:178-185 | coordinate d of the first centroid i is the hash of i and d in thousandths, whatever the number of centroids |
| `Swarms.ObservedIs` | core/account_clustering.py:131-137 | what risk, reward, success, stage and suppression show, as numbers; a risk that is not a number counts as one half, such a reward as zero |
| `Swarms.BlendedTowards` | core/account_clustering.py:138-139 | an observation takes every coordinate of an embedding a fifth of the way |
| `LeavingCube.BlendsStayIff` | core/account_clustering.py:322-350 | every pair of in-cube centroids within the merge distance blends inside the cube exactly when neither of the two qualities is negative |
| `LeavingCube.QualityTowards` | core/account_clustering.py:190-198 | a report takes the quality fifteen hundredths of the way towards the shifted reward over one plus the risk; a negative risk counts as none |
| `LeavingCube.RewardFloorIff` | core/account_clustering.py:190-198 | a nonnegative quality stays so under any number of equal reports exactly when their reward is at least -1.5 |
| `Swarms.Swarm.UpdateEmbedding` | core/account_clustering.py:117-146 | one account's embedding is blended with what its risk, reward, success, stage and suppression show, and stays in the cube; all others are untouched; the drift average takes the length of the step |
| `Swarms.Swarm.RecordClusterQuality` | core/account_clustering.py:190-198 | one cluster's quality is updated; with a reward of at least -1.5 none becomes negative |
| `Swarms.Swarm.RunClustering` | core/account_clustering.py:241-400 | the stored state after a run is that of one pass, whose splits follow the rule above; every account carries the lowest index of a nearest stored centroid; ages count live passes |
| `Swarms.Swarm.NotifyCycle` | core/account_clustering.py:409-435 | a run fires exactly on drift or age, and with any embedding the last run is never ten cycles old |
| `SmallPasses.SmallPass` | core/account_clustering.py:258-369 | with at most eight accounts a pass is its Lloyd rounds, merging, and collapse prevention |
| `LinePasses.FirstPass` | core/account_clustering.py:258-369 | two accounts at one place, whatever the other centroids: after the pass the place has two centroids |
| `LinePasses.SecondPass` | core/account_clustering.py:258-369 | six accounts at three places next to each other: after the pass each place has a centroid of its own |
| `LinePasses.LastPass` | core/account_clustering.py:322-365 | once these clusters are three passes old, negative qualities throw a merged centroid out of the cube |
| `SwarmRuns.RunLeavesCube` | core/account_clustering.py:117-400 | for every hash and every reward below -1.5, a run of observations, reports and passes from the beginning that leaves the cube |
| `SwarmRuns.RunsStayIff` | core/account_clustering.py:117-400 | for every hash, no run with rewards of at least a given floor ever leaves the cube exactly if that floor is at least -1.5 |
| `TrackingCode.RoundTrip` | core/attribution_engine.py:83-130 | a generated code parses exactly when both ids are nonempty and the integer timestamp is not negative, and then to the sanitized ids and that timestamp |
| `TrackingCode.ExampleCode` | core/attribution_engine.py:106-110 | content a on page b at second 255 has the code aff://a:b:ff |
| `TrackingCode.ExampleParsed` | core/attribution_engine.py:113-130 | white space around that code and upper case do not matter |
| `TrackingCode.TruncatesTowardsZero` | core/attribution_engine.py:106 | a timestamp loses its fraction towards zero, so it prints without a sign exactly if it is above -1 |
| `TrackingCode.SpacesAre` | core/attribution_engine.py:124 | the white space stripped before parsing |
| `TrackingCode.CodesCoincide` | core/attribution_engine.py:106-110 | two codes are equal exactly when all three sanitized parts are |
| `TrackingCode.DifferentIdsSameCode` | core/attribution_engine.py:107-109 | distinct ids can share a code |
| `TrackingCode.ParsedIdsAreColonFree` | core/attribution_engine.py:61-63 | whatever is parsed, the ids are nonempty and contain no colon |
| `TrackingCode.SanitizeIdempotent` | core/attribution_engine.py:107-109 | sanitizing what is sanitized changes nothing |
| `AttributionTables.UpsertKeepsSound` | core/attribution_store.py:308-323 | an upsert keeps the primary key unique, totals equal to the sum of their parts, and conversions at most clicks |
| `AttributionTables.UpsertFrames` | core/attribution_store.py:308-323 | an upsert changes the row of its own key only |
| `AttributionTables.UpsertKeepsAggregate` | core/attribution_store.py:308-373 | a content id that has an all-niche sum keeps having one |
| `AttributionQueries.AggregateIsSum` | core/attribution_store.py:345-373 | over all niches there is an answer exactly if the content id has a row, and clicks, conversions and the three revenues are then the sums of these columns over its rows |
| `AttributionQueries.AggregateIsLatest` | core/attribution_store.py:348-373 | its time is the latest update of any of these rows |
| `AttributionQueries.TouchesInOrder` | core/attribution_store.py:190-240 | touch lists run from the oldest click to the newest |
| `AttributionQueries.TouchesOfContentComplete` | core/attribution_store.py:213-240 | each touch of a content id is in its list as often as it is stored, and no other touch is |
| `AttributionQueries.TouchesOfCodeComplete` | core/attribution_store.py:190-211 | the same for a tracking code |
| `AttributionQueries.LastIsLatest` | core/attribution_store.py:226-230 | the last touch of a content id has the greatest click time of all that are stored |
| `AttributionQueries.PendingInOrder` | core/attribution_store.py:268-282 | the pending conversions run from the oldest to the newest |
| `AttributionQueries.PendingComplete` | core/attribution_store.py:268-282 | they are those not yet attributed, each as often as it is stored |
| `AttributionQueries.UpsertRow` | core/attribution_store.py:296-326 | the written row is new, or the old one with every delta added |
| `AttributionStores.UnambiguousIff` | core/attribution_store.py:332 | among all conceivable requests a result key belongs to one exactly when neither content id nor niche contains a colon |
| `AttributionStores.ServedRightIff` | core/attribution_store.py:328-373 | a result request is told its own answer, whatever was read before it, exactly if no other request with its key has an answer in the tables |
| `AttributionStores.AlwaysExclusiveIff` | core/attribution_store.py:328-373 | on all tables whose content ids come from parsed codes a request keeps its key to itself exactly if its content id has no colon after a nonempty beginning; its niche does not matter |
| `AttributionStores.AmbiguousKeyServesOtherRow` | core/attribution_store.py:332-336 | for any other content id there are such tables, without a row for it, from which it is served another content id's row |
| `AttributionStores.LookedFacts` | core/attribution_store.py:150-156 | a lookup keeps the bound and changes no entry; moving one to the back never refreshes its age |
| `AttributionStores.StoredFacts` | core/attribution_store.py:158-165 | a store keeps the cache within 1024 entries with distinct keys, and adds nothing but its own entry |
| `AttributionStores.ReadKeeps` | core/attribution_store.py:150-165 | a read keeps the cache within 1024 entries with distinct keys, every entry backed by a past answer, every one-niche entry current |
| `AttributionStores.ReadIsRecent` | core/attribution_store.py:150-156 | what a read returns is a recent answer to a request with its key; if no other one has an answer it is the own one, at most 30 seconds old, and for one niche the current row |
| `AttributionStores.StoredKeeps` | core/attribution_store.py:158-165 | below the limit a store evicts nothing but the key's own old entry |
| `AttributionStores.HitIff` | core/attribution_store.py:150-156 | a lookup hits exactly if the cache holds an entry of the key that is at most thirty seconds old |
| `AttributionStores.HitMovesBack` | core/attribution_store.py:150-156 | the entry of a hit becomes the last one to be evicted |
| `AttributionStores.FullStoreEvicts` | core/attribution_store.py:158-165 | with 1024 entries a store under a new key evicts the 204 used or stored longest ago |
| `AttributionStores.AttributionStore.Read` | core/attribution_store.py:150-165 | the reader updates cache and answer as that function does, and its answer is recent |
| `AttributionStores.AttributionStore.GetTouches` | core/attribution_store.py:190-211 | the touches of a code and of no other, oldest click first, at most 30 seconds out of date |
| `AttributionStores.AttributionStore.GetTouchesByContent` | core/attribution_store.py:213-240 | the touches of a content id and of no other, oldest click first, at most 30 seconds out of date |
| `AttributionStores.AttributionStore.GetAttrResult` | core/attribution_store.py:328-373 | if no other request with the key has an answer: for one niche exactly the current row, for all niches an aggregate at most 30 seconds old |
| `AttributionStores.AttributionStore.InsertTouch` | core/attribution_store.py:169-188 | appends the touch and keeps every cache invariant |
| `AttributionStores.AttributionStore.InsertConversion` | core/attribution_store.py:244-266 | appends the conversion, pending, under the next id |
| `AttributionStores.AttributionStore.UpsertAttrResult` | core/attribution_store.py:296-326 | adds the deltas to the row of its key and invalidates that key |
| `AttributionStores.AttributionStore.MarkAttributed` | core/attribution_store.py:284-292 | marks exactly the named conversions; no row changes, so the cache stays valid |
| `Ledgers.AttributeConserves` | core/attribution_engine.py:250-323 | whatever touches are known, one conversion's revenue is credited in full to its own content id with exactly one last click |
| `Ledgers.LastClickTakesSeventy` | core/attribution_engine.py:297-321 | with several touches the last of the list takes 70 percent and each other one an equal part of 30 percent |
| `LedgerRows.LatestTakesSeventy` | core/attribution_engine.py:297-321 | of the stored touches of a content id, where there are several, the one with the greatest click time takes seventy percent |
| `LedgerRows.OthersShareThirty` | core/attribution_engine.py:303-321 | every other one assists with an equal part of thirty percent |
| `LedgerRows.OneOrNoTouch` | core/attribution_engine.py:277-296 | a single touch takes all; without any the conversion is credited to itself |
| `LedgerRows.FlushAdds` | core/attribution_engine.py:326-433 | a flush adds to the row of every content id and niche exactly the clicks, conversions and shares of the credits of its batch |
| `LedgerRows.SumIsRow` | core/attribution_store.py:308-323 | with unique keys such a sum is the column of the one row of that key |
| `LedgerRows.AnswerIsRecorded` | core/attribution_engine.py:326-457 | once nothing is pending, the answer over all niches is all revenue ever recorded for the content id |
| `Ledgers.AccumulatedConserves` | core/attribution_engine.py:348-380 | accumulating a batch per content id and niche loses no revenue and no conversion |
| `Ledgers.UpsertAllConserves` | core/attribution_engine.py:383-394 | writing the accumulated deltas adds exactly them to the stored totals |
| `Ledgers.FlushKeepsSound` | core/attribution_engine.py:326-433 | a flush keeps the ledger balanced and sound with stale touch lists, and leaves nothing pending |
| `Ledgers.RunConserves` | core/attribution_engine.py:326-433 | over every run: credited over all niches plus pending equals recorded, per content id; rows add up, with a click per conversion |
| `Ledgers.RateNeedsNoClamp` | core/attribution_engine.py:460-478 | in a reachable ledger the conversion rate is the plain quotient, for a row and for the sum over all niches |
| `Ledgers.FlushKeepsIds` | core/attribution_engine.py:326-433 | a flush writes only content ids that were recorded, so all stay nonempty and colon-free |
| `AttributionEngines.RecordClick` | core/attribution_engine.py:138-187 | a click is stored exactly when its code parses |
| `AttributionEngines.RecordConversion` | core/attribution_engine.py:190-245 | a conversion with a parsing code is one legal step of the ledger, with revenue clamped at zero; a bad code changes nothing |
| `AttributionEngines.GeneratedCodeIsStored` | core/attribution_engine.py:138-245 | a click and a conversion on a generated code are stored under its sanitized ids with the time of the event or else the clock, and no revenue below zero |
| `AttributionEngines.SplitRevenue` | core/attribution_engine.py:277-323 | the branches and the append loop give the credits of the split |
| `AttributionEngines.CollectOne` | core/attribution_engine.py:348-378 | the touch list used for one conversion is a recent answer of the store |
| `AttributionEngines.FlushToProfitEngine` | core/attribution_engine.py:326-433 | the loops perform one legal flush of the ledger and return the number of conversions attributed |
| `AttributionEngines.GetRevenue` | core/attribution_engine.py:438-457 | for a content id without a cut, on engine-written tables: one niche, exactly the revenue of the current row; all niches, the sum of the revenues of its rows as they were at most 30 seconds ago |
| `AttributionEngines.GetConversionRate` | core/attribution_engine.py:460-478 | under the same condition the rate of the current row, or of the sums of conversions and clicks over all niches at most 30 seconds ago; always in [0, 1] |
| `AttributionEngines.ColonServesOtherRow` | core/attribution_engine.py:438-457 | record, flush, read, and a request for a content id with a colon is served the row of another |
| `Lifecycles.RestartForgetsCounters` | core/lifecycle_manager.py:159-188 | a dump and a load keep gaps, cooldown and anomalies and zero both daily counters |
| `Lifecycles.AccountLifecycle.Evaluate` | core/lifecycle_manager.py:210-354 | the decision tree, whose only effect is the daily refresh |
| `Lifecycles.AccountLifecycle.RecordSessionStart` | core/lifecycle_manager.py:398-402 | refreshes, counts the session and notes its time |
| `Lifecycles.AccountLifecycle.RecordSessionEnd` | core/lifecycle_manager.py:405-458 | records an upload only below the cap of the phase it ends in, counts anomalies and triggers cooldowns |
| `Lifecycles.AccountLifecycle.TriggerCooldown` | core/lifecycle_manager.py:357-382 | overwrites the deadline with 48 or 72 hours from now and nothing else |
| `Lifecycles.AccountLifecycle.ClearCooldown` | core/lifecycle_manager.py:581-585 | removes the deadline and the anomaly count and nothing else |
| `Lifecycles.AccountLifecycle.FromDump` | core/lifecycle_manager.py:176-188 | rebuilds the state from a dump, with a zero registration time read as now |
| `Lifecycles.AccountLifecycle.ToDump` | core/lifecycle_manager.py:159-174 | refreshes, and dumps everything but the day of the counters |
| `LifecycleRuns.UploadCapNeverDecides` | core/lifecycle_manager.py:315-345 | in every state reachable by any calls under any clock the daily upload cap branch is never taken |
| `LifecycleRuns.UploadGrantedIff` | core/lifecycle_manager.py:218-354 | in reachable states an upload is granted exactly on request under gap, age, cooldown, trust, fatigue and session conditions; today's upload count plays no part |
| `LifecycleVerdicts.GateVerdict` | core/lifecycle_manager.py:210-354 | in reachable states a session is allowed exactly if the last start is four hours ago and today has fewer sessions than 1, 2, 3 or 1 by phase, which follows from deadline and age; the intent is then the requested one, or browsing exactly if an upload was asked for and its conditions fail; a refused session is skipped |
| `LifecycleVerdicts.CapIsFirstFailing` | core/lifecycle_manager.py:210-354 | the cap named is that of the first test that fails, and none is named exactly if all pass |
| `LifecycleRuns.SpacingHolds` | core/lifecycle_manager.py:238-331 | one session at a time, restarts from the present state included: recorded uploads are 24 hours apart, 72 if granted in ramp-up, and starts 4 hours |
| `LifecycleRuns.StartsPerWindow` | core/lifecycle_manager.py:238-252 | with at most m sessions of the account between grant and end, restarts from the present state included, no half-open 4 hours hold more than m starts and no 24 hours more than 6m |
| `LifecycleRuns.UploadsPerDay` | core/lifecycle_manager.py:310-331 | with at most m sessions between grant and end, no half-open 24 hours hold more than m recorded uploads |
| `LifecycleDays.CounterIsStartsSinceRestart` | core/lifecycle_manager.py:113-188 | in every run the number the cap compares is the starts of the current UTC day since the last restart |
| `LifecycleDays.StartsPerDay` | core/lifecycle_manager.py:254-266 | with at most m sessions out, a UTC day holds at most 2 + m starts, times one more than the restarts on that day |
| `LifecycleDays.ThreeStartsPerDay` | core/lifecycle_manager.py:254-266 | one session at a time: at most three starts on every UTC day without a restart, whatever happened on other days, and never more than six |
| `LifecycleWitnesses.DayBoundIsReached` | core/lifecycle_manager.py:254-266 | for every m a run with m sessions out starts 2 + m on one UTC day without a restart |
| `LifecycleWitnesses.OneRestartAllowsSix` | core/lifecycle_manager.py:176-188 | with a single restart six starts on one UTC day are reachable |
| `LifecycleWitnesses.OverlapBreaksSpacing` | core/lifecycle_manager.py:238-331 | with two sessions at once: two starts in the same instant and two recorded uploads a minute apart |
| `LifecycleCrashes.TimelyCrashesKeepSpacing` | core/lifecycle_manager.py:159-188 | with any number of crashes whose dumps hold the last start and the last upload, or come four hours and three days after them, the gaps hold |
| `LifecycleCrashes.CrashKeepsStartsIff` | core/lifecycle_manager.py:159-188 | after a crash that loads an earlier state, starts stay four hours apart in every continuation exactly if there was none since that state or the last is four hours ago |
| `LifecycleCooldowns.AnomalyCountIsWorstSuffix` | core/lifecycle_manager.py:446-458 | the anomaly count is the largest excess of anomalous over healthy sessions over all suffixes since creation or the last clear |
| `LifecycleCooldowns.MildAnomalyTriggers` | core/lifecycle_manager.py:447-455 | a mild anomaly starts a 48 hour cooldown exactly when that excess is at least two, and otherwise leaves the deadline alone |
| `LifecycleCooldowns.CooldownLasts` | core/lifecycle_manager.py:282-291 | for 48 hours after an uncleared trigger every evaluation is in cooldown and grants no upload |
| `LifecycleCooldowns.CooldownIff` | core/lifecycle_manager.py:282-291 | in reachable states the gate is in cooldown exactly for 48 hours, or 72 if severe, after the last trigger since the last clear |
| `LifecycleCooldowns.TriggerStarts` | core/lifecycle_manager.py:357-382 | a severe anomaly or a trigger by hand starts a cooldown at once |
| `LifecycleCooldowns.ClearEnds` | core/lifecycle_manager.py:581-585 | a clear ends any cooldown, forgets the anomalies and changes nothing else |
| `LifecycleCooldowns.SevereCooldownLastsIff` | core/lifecycle_manager.py:381-382 | the 72 hours of a severe trigger survive exactly when the last trigger is severe or at least a day later |
| `LifecycleWitnesses.SevereCooldownCutShort` | core/lifecycle_manager.py:381-382 | a run in which an upload is granted 50 hours after a severe trigger |
| `LifecycleWitnesses.GrantedUploadRecordedIff` | core/lifecycle_manager.py:426-444 | a granted upload is recorded exactly when its session ends in ramp-up or normal phase |
| `LifecycleWitnesses.UnrecordedUpload` | core/lifecycle_manager.py:426-444 | a run with two finished uploads four hours apart, only one of them recorded |
| `SlidingWindows.CountOfLatest` | core/cross_account_coordinator.py:448-451 | dropping the oldest events caps a recent count at what is left and otherwise keeps it |
| `SlidingWindows.OnePerWindowIsSpaced` | core/lifecycle_manager.py:254-331 | at most one event in every half-open window means events that far apart |
| `DailyCaps.CounterIsCount` | core/cross_account_coordinator.py:384-397 | a dated counter reads the number of this account's records of the day |
| `UploadThrottles.BoundedHistoryDecidesAlike` | core/cross_account_coordinator.py:187 | keeping only the latest 200 uploads never changes a decision |
| `UploadThrottles.FleetCapsHold` | core/cross_account_coordinator.py:238-502 | with at most m approvals outstanding, those of one account counted severally, every interleaving records at most 4+m uploads in ten minutes and 9+m in an hour |
| `UploadThrottles.BurstBoundIsReached` | core/cross_account_coordinator.py:447-461 | for every m there is an interleaving that records exactly 4+m in ten minutes |
| `UploadThrottles.HourBoundIsReached` | core/cross_account_coordinator.py:447-461 | for every m there is an interleaving that records exactly 9+m in an hour |
| `UploadThrottles.AccountCapHolds` | core/cross_account_coordinator.py:392-502 | with at most k approvals of an account outstanding it records at most k uploads on one UTC day, and its counter is the true number |
| `UploadThrottles.AccountBoundIsReached` | core/cross_account_coordinator.py:426-502 | for every k there is a run with k approvals out that records k uploads of one account on one day |
| `UploadThrottles.OneUploadPerDayIff` | core/cross_account_coordinator.py:426-502 | one upload per account and day is guaranteed exactly when an account never has two approvals out |
| `SessionCaps.SessionCapHolds` | core/cross_account_coordinator.py:205-424 | with at most k granted checks of an account out, at most 2 + k of its sessions start on one UTC day |
| `SessionCaps.SessionBoundIsReached` | core/cross_account_coordinator.py:205-424 | for every positive k there is a run with k granted checks out that starts 2 + k sessions of one account on one day |
| `SessionCaps.ThreeSessionsPerDayIff` | core/cross_account_coordinator.py:205-424 | three sessions per account and day are guaranteed exactly when an account never has two granted checks out |
| `Coordinators.GrantedSkipRate` | core/cross_account_coordinator.py:549-596 | a granted skip keeps the half-hour rate within the ceiling exactly if something was recorded in the half hour before, and then at least six records were |
| `Coordinators.SkipOutlivesTheOthers` | core/cross_account_coordinator.py:549-596 | when all other records have left the window a skip alone makes the rate 100 percent |
| `Coordinators.GrantedSkipPassesCeiling` | core/cross_account_coordinator.py:549-596 | a history in which a skip is granted at one in seven and makes the rate one in one a second later |
| `Coordinators.SkipGrantedIff` | core/cross_account_coordinator.py:530-596 | a wanted skip is granted exactly if the account did not skip last or the draw reaches 0.70, and, if anything was recorded in the last half hour, at most three in twenty of it are skips, this one included |
| `Coordinators.SkipsOfMore` | core/cross_account_coordinator.py:549-555 | a record counts for half an hour, the last instant included |
| `Coordinators.ReleasedLevels` | core/cross_account_coordinator.py:270-274 | the end of a job releases one session of its own level, if there is one, and none of any other |
| `Coordinators.LeavingUndoesJoining` | core/cross_account_coordinator.py:216-259 | ending a job restores the proxy map exactly if the account was not on the proxy before |
| `Coordinators.CrossAccountCoordinator.RegisterJobStart` | core/cross_account_coordinator.py:205-225 | registers the job and its start time, of which the latest 500 are kept, joins the proxy and counts the session of the day |
| `Coordinators.CrossAccountCoordinator.RegisterJobEnd` | core/cross_account_coordinator.py:238-274 | removes the job, leaves the proxy, records an upload as one throttle step, and releases an activity level |
| `Coordinators.CrossAccountCoordinator.CanUploadNow` | core/cross_account_coordinator.py:426-502 | the verdict on the bounded history is that on the unbounded one |
| `Coordinators.CrossAccountCoordinator.CheckSessionAllowed` | core/cross_account_coordinator.py:399-424 | allowed below three sessions of the day; the number of sessions is unchanged |
| `Coordinators.CrossAccountCoordinator.ShouldAllowSkip` | core/cross_account_coordinator.py:508-601 | the verdict of the skip rules, which is recorded whether granted or overruled |
| `Coordinators.CrossAccountCoordinator.RecomputeActivityCounts` | core/cross_account_coordinator.py:607-634 | the healed counters never grow, and exceed the active jobs only on the exact family below |
| `Coordinators.TwoUploadsOneDay` | core/cross_account_coordinator.py:238-502 | two checks, then two uploads: one account records two on one day |
| `ActivityHealing.RoundsToNearestEven` | core/cross_account_coordinator.py:626-628 | the rounded quotient is within one half of the exact one, and even when exactly one half away |
| `ActivityHealing.HealingShrinks` | core/cross_account_coordinator.py:625-634 | no level grows, and inflated counters end within one of the active jobs |
| `ActivityHealing.HealingOvershootsIff` | core/cross_account_coordinator.py:626-633 | the healed total exceeds the active jobs exactly when medium is zero, the active count is odd and the low share lies halfway above an odd number; never when the scaled medium is positive |
| `ActivityHealing.HalfwayRemainder` | core/cross_account_coordinator.py:626-628 | a share lies halfway above an odd number exactly if its remainder says so |
| `ActivityHealing.HealingCanStick` | core/cross_account_coordinator.py:630-633 | low 3, high 3, 3 active heals to 4, and healing again stays at 4 |
| `FleetRuns.StartsPerMinute` | core/fleet_coordinator.py:225-275 | with at most m slots out, no 60 seconds hold more than limit - 1 + m starts |
| `FleetRuns.StartsBoundIsReached` | core/fleet_coordinator.py:225-275 | for every limit and m a run with m slots out starts limit - 1 + m sessions in 60 seconds |
| `FleetRuns.UploadsPerHour` | core/fleet_coordinator.py:258-304 | if every counted upload was checked before, with at most m checks out, no hour holds more than limit - 1 + m |
| `FleetRuns.BatchRuns` | core/fleet_coordinator.py:380-442 | a batch is a run with at most one slot out |
| `FleetRuns.BatchKeepsLimit` | core/fleet_coordinator.py:380-442 | whatever one-slot run came before, other batches included, a batch keeps to the limit of starts in any 60 seconds |
| `FleetRuns.UploadsFollowStarts` | core/fleet_coordinator.py:402-440 | in a batch at most one upload of an hour belongs to a session that started before it |
| `FleetRuns.BatchHour` | core/fleet_coordinator.py:380-442 | a batch of a fresh fleet records at most sixty times the session limit and one upload in any hour |
| `FleetRuns.BatchHourIsReached` | core/fleet_coordinator.py:380-442 | and some batch, each account once, records that many |
| `FleetRuns.BatchUploadLimitIff` | core/fleet_coordinator.py:380-442 | every batch of a fresh fleet keeps the hourly upload limit exactly if no session is allowed or the limit is at least sixty times the session limit and one more |
| `FleetRuns.NormalMeansNoSpike` | core/fleet_coordinator.py:279-301 | in a normal mode never set by hand, no hour of counted bans has reached the threshold |
| `FleetRuns.SafeStays` | core/fleet_coordinator.py:589-597 | once safe, until a manual reset, nothing is granted and only outstanding slots still start |
| `FleetRuns.StaggerWithin` | core/fleet_coordinator.py:579-587 | the delay of a granted slot lies between the two stagger bounds, at the lower for the draw 0 and the upper for 1 |
| `FleetRuns.LargerDrawWaitsLonger` | core/fleet_coordinator.py:579-587 | a larger draw never shortens it |
| `FleetRuns.TopCountIsMost` | core/fleet_coordinator.py:599-606 | the similarity of an account's plans counts a most frequent one |
| `FleetRuns.TopIsMost` | core/fleet_coordinator.py:604-605 | no plan occurs more often |
| `Fleets.HintIff` | core/fleet_coordinator.py:599-608 | a hint is left exactly if there are at least five plans and some plan makes up the threshold of them; it is the share of a most frequent one, and no other hint is touched |
| `Fleets.HealthCounts` | core/fleet_coordinator.py:279-304 | over any results of an account its counters are its numbers of uploads, bans and sessions, and its plans the latest twenty |
| `Fleets.KeptIsCount` | core/fleet_coordinator.py:68-72 | after popping, what is kept is the count over the full history |
| `Fleets.SlidingWindowCounter.CanProceed` | core/fleet_coordinator.py:68-72 | the popping loop decides like counting over the full history |
| `Fleets.SlidingWindowCounter.Record` | core/fleet_coordinator.py:74-75 | one more event in the history |
| `Fleets.FleetCoordinator.RequestSlot` | core/fleet_coordinator.py:225-256 | registers the account and grants a slot, with its stagger delay, exactly in normal mode below the session limit; the reason names the first test that failed |
| `Fleets.FleetCoordinator.RequestUploadSlot` | core/fleet_coordinator.py:258-265 | granted exactly in normal mode below the hourly limit |
| `Fleets.FleetCoordinator.RecordSessionStart` | core/fleet_coordinator.py:271-275 | one more start in the history, and the account's latest start |
| `Fleets.FleetCoordinator.ReportResult` | core/fleet_coordinator.py:279-304 | of registered accounts only: counts bans and uploads, keeps the latest twenty plans, sets a diversity hint when they are too similar, and turns safe when a ban fills the window |
| `Fleets.FleetCoordinator.SetFleetMode` | core/fleet_coordinator.py:570-575 | sets the mode and nothing else |
| `Fleets.FleetCoordinator.RunOne` | core/fleet_coordinator.py:402-440 | one account of a batch: slot, start, report, and the pending hint used up |
| `Fleets.FleetCoordinator.RunBatch` | core/fleet_coordinator.py:380-442 | the loop leaves what the batch function says and returns the outcome of every session that got a slot |
| `InterestDrifts.BudgetIsCharged` | core/lifecycle_engine.py:336-345 | scaled deltas add up to what is charged to the day, never more than is left |
| `InterestDrifts.FreshDayBudget` | core/lifecycle_engine.py:291-345 | on a day without any drift yet a call charges its deltas in full, up to 0.05 |
| `InterestDrifts.DriftIsBounded` | core/lifecycle_engine.py:347-357 | no weight moves by more than the total shift over 0.92, and that is at most the sizes of the deltas plus what the weights fall short of the floor |
| `InterestDrifts.EvolvingKeepsSound` | core/lifecycle_engine.py:291-359 | weights stay nonnegative with sum one, niches stay, no day is overdrawn |
| `InterestDrifts.ChargedCallNormalizes` | core/lifecycle_engine.py:347-359 | whatever the weights were, all zero included, a call within the budget leaves them positive with sum one |
| `InterestDrifts.DailyMovementBounded` | core/lifecycle_engine.py:291-359 | over any number of calls in a day no weight moves by more than 194/193 of 0.05 plus what the weights fell short of the floor that morning, over 0.92 |
| `InterestDrifts.DailyMovementAboveFloor` | core/lifecycle_engine.py:291-359 | while no weight runs into the floor, no weight moves by more than 0.05 / 0.92 in a day |
| `InterestDrifts.NoLiftsIff` | core/lifecycle_engine.py:351-352 | the floor adds nothing exactly when no decayed and shifted weight falls below it |
| `InterestDrifts.NoDeficitsIff` | core/lifecycle_engine.py:351-352 | the weights fall short of nothing exactly when every decayed one reaches the floor |
| `InterestDrifts.DecayAloneIsNeutral` | core/lifecycle_engine.py:351-357 | decay without deltas, above the floor, changes nothing |
| `InterestDrifts.UntouchedWeightStaysIff` | core/lifecycle_engine.py:347-357 | a weight without a delta of its own stays where it is exactly when all shifts add up to zero |
| `InterestDrifts.NeutralOutcomeIsIgnored` | core/lifecycle_engine.py:311-330 | with trend and exploration in [0, 1] the acted niche's own delta of a neutral outcome falls in the dead zone |
| `InterestDrifts.ComputeDeltas` | core/lifecycle_engine.py:304-334 | the loop leaves the shift of every niche, in the order of the niches, as the lemmas below say |
| `DriftDirections.BanShift` | core/lifecycle_engine.py:311-322 | what a ban shifts in each stage, before the dead zone |
| `DriftDirections.SuccessShift` | core/lifecycle_engine.py:311-322 | what a success shifts in each stage |
| `DriftDirections.NeutralShift` | core/lifecycle_engine.py:311-322 | what an outcome that is neither shifts in each stage |
| `DriftDirections.PullShift` | core/lifecycle_engine.py:311-326 | what a niche that was not acted in shifts in each stage, by how far it is below the even share |
| `DriftDirections.PullTowardsEven` | core/lifecycle_engine.py:323-326 | under an even trend its pull points towards the even share, by at most two hundredths of the way |
| `DriftDirections.PullCountsIff` | core/lifecycle_engine.py:323-330 | how far from the even share it must be to be taken into account at all, by stage; never in the mature one |
| `DriftDirections.PullNeverRaises` | core/lifecycle_engine.py:323-330 | with four niches or more no such pull upwards is ever taken into account |
| `DriftDirections.BanCountsIff` | core/lifecycle_engine.py:317-330 | a ban is taken into account exactly under a trend of at most 0.8, whatever the stage |
| `DriftDirections.SuccessCounts` | core/lifecycle_engine.py:314-330 | a success always is |
| `DriftDirections.CapNeverDecides` | core/lifecycle_engine.py:328-334 | the cap on a single shift never decides |
| `DriftDirections.RisesIff` | core/lifecycle_engine.py:347-357 | above the floor a weight rises exactly if its own shift is more than its share of all shifts, and falls exactly if it is less |
| `DriftDirections.BanLowers` | core/lifecycle_engine.py:291-359 | if no other shift is taken into account and nothing meets the floor, a ban under a trend of at most 0.8 lowers the weight of its niche and raises every other positive weight |
| `DriftDirections.HotBanIsIgnored` | core/lifecycle_engine.py:291-359 | under a stronger trend it then changes no weight |
| `DriftDirections.SuccessRaises` | core/lifecycle_engine.py:291-359 | likewise a success raises the weight of its niche and lowers every other positive weight |
| `DriftDirections.BanOnFive` | core/lifecycle_engine.py:291-359 | a ban on one of five even niches of a mature account on a fresh day leaves it 0.18325 / 0.95925 |
| `InterestStages.AccountLifecycleState.GetLifecycleStage` | core/lifecycle_engine.py:182-239 | stage by age and success rate, with the decline remembered until recovery |
| `InterestStages.AccountLifecycleState.EvolveInterests` | core/lifecycle_engine.py:258-376 | determines the stage, drifts within the budget of the day, and records the outcome in rate and memory; a spent budget changes the stage only |
| `InterestStages.SteppingKeepsSound` | core/lifecycle_engine.py:258-376 | every call keeps weights normalized, drift within budget, and success rate and memory in [0, 1] over the same niches |
| `InterestStages.InDeclineIff` | core/lifecycle_engine.py:220-230 | over any evaluations: in decline exactly when the rate has been seen below 0.30 and never at 0.50 or more since |
| `InterestStages.RecoveryIff` | core/lifecycle_engine.py:220-233 | after any evaluations the stage is recovery exactly if the latest rate is from 0.30 to below 0.50 and an earlier one was below 0.30 with none of 0.50 or more since; decline exactly if the latest rate is below 0.30 |
| `InterestStages.RecoveryRatesIff` | core/lifecycle_engine.py:220-233 | the rates at which some account is in recovery are exactly those from 0.30 to below 0.50 |
| `InterestStages.SpentDayForgets` | core/lifecycle_engine.py:292-296 | once the budget of a day is spent, no outcome of that day changes a weight, the rate or the memory |
| `InterestStages.SuccessesSpend` | core/lifecycle_engine.py:304-345 | successes in own niches under a trend of at least one half charge the day 0.016875 each, or spend it |
| `InterestStages.AfterThreeSuccesses` | core/lifecycle_engine.py:291-370 | after three such successes every later outcome of the day is ignored |
| `InterestStages.EightFailuresDecline` | core/lifecycle_engine.py:120-122 | eight counted failures in a row put any account in decline |
| `InterestStages.SevenFailuresMayNot` | core/lifecycle_engine.py:120-122 | seven do not from a rate of 0.95 |
| `InterestStages.FiveSuccessesRecover` | core/lifecycle_engine.py:120-233 | five counted successes in a row end any decline |
| `InterestStages.FourSuccessesMayNot` | core/lifecycle_engine.py:120-233 | four do not from a rate of zero |
| `InterestStages.StageByAge` | core/lifecycle_engine.py:204-233 | from a rate of one half on the stage follows the age alone, at 3, 14 and 56 days |
| `InterestStages.MemoryFollows` | core/lifecycle_engine.py:361-367 | a counted outcome moves the memory of its niche a fifth of the way towards one or zero, and no other |
| `Sequences.SortIsStable` | core/content_decision.py:511 | sorting keeps elements that compare as equal in their order |
| `ContentDecisions.KeepCountIsClamp` | core/content_decision.py:520-523 | the number kept is the number reaching the threshold, clamped between the keep ratio and one fifth more |
| `ContentDecisions.TiesKeepOrder` | core/content_decision.py:511 | candidates of equal score keep the order given |
| `ContentDecisions.PartitionIff` | core/content_decision.py:456-562 | for a given sample every item appears exactly once among the results exactly when no unexplored rank-dropped candidate shares its id with an explored one |
| `ContentSamplings.EverySamplePartitionsIff` | core/content_decision.py:528-562 | no sample loses or repeats an item exactly when nothing is explored or the candidates ranked past the kept ones have distinct ids |
| `ContentSamplings.SharedIdLosesAnItem` | core/content_decision.py:528-562 | four reposts with one id: whatever is sampled, one is lost |
| `ContentDecisions.DistinctIdsPartition` | core/content_decision.py:456-562 | with distinct ids every item appears exactly once among keep, explore and drop |
| `ContentDecisions.SelectionIsSound` | core/content_decision.py:457-539 | kept and explored candidates match (0.60 for remarks and unknown modes) and their value covers the cost and reaches 0.00, 0.10 or 0.05 by mode; nothing explored or rank-dropped outscores a kept one |
| `ContentGates.RankedIff` | core/content_decision.py:457-511 | exactly the candidates that match and are worth it are ranked |
| `ContentGates.ResultsAreVerdicts` | core/content_decision.py:457-552 | the two lists hold exactly these results: kept, explored, or dropped for the match, for a value below the cost, for a value below the least of the mode, or for the rank |
| `ContentGates.KeptNumber` | core/content_decision.py:517-526 | of n ranked candidates at least the keep ratio and at most a fifth more are kept, both rounded up, and in between exactly those that reach the threshold, with the numbers of each mode |
| `ContentGates.ExploredNumber` | core/content_decision.py:528-539 | a tenth of the rest is explored, rounded up |
| `ContentGates.ProducedIff` | core/content_decision.py:373-427 | the worker produces a candidate exactly if its product is not killed, it matches, is worth it and reaches the threshold, and a generated one promises a profit of 0.20 |
| `ContentDecisions.ThresholdIsSoft` | core/content_decision.py:520-526 | when a kept candidate lies below the threshold, and when a rank-dropped one reaches it |
| `ContentDecisions.KeptButNotProduced` | core/content_decision.py:373-427 | when the worker gate stops a kept candidate |
| `ContentSamplings.KeptAllProducedIff` | core/content_decision.py:373-427 | outside generation and kills, the worker produces every kept candidate exactly when at least the keep ratio reaches the threshold |
| `ContentSamplings.KeptYetStopped` | core/content_decision.py:373-427 | a candidate for generation that passes the gates with a profit below 0.20, alone in its batch, is kept and then stopped by the worker |
| `ContentSamplings.WorthlessIsKept` | core/content_decision.py:373-427 | a candidate for generation of score and value one and no profit: its batch keeps it and the worker stops it |
| `ContentDecisions.SplitByGuard` | core/content_decision.py:457-485 | the guard loop divides the items in order |
| `ContentDecisions.SplitByValue` | core/content_decision.py:488-509 | the value loop divides what is left, with the reason of each drop |
| `ContentDecisions.FilterCandidates` | core/content_decision.py:432-562 | the two result lists, and with distinct ids an exact partition |

## Left out

- Floating point rounding: numbers are reals, so equalities such as conservation and sum one are exact here and hold up to rounding in the program; NaN and infinities are not modelled.
- Two clock readings inside one call, and a clock that jumps: every operation takes one instant. The theorems over runs of the gate, the throttles and the cache assume a clock that does not run backwards; `LifecycleRuns.UploadCapNeverDecides` does not.
- Database faults, reconnects, threads, the limit on SQL variables, and a crash between the upsert and the mark of a flush.
- `AttributionStores.AttributionStore.GetTouchesByContent`: does not model that the program hands out the cached list itself, which a caller could mutate.
- Profit propagation, the audit log and the report functions of core/attribution_engine.py.
- `TrackingCode.RoundTrip`: does not model timestamps so large that their conversion to a float overflows.
- Stability averages, learning rates and the fallback of `get_cluster_id` in core/account_clustering.py; the exception guards.
- The registry of accounts in `LifecycleManager`, reason strings and log records; one account's state is modelled.
- `LifecycleRuns.SpacingHolds`: a restart loads the present state; an older dump is modelled in `LifecycleCrashes`, for the gaps and not for cooldowns and anomalies.
- `LifecycleRuns.StartsPerWindow`: likewise for restarts from the present state.
- Start delays, personality adjustment, proxy load and snapshots of core/cross_account_coordinator.py.
- `Coordinators.GrantedSkipRate`: speaks of the kept skip records, the latest two hundred; with more in half an hour the true rate can differ.
- `Fleets.FleetCoordinator.RunBatch`: takes the sessions and their outcomes as given; accounts without signals, sessions that raise, proxy assignment and how a pending diversity hint changes the plan of a session are not modelled.
- `InterestDrifts.EvolvingKeepsSound`: starts from weights that sum to one; how a hash chooses the initial ones is a parameter, and if all five hashes are zero they sum to zero until the first call within the budget (`InterestDrifts.ChargedCallNormalizes`).
- `InterestDrifts.DailyMovementBounded`: is stated for at most five interests, which is how many an account has.
- Risk, activity and stability multipliers, role lists and niche sampling of core/lifecycle_engine.py.
- `ContentDecisions.FilterCandidates`: takes the scoring as an arbitrary function and carries each candidate in its result; score breakdowns, the log and outcome recording are not modelled.
