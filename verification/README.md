# Quota ledger verification

A Dafny model of `ab0t_quota`, a library that admits, counts and settles the use of shared
resources. Fast counters in Redis ("gauges", one per org and resource plus one partition per user)
are a cache of a ledger of activations; limits are checked and spent in one atomic script, and a
reconciler drives drifted counters back to the truth. The model proves what the library promises
about that arrangement: over every interleaving and crash of its atomic steps, over every
configuration of limits and enforcement knobs, over every run of its lease and migration protocols.

`dafny verify dfyconfig.toml` checks everything.

## How it is laid out

| file | part of the system |
|---|---|
| `Prelude`, `Sums`, `Gauges` | options and tolerance; sums over maps; slots, charges, levels, limits |
| `Activations`, `RedisStore` | the activation ledger: process-local store, and the Redis one as a step machine |
| `LedgerMachine` | acquire, release, settle and converge as atomic steps of concurrent, mortal calls |
| `Replays` | what a replayed idempotency key stands for, over any run |
| `ShadowMode` | the second script of an acquire in shadow mode: when it leaves a row that was not paid for |
| `ConvergeWindow` | what a converge is worth when other calls run between its listing and its writes |
| `BundleSpend`, `BundleMeaning` | the admission script on its flat arrays, and what it means for levels, generations and latches |
| `BundleStep` | the same script as one step of the ledger machine, and as one dual write of the migration |
| `Admission`, `Limits`, `Recount`, `Engine` | which limit is in force; check against acquire for every setting, and for every answer of a source of truth; the engine's calls run start to end |
| `Repair`, `Enumerate`, `Reconcile`, `Observations`, `Passes`, `Seed` | the repair loops, which orgs a pass visits, the reconciler with its budget, what repeated passes come to, recovery after losing Redis |
| `HandlerLedger`, `ClaimProtocol`, `AuthEvents` | event-handler claims: lock-based store, Redis protocol, dispatch and retry |
| `Keyspace`, `Migration`, `Migrator` | counter key shapes, the online move from v1 to v2 keys, the operator's verbs |
| `Tiers`, `Alerts` | which tier is served while the tier service fails; the reconciler's alerts and all-clears |

Levels are reals and time is a natural number. A step machine's event is one Redis script or command, or
one ledger write; `IsRun` quantifies over every finite sequence of enabled events. Where the source
updates objects in place the model is a class whose methods are proved against the functions the
lemmas are about.

Where a result is about *calm* runs, `LedgerMachine.Calm` says what every pass that writes counters from a
listing is spared: the listing is complete and taken while no call of the org is between its steps; until
the pass has written, nothing of the org is admitted and no row still to be read is released; and a
provider's number is never below what the ledger and the running calls account for. The results after it
say what happens otherwise. The *orphans* of a slot are what is on its level and nothing accounts for, its
*phantoms* what is accounted for and is not on the level.

## Results that go against the documentation, or are less than it promises

The model follows the code. These are proved: exactly when a promise fails, and that it does.

- A converge lists an org's OPEN rows first and writes its counters later. The level it writes is off by
  exactly what was admitted less what was given back in between, so it never under-counts if and only if
  that is not positive; with nothing in flight at either moment, it is exact if and only if Σ OPEN has not
  moved since the listing (`ConvergeSafeIff`). One acquire in the window is enough to leave the counter below
  Σ OPEN (`StaleListingUnderCounts`). The guard on recent activity looks at the same listing and at a marker
  acquire and release never set, so it cannot see that acquire (`GuardMissesTheWindow`); a run from the empty
  system ends low with the guard passed (`GuardDoesNotProtect`).
- In shadow mode a refused acquire runs a second script without limits and overwrites its answer. If that answer
  was a replay, nothing is spent and an OPEN row is written all the same. That happens if and only if the call's
  key was taken after its first script and is still held (`HauntsIff`): without shadow mode, without a key, or
  without overlapping calls under one key it never does (`NoOverlapNoHaunting`). Every counter is then short by
  that row's spend (`ShadowRetryUnderCounts`), unless its orphans have room for it (`BackedThroughoutIff`). Two
  overlapping calls are enough for a counter at half of Σ OPEN (`OverlapUnderCounts`), and after the first of them
  is released it reads zero with the other still OPEN (`OverlapBitesFloor`).
- The listing is cut at 100 rows, so a busier org is set low by exactly the rows cut off
  (`ConvergeCutUnderCounts`).
- "Acquire succeeds, so its activation is persisted" fails for a retry: an acquire whose row could not
  be written has claimed its idempotency key, and the retry is admitted without a row (`RetryAfterLostRow`).
  Over any run a held key stands for exactly one acquire, and has a row if and only if that one got as far as
  recording it (`HeldKeyIff`, `ReplayHasRowIff`).
- A process that dies in `put_open` leaves an OPEN row that no listing finds, and one that dies in a release a
  closed row that is still listed (`DeathStrands`); a row whose id was handed out is always found
  (`IssuedOpenIsIndexed`).
- An activation settled straight from OPEN can never be released: its spend stays until a converge
  (`SettledFromOpenIsStranded`). The two-attempt settle of the Redis store misses exactly when a release
  falls between its attempts (`TwoAttemptSettleMisses`).
- `check` and `acquire` agree on declared bundles except for a negative burst (`AcquireAgreesWithCheck`).
  On undeclared and empty bundles they differ exactly where `AgreementIff` says.
- `check` is documented as not modifying counters; the recount before a denial repairs them, in
  shadow mode too: if and only if the cache denies under an enabled limit and a reachable source reports the org
  total out of tolerance (`CheckWritesIff`).
- With a source of truth `acquire` and the bundle check agree exactly when, besides the check's consent, all
  gauges fit as cached, or all fit once those whose org total has drifted are set to the truth
  (`AcquireAgreesWithSource`). They part in two ways: a stale user partition under an org total in tolerance
  still refuses (`StaleGaugeStillRefused`), and a gauge that fits only because its counter is low is raised
  by the repair and then refuses, while no check looks at its truth (`RepairRaisesAnother`).
- A disagreement between provider and ledger is never settled by a pass and takes its unit of budget
  every time. Any other gauge comes into sync if and only if the disagreements ahead of it in visiting order
  are fewer than the budget (`InSyncIff`); behind as many as the budget nothing moves, ever
  (`DivergencesStarve`). Orgs without an OPEN row are never visited at all (`ClosedOrgNeverHealed`).
- A user partition that is off under an org total in tolerance is never healed by the reconciler: it looks at
  totals only (`HealedIff`).
- v1 keys round-trip only for orgs without `:` that do not look like a version (`V1RoundTripIff`).
- The migrator finds counters by classifying v1 keys; which ones that reaches is exact (`VisitedIff`). Those of an
  org with one colon, or one that looks like a version, are never visited: verify passes without their twins
  (`ColonOrgSkipped`, `VersionOrgSkipped`, `UnseenAndRefused`). With more colons a key may be visited as another
  org's counter (`ForgedCounterIsShared`), or as nobody's (`StrayCounterVisited`). One visited
  counter of an org v2 refuses makes every verify and unbudgeted backfill raise (`VerifyPassesIff`).
- During dual-write, deleting or resetting one key shape breaks its twin
  (`ClearingOneShapeClearsNothing`, `ResettingOneShapeDiverges`); the stale-user clearing of
  `converge_gauge` and the reconciler's resets do that.
- A comment in the retry loop says the lease is bumped on a long retry; nothing does. A worker that outlives
  its lease is joined by a second one, and both run the handler to an outcome (`SlowWorkerCompletesTwice`); of
  two such workers the one granted first was always late (`SecondCompletionIsLate`). A lease longer than the
  row's 72 hours is lost with the row (`LongLeaseIsLost`).
- The DynamoDB handler ledger reclaims by an unconditional put: two drainers can both proceed (`ReclaimRace`).
- The alert about unbilled use shares its cooldown with plain drift and missing observations, and is
  swallowed right after one of those (`DivergenceSwallowed`, `DivergenceSentIff`).
- The last-known-good tier is lost when the last fetched tier is the empty string, and an org named
  `lkg:x` is served the record of org `x` (`ServedIsLastFetched`, `PrefixedOrgReadsRecord`).

## Model

| member | source | states |
|---|---|---|
| LedgerMachine.Tally | ab0t_quota/engine.py:894-996 | in every state of every run of acquires, shadow retries, releases, settles, listings, converge and provider writes and crashes, each org and user level is Σ OPEN spend + spends not yet recorded + releases not yet decremented + orphans − phantoms; so it is at or above what is accounted for if and only if the phantoms do not exceed the orphans |
| LedgerMachine.Conservation | ab0t_quota/engine.py:894-996 | in every state of every calm run a slot that no shadow retry has left a row on unpaid has no phantoms: its level is exactly what is accounted for plus orphans, and never below Σ OPEN |
| LedgerMachine.FloorBitesIff | ab0t_quota/counters/gauge.py:166-215 | in every run a decrement takes off exactly its delta if and only if the phantoms do not exceed the orphans and whatever else is accounted for |
| LedgerMachine.FloorNeverBites | ab0t_quota/engine.py:981-995 | so every decrement of every calm run lowers a slot without phantoms by exactly the spend it is for: neither the zero floor nor the latch swallows any |
| LedgerMachine.NeverOverAdmits | ab0t_quota/engine.py:894-996 | in every calm run, under any concurrency and crashes, the level, and with it the live spend, never passes the limit that bundles are admitted against, if no shadow retry puts anything on the slot |
| LedgerMachine.NextSound | ab0t_quota/engine.py:894-996 | every atomic step of any run, calm or not, keeps the ownership of running releases and the soundness of rows, latches and listings |
| LedgerMachine.NextInv | ab0t_quota/engine.py:894-996 | a calm step keeps every level balanced, at or above what is accounted for, and every running pass at or above what it will overwrite, if and only if it is no shadow retry that leaves an unpaid row the orphans have no room for |
| LedgerMachine.CommittedMoves | ab0t_quota/engine.py:894-996 | one step moves what rows and running calls account for by exactly what it spends, decrements, strands or settles; recording a row and marking it RELEASED move nothing |
| LedgerMachine.DecrementExact | ab0t_quota/counters/gauge.py:166-215 | one decrement script of a release takes off exactly its delta on org and user slot, where the level covers what is accounted for |
| LedgerMachine.DecrementOnSlot | ab0t_quota/counters/gauge.py:166-215 | in any state its latch is free and it takes off its delta down to zero at the most |
| LedgerMachine.RunAdvances | ab0t_quota/activations.py:152-206 | over any run, for as long as the store keeps its closed rows, rows only move OPEN to RELEASED to SETTLED or OPEN to SETTLED, none goes away, and a settled cost never changes |
| LedgerMachine.ClosedRowExpires | ab0t_quota/activations.py:194-222 | the expiry of a closed row changes nothing that is accounted for on any slot |
| LedgerMachine.ReleasedByOneCall | ab0t_quota/engine.py:967-980 | once some call performed the release of an activation no later call of the run can |
| LedgerMachine.DecrementedOnce | ab0t_quota/engine.py:967-996 | each resource of an activation is decremented at most once in a run |
| LedgerMachine.LatchExpires | ab0t_quota/counters/gauge.py:166-215 | a decrement latch that expires takes nothing else with it |
| ConvergeWindow.ConvergeOverUnrecordedUnderCounts | ab0t_quota/activations.py:661-665 | converging while an acquire is between its steps leaves the counter below Σ OPEN by exactly that spend |
| ConvergeWindow.ConvergeOverPendingUnderCounts | ab0t_quota/activations.py:661-665 | converging while a release is between its steps lets its decrement cut below Σ OPEN |
| ConvergeWindow.ConvergeSafeIff | ab0t_quota/activations.py:658-697 | for any listing taken at rest and any later write: the level written is off by exactly the net effect of the window; it covers what is accounted for if and only if that is not positive; at rest again, it is Σ OPEN if and only if Σ OPEN is what it was when listed |
| ConvergeWindow.UndisturbedConverge | ab0t_quota/activations.py:658-697 | whatever had been written to a slot before, an undisturbed pass over an org of at most a hundred OPEN rows leaves it at exactly Σ OPEN and touches nothing else |
| ConvergeWindow.ConvergeIsItsWrites | ab0t_quota/activations.py:661-697 | every slot a converge touches ends as one write of the machine leaves it |
| ConvergeWindow.StaleListingUnderCounts | ab0t_quota/reconcile.py:509-528 | an acquire that runs wholly between listing and write leaves the counter below Σ OPEN by exactly its spend, with nothing in flight at either moment |
| ConvergeWindow.GuardMissesTheWindow | ab0t_quota/reconcile.py:345-383 | an acquire after the listing, recorded now, does not make the recent-activity guard hold the write back, though its row read afresh would |
| ConvergeWindow.GuardDoesNotProtect | ab0t_quota/reconcile.py:345-383 | a run from the empty system that is at rest at the listing and at the write, passes the guard, and ends with one OPEN activation and a zero counter |
| ConvergeWindow.ConvergeCutUnderCounts | ab0t_quota/activations.py:169-173 | converging an org with more rows than the listing returns sets it low by exactly the rows cut off |
| LedgerMachine.RetryAfterLostRow | ab0t_quota/engine.py:937-964 | after a failed persist a retry with the same key is admitted as a replay although no row exists |
| Replays.HeldKeyIff | ab0t_quota/engine.py:70-91 | over any run a key is held if and only if some acquire took it while spending and it has not expired since |
| Replays.ExpiredKeySpends | ab0t_quota/engine.py:70-116 | once its key has expired the same call is no replay any more and spends again if there is room |
| Replays.OneTaker | ab0t_quota/engine.py:70-91 | by one acquire only: while it is held every other one is a replay |
| Replays.ReplayHasRowIff | ab0t_quota/engine.py:934-964 | the script answers a retry under a held key as a replay, and the acquire that took the key has left a row if and only if it got as far as recording it; what a shadow retry makes of that answer is `ShadowMode` |
| ShadowMode.FirstScript | ab0t_quota/engine.py:890-920 | every shadow retry of a run has exactly one first script, which was refused and took no key, with the same bundle and key |
| ShadowMode.HauntsIff | ab0t_quota/engine.py:911-937 | a shadow retry leaves a row it has not paid for if and only if its key was taken after its first script and is still held |
| ShadowMode.ShadowRetryUnderCounts | ab0t_quota/engine.py:911-946 | such a retry writes its OPEN row with every level as it was, so each slot falls short of Σ OPEN by exactly the row's spend more than before |
| ShadowMode.PhantomsAppear | ab0t_quota/engine.py:911-937 | in a calm run the phantoms of a slot grow exactly at such a retry, by exactly the spend it does not make |
| ShadowMode.BackedThroughoutIff | ab0t_quota/engine.py:894-996 | over a calm run a slot stays at or above what is accounted for if and only if the orphans have room for every such retry on it |
| ShadowMode.NoOverlapNoHaunting | ab0t_quota/engine.py:911-937 | without shadow mode, without a key, or without another script under the key between a call's two, there is no such retry |
| ShadowMode.ConservationWithoutOverlap | ab0t_quota/engine.py:894-996 | so conservation and the machine's invariant hold in every calm run without such an overlap |
| ShadowMode.OverlapUnderCounts | ab0t_quota/engine.py:911-946 | a run from the empty system, for every bundle that does not fit and every key: two overlapping calls, and every slot of the bundle ends at half of Σ OPEN |
| ShadowMode.OverlapBitesFloor | ab0t_quota/engine.py:967-996 | the same run with both rows released: after the first release the counters of a gauge read zero with the other row OPEN, and the second one's decrement takes nothing |
| LedgerMachine.SettledFromOpenIsStranded | ab0t_quota/activations.py:160-167 | a row settled while OPEN can never be released or decremented again; its spend becomes an orphan |
| LedgerMachine.TwoAttemptSettleMisses | ab0t_quota/activations.py:262-271 | the two-attempt settle leaves a row unsettled exactly when a release came between the attempts |
| LedgerMachine.TwoAttemptsSettle | ab0t_quota/activations.py:262-271 | undisturbed the two attempts settle an OPEN row by the second and a RELEASED one by the first |
| Activations.WritesAdvance | ab0t_quota/activations.py:145-167 | each of the store's three writes only moves rows forward |
| Activations.ListingIsComplete | ab0t_quota/activations.py:169-173 | a listing of an org with no more OPEN rows than its limit adds up to the ledger's sum on every slot |
| Activations.ListingMissesExactly | ab0t_quota/activations.py:169-173 | any listing is short of the ledger's sum by exactly the spend of the rows it leaves out |
| Activations.CutKeepsOldest | ab0t_quota/activations.py:169-173 | no row cut from a listing was opened before one that is kept |
| Activations.InMemoryActivationStore.Put | ab0t_quota/activations.py:145-147 | the first writer of an id wins; every other row stays |
| Activations.InMemoryActivationStore.Release | ab0t_quota/activations.py:152-158 | answers with the row exactly when this call moved it from OPEN to RELEASED |
| Activations.InMemoryActivationStore.Settle | ab0t_quota/activations.py:160-167 | answers with the row exactly when this call settled it; the first cost is kept |
| Activations.InMemoryActivationStore.ListOpen | ab0t_quota/activations.py:169-173 | the oldest OPEN rows of the org, each once, sorted, up to the limit |
| RedisStore.IndexIsTheOpenSet | ab0t_quota/activations.py:228-286 | in a run without crashes, once all calls have ended the org's index is exactly its set of OPEN rows |
| RedisStore.IssuedOpenIsIndexed | ab0t_quota/activations.py:228-235 | even with crashes, an OPEN row whose id was handed out is in its org's index |
| RedisStore.LifeOfARow | ab0t_quota/activations.py:228-286 | undisturbed, an activation is put, indexed and handed out, released and unindexed, then settled with its cost |
| RedisStore.DeathStrands | ab0t_quota/activations.py:228-260 | with deaths the index is not the OPEN set: a run leaves an OPEN row unindexed and a closed one indexed, with every call ended |
| RedisStore.RowsRefineInMemory | ab0t_quota/activations.py:194-260 | every row write of the Redis store is a write the in-memory store would do, or none |
| RedisStore.ListedRowIsOpen | ab0t_quota/activations.py:273-283 | whatever runs between reading the index and a row, a row that is kept is an OPEN row of that org |
| BundleSpend.Redis.AcquireScript | ab0t_quota/engine.py:70-116 | the script's loops over flat 1-based KEYS and ARGV run as the record-level script says |
| BundleSpend.ArraysDecode | ab0t_quota/engine.py:752-784 | the arrays the engine builds decode at the script's offsets to the bundle's own gauges, in both key shapes |
| BundleSpend.BundleEngine.AtomicBundleSpend | ab0t_quota/engine.py:741-784 | building the arrays and running the script once has the record-level effect for every keyspace mode; an empty bundle touches nothing |
| BundleMeaning.ScriptRefinesSpend | ab0t_quota/engine.py:70-116 | all or nothing: a held latch answers dup, a denial names the first gauge that does not fit, and neither moves a reading, a create generation or a latch; an admission raises every org and user level by exactly the charge, each generation it creates under by one, and holds the latch of its key and no other; twins stay equal |
| BundleStep.ScriptIsAcquire | ab0t_quota/engine.py:70-116 | on keys that mirror a state of the ledger machine the script leaves keys that mirror the state after the machine's acquire, levels, generations and idempotency latches together, and answers ok or dup exactly as the machine spends or recognises a replay |
| BundleStep.ScriptIsShadowRetry | ab0t_quota/engine.py:911-920 | without its limits the script leaves keys that mirror the state after the machine's shadow retry, never refuses, and answers dup exactly when the row that follows is not paid for |
| BundleStep.ScriptIsDualWrite | ab0t_quota/engine.py:70-116 | while both key shapes are written the script is one dual script of the migration: an add to each counter of the bundle on an admission, a seed otherwise |
| BundleStep.SameReading | ab0t_quota/keyspace.py:53-60 | the script's view of a counter and the migration's agree on equal twins and on the value read, whichever shape is read |
| BundleMeaning.AdmittedWithinLimits | ab0t_quota/engine.py:92-105 | after an admission no gauge of the bundle is over its org or user limit |
| BundleMeaning.KeysApart | ab0t_quota/engine.py:711-722 | no two gauges, users, generations or latches of a bundle share a key |
| Admission.GaugeSpecs | ab0t_quota/engine.py:696-739 | a bundle yields each of its resources exactly once, whatever repeats it names |
| Limits.LimitLaw | ab0t_quota/engine.py:329-499 | under enforcement, by the overrides and the tier's table alone: a live override is the org's limit, also as unlimited, else the tier's own, else none; acquire spends if and only if the level stays within limit plus burst and the user within the personal cap; check denies if and only if not, with a negative burst read as none |
| Limits.CapInUse | ab0t_quota/models/core.py:510-526 | the personal cap in use is the explicit one, else the least whole number of at least one and at least the user's share of the tier's limit, else none |
| Limits.WarningLaw | ab0t_quota/engine.py:1702-1790 | an allowing check answers unlimited exactly without a limit, and a warning exactly in the burst or from the lower of the two thresholds on |
| Limits.KnobsLaw | ab0t_quota/engine.py:279-421 | kill switch, disabled enforcement, an unknown tier and shadow mode decide both calls, in that order, whatever the limits are |
| Limits.UndeclaredLaw | ab0t_quota/engine.py:648-856 | an undeclared bundle passes acquire and check exactly under the stated knobs |
| Limits.BundleLaw | ab0t_quota/engine.py:696-784 | under enforcement a bundle is admitted if and only if each of its resources alone would be |
| Limits.SpendsOneOfEach | ab0t_quota/engine.py:696-739 | whatever the knobs, what is spent is one unit of each resource named, however often it is |
| Limits.TruthIsJudgedAlike | ab0t_quota/engine.py:1425-1455 | the truth is over exactly if a check on levels that read as reported denies |
| Admission.AcquireAgreesWithCheck | ab0t_quota/engine.py:279-694 | for every knob, tier, override, burst and per-user setting, acquire admits a declared bundle if and only if the bundle check allows and no gauge sits in the gap of a negative burst |
| Admission.AcquireAgreesWithCheckForBursts | ab0t_quota/engine.py:468-491 | with bursts that are not negative the two agree on every declared bundle |
| Admission.AgreementIff | ab0t_quota/engine.py:648-878 | for every bundle, undeclared, empty or not: acquire and the bundle check agree exactly under the stated condition on knobs, tier and negative bursts |
| Admission.SameResourceBlamed | ab0t_quota/engine.py:919-933 | a refused acquire names the first resource the bundle check lists as denied |
| Admission.RecountBeforeDeny | ab0t_quota/engine.py:1348-1455 | with a reachable source an enforced check denies if and only if the cache would and the truth really is over; it never turns an allow into a deny; a drifted gauge ends at the truth, users included |
| Admission.TruthOnlyRelaxes | ab0t_quota/engine.py:1348-1455 | whatever the source answers, a check is denied if and only if it is without one and either no limit was the reason or a reachable source shows no room; only a drifted gauge it reports is written; unreachable, it denies no gauge to either call |
| Admission.CheckWritesIff | ab0t_quota/engine.py:1348-1455 | a check changes a level, in shadow mode or not, if and only if the kill switch is off, enforcement is on, the tier is known, the cache denies and a reachable source reports the gauge out of tolerance; then exactly that gauge's slots are set to the truth |
| Admission.SourceOnlyAdmitsMore | ab0t_quota/engine.py:894-933 | what acquire admits without a source it admits alike with one; an unreachable one leaves no refusal for a limit and no level changed; what a report turns into an admission had drifted and fits every limit on the repaired levels |
| Admission.BatchIsEachAlone | ab0t_quota/engine.py:441-462 | the checks of a bundle do not disturb each other: the denied ones are those a single check on the levels before denies, and each gauge ends as that check leaves it, repeated entries included |
| Admission.RepairAllReaches | ab0t_quota/engine.py:1479-1502 | the repair loop of a refused acquire puts exactly the drifted reported gauges at the truth |
| Recount.RecountedRefusal | ab0t_quota/engine.py:1457-1503 | a denied bundle is still refused after the recount if and only if some gauge does not fit, by the truth where its org total had drifted, by the cache everywhere else |
| Recount.RefusedAtTruth | ab0t_quota/engine.py:1457-1503 | such a reported gauge is refused on an org level true to tolerance, or on a user partition, the true one if the org total had drifted |
| Recount.AdmitsWithSourceIff | ab0t_quota/engine.py:894-933 | an enforced acquire with a reporting source admits if and only if all gauges fit as cached or all fit once repaired |
| Recount.AcquireAgreesWithSource | ab0t_quota/engine.py:279-933 | for every policy, level and answer of the source, acquire admits a declared bundle if and only if the bundle check allows it and, where limits are enforced, the stated need is met |
| Recount.AcquireAgreesWithSourceForBursts | ab0t_quota/engine.py:1348-1503 | with bursts that are not negative: check allows, and all fit as cached, or all drifted gauges are truly not over and all others fit as cached |
| Recount.StaleGaugeStillRefused | ab0t_quota/engine.py:1485-1502 | a bundle with a reported gauge in tolerance that does not fit as cached is refused, though its check allows it unless the truth is over |
| Recount.RepairRaisesAnother | ab0t_quota/engine.py:1480-1502 | a bundle denied for one gauge is refused for another that fits as cached and is truly over, though the checks of both allow |
| Recount.StaleUserStillRefused | ab0t_quota/engine.py:1485-1502 | the first happens, for every org, resource and user: one stale partition, check allows, acquire refuses |
| Recount.RaisedGaugeRefused | ab0t_quota/engine.py:1480-1502 | the second happens, for every org and two resources: the bundle check allows, acquire refuses |
| Engine.RefusedUpFrontIff | ab0t_quota/engine.py:818-878 | acquire refuses before looking at any counter exactly under the kill switch, an unknown tier with enforcement on, or an undeclared bundle that no knob lets pass; and then moves nothing |
| Engine.FreshAcquireAsDecided | ab0t_quota/engine.py:786-965 | under a key that is not held, or none, the engine's acquire ends as the decision and its recount say |
| Engine.QuotaEngine.Acquire | ab0t_quota/engine.py:786-965 | ends as the policy, the replay latch and the recount of a denial say; a refusal or replay spends nothing; an admission adds exactly the charge and its OPEN row; a lost row fails the call and leaves an orphan; the key is replayed from then on; what a repair to the truth adds goes to the orphans, and the machine's invariant is kept without a source, or if the truth covers the ledger |
| Engine.QuotaEngine.ShadowSpend | ab0t_quota/engine.py:911-920 | the second script of shadow mode steps as the machine's shadow retry, whatever ran since the first, and keeps the machine's invariant if its key is not held |
| Engine.QuotaEngine.Release | ab0t_quota/engine.py:967-996 | the first release of an OPEN row lowers every slot by what the row had put there, to zero at the most, and by exactly that where the invariant holds; any other release changes nothing |
| Engine.QuotaEngine.Settle | ab0t_quota/engine.py:998-1049 | an invalid cost never reaches the ledger; the first cost wins; a conflict is reported exactly for a settled row with another cost |
| Engine.QuotaEngine.Check | ab0t_quota/engine.py:279-439 | the imperative check decides and repairs as the decision function that the recount results are about, and keeps the machine's invariant if and only if what it wrote covers the ledger |
| Engine.QuotaEngine.CheckForBundle | ab0t_quota/engine.py:441-694 | with any source: allows as the agreement results say, lists the denied resources in bundle order, or the bundle's own name; each verdict is that of a check of its own on the levels before, and each gauge is left as that check leaves it |
| Engine.QuotaEngine.RecountAcquire | ab0t_quota/engine.py:1457-1503 | after a denial: repairs what has drifted and, if anything had, spends once more under the same key, as the refusal result says; without limits when the source is down |
| Repair.ResetReaches | ab0t_quota/engine.py:1318-1346 | from any starting map the gauge reads its target, users not listed read zero, every other gauge reads as before |
| Repair.ForcedReaches | ab0t_quota/reconcile.py:431-487 | the audited force-set reaches the same levels within tolerance |
| Repair.ForcedIsStable | ab0t_quota/reconcile.py:431-487 | a second force-set has nothing to do, and one with nothing to do changes nothing |
| Repair.ConvergedReaches | ab0t_quota/activations.py:661-697 | after a converge every slot of the gauge reads the listing's sum for it |
| Repair.UsersNeverExceedTotal | ab0t_quota/activations.py:666-677 | the derived user partitions together never exceed the org total, and equal it when every spend has a user |
| Repair.GaugeCache.ConvergeGauge | ab0t_quota/activations.py:661-697 | the three loops of converge end in the converged state |
| Repair.GaugeCache.RepairToTruth | ab0t_quota/engine.py:1318-1346 | the engine's repair loops end in the reset state and report the level before |
| Repair.GaugeCache.AuditedForceSet | ab0t_quota/reconcile.py:431-487 | the reconciler's loops end in the forced state and report a change exactly when one was needed |
| Reconcile.ResolveLaw | ab0t_quota/reconcile.py:398-429 | the target is within tolerance of the provider where it is seen, the ledger where it is not; a divergence is exactly a disagreement outside provider mode |
| Reconcile.ReconcileOrgLaw | ab0t_quota/reconcile.py:491-654 | provider error or recent activity: nothing moves; an unreported gauge keeps all its slots; every other gauge ends within tolerance of the provider's level if asked and disagreeing, else of the ledger's |
| Observations.UnreportedIsKept | ab0t_quota/reconcile.py:550-562 | by default a gauge the provider does not report keeps every slot, whatever the budget and the activity, and is reported for no disagreement |
| Observations.AbsentIsZero | ab0t_quota/reconcile.py:546-549 | with the opt-out the whole call is the one for a report of zero |
| Observations.ReportedLaw | ab0t_quota/reconcile.py:526-640 | a reported gauge ends within a billionth of the report if the provider is the record or the two disagree, else of Σ OPEN; it disagrees exactly so; where the call acts every user ends where the winner says, else every slot stays |
| Observations.UnaskedLaw | ab0t_quota/reconcile.py:526-640 | without a provider every gauge ends within a billionth of Σ OPEN and nothing disagrees |
| Reconcile.ReconciledToLedger | ab0t_quota/reconcile.py:491-654 | without a provider, and with a listing that is not cut, every gauge ends within tolerance of Σ OPEN |
| Reconcile.OrgPassLaw | ab0t_quota/reconcile.py:526-613 | every slot of every gauge a call acts on, user partitions included, ends where the winning source says; every slot of a gauge it does not act on stays as it was |
| Reconcile.HealedIff | ab0t_quota/reconcile.py:565-613 | a slot that is off is set right if and only if its gauge is reported and the org total is off too or the sources disagree on it; else no slot of the gauge moves |
| Reconcile.SecondRunIdle | ab0t_quota/reconcile.py:491-654 | reconciling the result again performs no force-set and changes nothing |
| Reconcile.OrgBudget | ab0t_quota/reconcile.py:198-209 | a call takes one unit per pending gauge, is exhausted exactly when more were pending than it had, and settles what it took less the divergences |
| Reconcile.PassWithinBudget | ab0t_quota/reconcile.py:692-714 | whatever the records say, a pass never mutates more counters than its budget |
| Reconcile.PassBudget | ab0t_quota/reconcile.py:692-714 | with no disagreement, no recent activity and all orgs under the cap, one pass takes n gauges out of sync to max(0, n − budget) and reports backpressure exactly when some remain |
| Passes.PassTurn | ab0t_quota/reconcile.py:526-714 | a pass acts on exactly the first gauges out of sync, as many as its budget, and leaves every slot of the others alone |
| Passes.PassCounts | ab0t_quota/reconcile.py:526-714 | up to any point of the visiting order: only disagreements are left if the budget reaches that far, else at least what they leave of the budget is settled, and no more than all of it |
| Passes.InSyncIff | ab0t_quota/reconcile.py:526-714 | over repeated passes a gauge without a disagreement comes into sync if and only if the disagreements ahead of it are fewer than the budget; and by when |
| Passes.StaysInSync | ab0t_quota/reconcile.py:526-714 | and then it stays in sync |
| Passes.PassesSettle | ab0t_quota/reconcile.py:658-714 | with no more disagreements than the budget, k passes leave only them or have settled k times what they leave of it |
| Passes.PassesConverge | ab0t_quota/reconcile.py:658-714 | with none, k passes leave max(0, n − k·budget) out of sync, so enough of them end in sync |
| Passes.NeverReached | ab0t_quota/reconcile.py:572-613 | behind at least as many disagreements as the budget no slot of a gauge ever moves |
| Passes.DivergencesStarve | ab0t_quota/reconcile.py:572-613 | at least as many disagreements in the first orgs as the budget keep every other org's counters unchanged over any number of passes |
| Passes.FirstOrgStarves | ab0t_quota/reconcile.py:572-613 | and as many in the first org alone are enough |
| Passes.CapStarves | ab0t_quota/reconcile.py:693-697 | no pass ever reaches an org after the cap |
| Passes.PassCapped | ab0t_quota/reconcile.py:693-697 | a pass over more orgs than the cap is the pass over the first ones, with backpressure |
| Reconcile.ClosedOrgNeverHealed | ab0t_quota/reconcile.py:716-756 | a pass over the enumerated orgs changes no counter of an org without OPEN rows |
| Reconcile.Budget.Take | ab0t_quota/reconcile.py:204-209 | takes a unit if there is one; exhaustion is set by the first refusal and stays |
| Reconcile.LibraryReconciler.LedgerTotals | ab0t_quota/reconcile.py:385-396 | skipping zero spends computes the same total and user sums as the converge mechanism |
| Reconcile.LibraryReconciler.ReconcileOrg | ab0t_quota/reconcile.py:491-654 | the loop with its break and skips has exactly the effect, counts and budget use the laws are about |
| Reconcile.LibraryReconciler.RunOnce | ab0t_quota/reconcile.py:658-756 | skipped exactly when disabled, or on a ledger that is not durable unless forced; else over the orgs given, or those the ledger or the counters enumerate, in order, it has exactly the outcome the budget laws are about, stopping early only under backpressure |
| Enumerate.PrintedGaugeKey | ab0t_quota/reconcile.py:727-750 | of all printed keys the provider-mode scan takes exactly the org-level gauges of its own service or of none, and reads the right org |
| Enumerate.OneListing | ab0t_quota/reconcile.py:750-756 | the order of a pass is determined: two sorted listings of the same orgs are equal |
| Enumerate.OpenOrgsCoverOpen | ab0t_quota/reconcile.py:752-756 | an org is enumerated if and only if it has an OPEN row that spends something; none with anything OPEN on a gauge is missed |
| Enumerate.CounterOrgsIff | ab0t_quota/reconcile.py:727-751 | in provider mode exactly the orgs with an org total of one of the gauges are enumerated |
| Seed.SeedRedis | ab0t_quota/persistence.py:256-332 | every gauge with OPEN activations or a snapshot row is rebuilt once and, unless its org's listing is cut, ends at Σ OPEN; every other gauge is untouched |
| Seed.RebuiltIff | ab0t_quota/persistence.py:256-332 | a gauge of the engine is rebuilt if and only if an OPEN row spends it or a snapshot row of no or its own service names it; none with anything OPEN is missed |
| Seed.SeedIgnoresNumbers | ab0t_quota/persistence.py:236-250 | what a gauge is rebuilt to depends neither on the snapshot's numbers nor on what Redis held |
| Seed.SeedTwice | ab0t_quota/persistence.py:256-332 | seeding again changes no counter of an org whose listing is not cut |
| HandlerLedger.InMemoryLedgerStore.RecordAttempt | ab0t_quota/handler_ledger.py:329-361 | proceeds exactly for a row that is absent, failed, or whose lease has run out, and then writes the next attempt's claim |
| HandlerLedger.InMemoryLedgerStore.RecordOutcome | ab0t_quota/handler_ledger.py:363-377 | completes an existing row and clears its lease; without a row nothing is written |
| ClaimProtocol.NoGrantOverLiveLease | ab0t_quota/handler_ledger.py:499-545 | in every interleaving, as long as no lease asked for is longer than the row's TTL, when a worker is told to proceed every earlier grantee's lease has run out or was given up by a FAILED outcome |
| ClaimProtocol.LeasesNeverOverlap | ab0t_quota/handler_ledger.py:499-545 | with such leases and without FAILED outcomes no grant is ever made over a live lease |
| ClaimProtocol.LongLeaseIsLost | ab0t_quota/handler_ledger.py:437-545 | for every longer lease a run from the start in which the row expires and a second worker is granted over it |
| ClaimProtocol.SecondCompletionIsLate | ab0t_quota/auth_events.py:259-307 | while rows are kept and outcomes terminal, of two workers that were told to proceed and wrote an outcome, the one granted first wrote it after its lease had run out |
| ClaimProtocol.AtMostOneTimelyCompletion | ab0t_quota/auth_events.py:259-307 | so if every worker that proceeds finishes before its lease runs out, at most one of them completes the event, in every interleaving |
| ClaimProtocol.CrashedIsTakenOver | ab0t_quota/handler_ledger.py:499-545 | a worker that dies after its grant is taken over: once its lease has run out the next attempt is granted |
| ClaimProtocol.SlowWorkerCompletesTwice | ab0t_quota/auth_events.py:292-296 | for every lease a run from the start in which a worker outlives it and two workers complete the event |
| ClaimProtocol.OneGranteePerGeneration | ab0t_quota/handler_ledger.py:442-446 | each grant wrote a row of its own and each stored claim is taken over at most once |
| ClaimProtocol.GrantsRefineInMemory | ab0t_quota/handler_ledger.py:488-545 | every grant is one the lock-based store would make at that moment, with the same row and no longer lease |
| ClaimProtocol.TerminalIsFinal | ab0t_quota/handler_ledger.py:488-567 | while handlers record only terminal outcomes and the row has not expired, a terminal row is never granted again |
| ClaimProtocol.ReclaimRace | ab0t_quota/handler_ledger.py:823-826 | of two drainers over one stale row exactly one proceeds with compare-and-swap; with the unconditional put both do, over a live lease |
| AuthEvents.VerdictLaw | ab0t_quota/auth_events.py:258-310 | always terminal; the first run that returns decides: a success with the side effect it names, skipped if it skips, with its number; FAILED_PERMANENT with the number of attempts exactly when every run raised |
| AuthEvents.BackoffDoubles | ab0t_quota/auth_events.py:296-300 | the sleep starts at the initial delay and doubles, up to the longest |
| AuthEvents.BackoffBound | ab0t_quota/auth_events.py:292-296 | the sleeps after n failed runs add up to at most n times the maximum delay |
| AuthEvents.RunWithRetry | ab0t_quota/auth_events.py:259-307 | at most `attempts` runs, exactly one recorded outcome, total sleep at most (runs − 1) maximum delays |
| AuthEvents.Dispatch | ab0t_quota/auth_events.py:209-256 | a row that may not be claimed is not run and not touched; a claimed one ends with its outcome |
| AuthEvents.AtMostOneCompletion | ab0t_quota/auth_events.py:209-307 | over any redeliveries that each end before the next begins, and dying workers, at most one delivery runs the handler to an outcome, exactly one if the row ends terminal |
| AuthEvents.StrandedIsRecovered | ab0t_quota/handler_ledger.py:161-195 | a delivery after a dead worker's lease runs the handler to a terminal outcome |
| AuthEvents.DrainStale | ab0t_quota/handler_ledger.py:161-195 | the drain reclaims every listed row whose lease has run out, runs it by its own handler and retry policy, leaves every other row alone, and counts the former |
| AuthEvents.DrainedLaw | ab0t_quota/auth_events.py:313-355 | a stale row is claimed anew for a minute with one more attempt and, with its handler registered, ends as the verdict says; without one it is stale again after that minute |
| Keyspace.ParsePrinted | ab0t_quota/keyspace.py:141-190 | in both shapes a printed counter key parses back to version, service, org, resource and kind; every other family parses to nothing |
| Keyspace.V1RoundTripIff | ab0t_quota/keyspace.py:77-90 | the v1 gauge key round-trips if and only if its org has no colon and does not look like a version |
| Keyspace.VersionishIff | ab0t_quota/keyspace.py:14-44 | a name looks like a version exactly if it is a v, at least one digit, and no more than a newline |
| Keyspace.ResourceKeyIff | ab0t_quota/models/core.py:104-107 | a resource key is two words with one dot between |
| Keyspace.IdentifierIff | ab0t_quota/models/core.py:104-107 | a word starts with a lower-case letter and has only those, digits and underscores |
| Keyspace.ValidScopeIff | ab0t_quota/keyspace.py:25-44 | v2 carries exactly the names that are not empty, have no brace, slash or colon, and do not look like a version |
| Keyspace.PrintInjective | ab0t_quota/keyspace.py:77-125 | no two different names share a key, across families, shapes, services, orgs, users and idempotency keys |
| Keyspace.V1CanForgeV2 | ab0t_quota/keyspace.py:32-44 | an unguarded v1 org can print another service's v2 key |
| Keyspace.JoinSplit | ab0t_quota/keyspace.py:168-176 | splitting at colons and joining again loses nothing |
| Migration.TwinsStayEqual | ab0t_quota/keyspace_migration.py:33-44 | in every interleaving of dual writes and backfill steps each v2 twin is absent or equal to its v1 value |
| Migration.BackfillLeavesNoneAbsent | ab0t_quota/keyspace_migration.py:124-139 | an unbudgeted backfill leaves no counter it visits without its twin, whatever is written meanwhile; it cannot be done over one whose org v2 refuses |
| Migration.BackfilledCounter | ab0t_quota/keyspace_migration.py:124-139 | then every counter of a plain org has its twin, and v2 can carry the org of each that lacked one |
| Migration.PlainCounterScanned | ab0t_quota/keyspace_migration.py:47-122 | the v1 counter of a plain org is visited exactly if it is of a value family, and has a twin key exactly if v2 accepts the org |
| Migration.VisitedIff | ab0t_quota/keyspace_migration.py:47-119 | exactly which printed v1 counters are visited: of an org without a colon its value counters, unless it looks like a version; with one colon none; with more, those whose second part has a dot and whose third is a family of the scan |
| Migration.ColonOrgSkipped | ab0t_quota/keyspace_migration.py:47-55 | no value counter of an org with exactly one colon in it is ever visited |
| Migration.VersionOrgSkipped | ab0t_quota/keyspace_migration.py:47-55 | no key of an org that looks like a version is classified |
| Migration.ForgedCounterIsShared | ab0t_quota/keyspace.py:32-44 | two different v1 counters of two different orgs can be one key |
| Migration.StrayCounterVisited | ab0t_quota/keyspace_migration.py:47-119 | a counter of an org with more colons can be visited though no plain org has a counter of that key |
| Migration.TwinsApart | ab0t_quota/keyspace_migration.py:121-122 | two v1 keys never share a twin, and no twin is itself taken for a v1 counter |
| Migration.VerifyPassesIff | ab0t_quota/keyspace_migration.py:141-157 | at a quiet moment verify raises if and only if it visits a counter of an org v2 refuses, and passes if and only if it visits none and no visited counter lacks its twin |
| Migration.VerifiedCounter | ab0t_quota/keyspace_migration.py:141-157 | a passing verify means every counter of a plain org has its twin and an org v2 accepts |
| Migration.UnseenAndRefused | ab0t_quota/keyspace_migration.py:141-157 | witnesses: a counter of a colon org without a twin that verify passes over, and one of a refused org that makes it raise |
| Migration.SwitchWhileDual | ab0t_quota/keyspace.py:53-60 | switching the authoritative shape while dual changes a counter's reading exactly if v2 refuses its org and it has a v1 value |
| Migration.SwitchToV2Alone | ab0t_quota/keyspace.py:53-60 | dropping v1 changes a reading exactly when its twin is absent and it is not zero |
| Migration.UnwrittenReadsZero | ab0t_quota/keyspace.py:53-60 | a counter never written reads zero wherever its key can be built, and v1 alone reads v1 alone |
| Migration.SwitchAfterVerify | ab0t_quota/keyspace_migration.py:141-206 | after a passing verify, at any later moment and whatever was written since, no switch that is left changes a reading of a plain org's counter, nor does the reap |
| Migration.ClearingOneShapeClearsNothing | ab0t_quota/activations.py:683-692 | deleting only one shape of a twinned key changes no dual reading and breaks the twin |
| Migration.ResettingOneShapeDiverges | ab0t_quota/reconcile.py:440-454 | a v1-only reset leaves v2 readers off by the correction, and verify reports it exactly when it is out of tolerance |
| Migration.TwinOfPrinted | ab0t_quota/keyspace_migration.py:47-122 | the migrator sends the v1 key of a counter to the v2 key of the same counter, or refuses its org |
| Migration.OnlyV1CountersClassified | ab0t_quota/keyspace_migration.py:47-55 | no v2 key and no reconciler marker is taken for a v1 counter |
| Migration.BackfilledFamilies | ab0t_quota/keyspace_migration.py:24-28 | exactly the gauge, user, generation and accumulator keys are backfilled |
| Migration.ReapedFamilies | ab0t_quota/keyspace_migration.py:24-28 | of the v1 keys of a plain org's resource the reap finds exactly the gauge, acc, rate, idem and idemgen families |
| Migration.PrintedIsReaped | ab0t_quota/keyspace_migration.py:24-28 | so every key the library prints there is reaped |
| Migrator.MarkerOnlyAdvances | ab0t_quota/keyspace_migration.py:97-206 | over every verb sequence with restarts the phase and high-water mark only advance and the dual window's start is fixed |
| Migrator.DualSinceFirst | ab0t_quota/keyspace_migration.py:97-109 | over every run the dual window of the marker opened at the time of the first dual-on, the one that found no marker |
| Migrator.FlipGate | ab0t_quota/keyspace_migration.py:159-182 | when a flip is recorded, 86400 seconds and the longest rate window have passed since the first dual-on of the run, and verify passed in that process with nothing unsetting it since |
| Migrator.FlipGranted | ab0t_quota/keyspace_migration.py:159-182 | and the other way: with both waited out since the first dual-on and verify passed in that process, the flip is recorded |
| Migrator.KeyspaceMigrator.RecordDual | ab0t_quota/keyspace_migration.py:97-109 | without a marker writes a dual one that opens now; a marker in the dual or flipped phase stays, and a final one is refused |
| Migrator.DeletesComeLast | ab0t_quota/keyspace_migration.py:184-206 | before any v1 key is deleted: flip recorded, verify passed in that process, operator confirmed, v2-final written by it, and no restart since |
| Migrator.MoveCompletes | ab0t_quota/keyspace_migration.py:97-206 | the verbs in their order, with the waits, get as far as deleting |
| Migrator.AfterReap | ab0t_quota/keyspace_migration.py:259-303 | once anything was deleted every v1 or dual boot and every dual-on is refused, and v2-only boots are accepted |
| Migrator.BeforeReap | ab0t_quota/keyspace_migration.py:259-303 | until then v1 and dual engines boot, and a v2-only engine boots if and only if no v1 counter exists |
| Migrator.KeyspaceMigrator.Backfill | ab0t_quota/keyspace_migration.py:124-139 | seeds only missing twins of visited counters with their v1 value, no more than the budget; without one it raises if and only if it visits a counter of an org v2 refuses, and else seeds all of them |
| Migrator.KeyspaceMigrator.VerifyAll | ab0t_quota/keyspace_migration.py:141-157 | names exactly the visited counters that disagree and opens the gates exactly when there are none; a verify that raises leaves the gates as they were |
| Migrator.KeyspaceMigrator.RecordFlip | ab0t_quota/keyspace_migration.py:159-182 | the flip is recorded exactly when its gate is open; a refusal changes nothing |
| Migrator.KeyspaceMigrator.Reap | ab0t_quota/keyspace_migration.py:184-206 | deletes every v1 key that can be classified, latches and rates with them, no other and no v2 key, only with the final marker already written |
| Migrator.ReapKeepsReadings | ab0t_quota/keyspace_migration.py:184-206 | a v2-only reading survives the reap; it equals the dual reading exactly when the twin is there or the value is zero |
| Tiers.ServedIsLastFetched | ab0t_quota/providers.py:166-217 | over every trace, for orgs none of which is named like another's record, the tier served is the last one successfully fetched, the default only if none was, with the exact exception of an empty tier |
| Tiers.AskedAfterInvalidate | ab0t_quota/providers.py:166-248 | in every state: right after an invalidation or expiry the service is asked, its answer served and kept, and the last-known-good record served if it fails |
| Tiers.InvalidatedIsAsked | ab0t_quota/providers.py:239-248 | over every run, the next look-up of an invalidated org asks the service, and its record is as it was |
| Tiers.CachedUntilInvalidated | ab0t_quota/providers.py:166-174 | over every run, a fetched tier that is not empty is served whatever the service would answer until its entry is invalidated or expires |
| Tiers.OthersUntouched | ab0t_quota/providers.py:166-248 | no event touches entry, record or streak of another org not named like a record |
| Tiers.KeysCollideIff | ab0t_quota/providers.py:104-108 | a cache key is another org's record key exactly if the org is named with the record's prefix |
| Tiers.PrefixedOrgReadsRecord | ab0t_quota/providers.py:166-174 | such an org is served the other org's raw record |
| Tiers.StreakCounts | ab0t_quota/providers.py:148-164 | over every trace the streak of an org is the number of its failed fetches since the last successful one; answers from the cache do not count |
| Tiers.AuthServiceTierProvider.GetTier | ab0t_quota/providers.py:166-208 | the call serves and records what the trace law is about |
| Tiers.AuthServiceTierProvider.InvalidateTier | ab0t_quota/providers.py:239-248 | drops the cache entry and keeps the last-known-good record |
| Alerts.AlertsAreSpaced | ab0t_quota/alerts.py:397-429 | no alert storm: over any run two alerts of one channel are a cooldown apart unless an all-clear came between |
| Alerts.AlertedAgain | ab0t_quota/alerts.py:482-527 | and it is not put off for good: a drift a cooldown later is alerted again |
| Alerts.AllClearIff | ab0t_quota/alerts.py:529-565 | an all-clear is sent if and only if a detection within the marker's life has not been cleared since, whatever the cooldowns say |
| Alerts.SustainedMeans | ab0t_quota/alerts.py:385-429 | a sustained alert is sent only after that many heals without the gauge being found in sync |
| Alerts.DriftSentIff | ab0t_quota/alerts.py:385-527 | in any run a drift detection sends a sustained alert if and only if it is at least the threshold-th in a row, each within an hour or eight cooldowns, and none was sent within the cooldown and not cleared; and a drift alert if and only if no detection alert was |
| Alerts.DivergenceSwallowed | ab0t_quota/alerts.py:567-598 | right after a missing observation or a drift alert the divergence alert goes unsent, and its all-clear is sent |
| Alerts.DivergenceSentIff | ab0t_quota/alerts.py:567-598 | in any run a divergence alert is sent if and only if no alert of drift, divergence or missing observations was sent within the cooldown and not followed by an all-clear |
| Alerts.MissingSentIff | ab0t_quota/alerts.py:622-640 | so is an alert of a missing observation, which leaves no marker and breaks no streak |
| Alerts.DriftAlertManager.DriftDetected | ab0t_quota/alerts.py:482-527 | the call has the effect on markers, streak, cooldowns and alerts that the trace results are about |
| Alerts.DriftAlertManager.DriftResolved | ab0t_quota/alerts.py:529-565 | answers true exactly when it sent an all-clear |

## Left out

- Rounding and printing of floating-point numbers: levels are reals, a delta's text is the number itself.
- Bundles that name rate or accumulator resources, which acquire passes over, or unregistered ones.
- Rate windows and accumulator period rollover; accumulators appear only as key family and as migrated values.
- The legacy `increment` and `decrement` calls, which count past the ledger by design.
- The DynamoDB stores, except for the handler ledger's unconditional reclaim.
- Aliasing: `InMemoryActivationStore` and `InMemoryLedgerStore` hand out their row objects; the model's rows are values.
- A key scan that fails midway or misses keys: the repair loops are modelled with a scan that visits every key.
- TTLs of value keys; the expiry of closed activation rows after 14 days, beyond `ClosedRowExpires`; the 5000-target cut of `open_gauge_targets`; a registry that changes between acquire and release.
- Caller idempotency keys that begin with `release:`, which share the release latches' namespace.
- Decimal parsing of a settlement cost: `QuotaEngine.Settle` gets its verdict.
- The provider, the tier service, clocks, the guard's marker, the verdict on the ledger's durability, and business handlers are parameters.
- The background loops, health and kill switches around the reconciler and the sweeper.
- `HandlerContext.mark_done`, the credit grant and `compose_credit_dedup_key`; deletion of a user's handler rows.
- The TTL map of `caches.py`; in `alerts.py` the metrics, the limit alerts and the per-org channels.
- The status and user indexes of the handler ledger: a drain is given the rows it lists.
- FastAPI wiring, HTTP, preflight, configuration, messages, the severity of a warning, CLI and SDK.
- LedgerMachine.NeverOverAdmits: over calm runs; and it assumes every bundle naming the gauge is checked against the limit, so on that gauge neither a shadow retry nor disabled enforcement, which spend without limits by design.
- SeedRedis: the restore of accumulators from their snapshot and the mode without an activation store.
