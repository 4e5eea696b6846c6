# CXL Fabric in Dafny

A model of CXL Fabric's governance engine, its byte formats and its coordinator, with proofs about whole runs.

CXL Fabric governs memory that is pooled over CXL. The `Fabric` engine keeps registries of devices, regions, pools and
reservations and a cached global capacity line, and every public method runs under one lock, so any concurrent execution
is a sequence of atomic calls. A coordinator process drives the engine for worker processes over a framed protocol, and
saves the durable part of the state to a checksummed file.

How the files follow the program:

| file | content |
|---|---|
| `base.dfy` | fixed-width integers, byte strings, the order of map keys, sums over maps, decimal printing |
| `crc.dfy`, `crcvalues.dfy`, `wire.dfy` | CRC-32, its published values, and the frame protocol |
| `streams.dfy`, `persistence.dfy`, `statefile.dfy`, `statefileio.dfy`, `codec.dfy` | writers, the bounds-checked reader, the state file, the control payloads |
| `records.dfy`, `selection.dfy`, `placement.dfy`, `enumeration.dfy` | records and state tables, evaluation, ranking, selection, failover, and the order candidates come in |
| `spec.dfy`, `fabric.dfy` | the engine as functions on one state value, and as a class whose methods update fields in place |
| `shapes.dfy`, `accounting.dfy`, `regionbooks.dfy`, `runs.dfy`, `splits.dfy` | the accounting invariant, one call at a time and over every run; the regions' half on its own; the split between reserved and committed |
| `capacity.dfy`, `audits.dfy`, `regimes.dfy`, `guarantees.dfy` | member sums, the global line, the audit, capacity bounds, and what callers can rely on |
| `fencing.dfy`, `closing.dfy`, `lifetimes.dfy`, `membership.dfy` | generations, drained and imported targets, reservation ids, pool membership |
| `admission.dfy`, `verdicts.dfy`, `lifecycle.dfy` | what each call answers and exactly when, and which calls leave the state tables |
| `lines.dfy` | the stand-alone capacity line |
| `coordination.dfy`, `coordinator.dfy`, `restart.dfy` | worker sessions over the engine, and stopping and starting through the file |
| `scenarios.dfy`, `cases.dfy`, `escapes.dfy` | concrete runs from a new engine or coordinator in which plausible properties fail |

Conventions. Unsigned 64-bit arithmetic is unbounded `int` within a subset type, with `WrapAdd` and `WrapSub` wherever
the program can wrap. `Spec` has one function per operation; each method of the class `Fabric` is proved equal to its
function, loops included, and the theorems are about the functions. `Run(s, ops)` applies any sequence of public calls.
Calls that the engine itself refuses are part of every run. A *sensible* run adds what a caller can check beforehand:
replaced region records keep their owner and counters, counters given at creation or import add up within 64 bits,
imported records are filed under their own ids, and a sequence number is left for the next reservation. An *admissible*
run adds that the pool a selection settles on can count the bytes of the grant (`GrantAdds`: reserved + committed +
bytes within 64 bits). The regions' counters keep their meaning in every run that is sensible about regions, however
often the pools' counters wrap (`RegionRun`); for the pools the last condition is exact (`RunBalancedIff`). Counters a
pool or region is created or imported with are carried as its *opening*, so runs are not restricted to zero counters.
Only the theorems about capacity totals need a `Regime`, which keeps the sum of a pool's members in range: below 2^63 if
members may be removed, within 64 bits if none is.

Five findings are stated with their exact condition and a concrete run:

- One accepted grant can be more than its pool can count, once members have been removed and added again
  (`ReserveBalancedIff`, `RunBalancedIff`; the run is `UncountableGrant`).
- Greedy release takes committed bytes for a reservation that never committed (`SplitKeptIff` for one release,
  `SplitKeptInRunIff` for every run; the run is `GreedyReleaseBreaksSplit`).
- Reserve can refuse although a fitting candidate exists (`ReserveSucceedsIff`, `FittingCandidateRefused`).
- A worker that shares its boot id can be lost without its devices being fenced. A registered worker stays registered,
  and its loss fences what it published, exactly until one of three things happens under its id (`RegisteredIff`,
  `LossFencesIff`): another worker boots (the run is `ReusedBootEscapes`); another worker is lost, which marks dead
  whoever is filed (`LossHitsSuccessor`, `MarkedWorkerEscapes`); or another worker's entry is erased, which erases
  whoever is filed (`ErasureHitsSuccessor`, `OrphanedWorkerEscapes`). After that nothing registers it again
  (`DisturbedEscapes`). Every worker started without a boot id of its own carries the same default,
  src/multiprocess/worker_main.cpp:37.
- The state tables are documented as checked on every transition, but a device registered again at the generation on
  record takes any state, so that even a retired one comes back (`OffTableIff`, `RetiredForGood`; the run is
  `RetiredDeviceReturns`). Replaced and reconfigured regions are not checked either (`RegionOffTableIff`).

Four more concern single calls: the getters' bounds test wraps when more bytes are requested than the buffer holds
(`GuardExactIff`, `GuardWraps`), `fence_drain` may drain bytes in use (`CallKeepsAccountedIff`, `DrainBreaksAudit`),
a release that reports a conflict may already have taken committed bytes (`FailureChangesIff`,
`RefusedReleaseTakesBytes`), and a capacity line's commit that overflows has given up the reserved bytes
(`RefusedLineCallIff`).

Where the comments in the program say more than the code does, the model follows the code: `serialize_state` does not
check the string and list bounds that the reader enforces, release checks neither generations nor boot id, and region
counters are not written to the file.

## Model

| member | source | states |
|---|---|---|
| `Runs.AccountingFromZero` | src/core/fabric.cpp:428-568 | from zero counters, in every run sensible about regions each region's reserved + committed equals the bytes of its live reservations and a pool's regions hold no more committed than its COMMITTED bytes; in every admissible run the same holds of pools, and pool.committed <= its regions' committed |
| `RegionBooks.RegionRun` | src/core/fabric.cpp:138-700 | in every run sensible about regions, uncountable grants and conflict exits included, records stay linked and each region's counters account for its opening and its live reservations |
| `Runs.Step` | src/core/fabric.cpp:138-700 | every single call keeps the books balanced against the opening counters; a reserve needs only that its grant can be counted |
| `Runs.ReserveBalancedIff` | src/core/fabric.cpp:428-484 | a reserve keeps the books balanced exactly when the pool it would be granted from can count the bytes |
| `Runs.RunBalancedIff` | src/core/fabric.cpp:138-700 | over any run the books balance all the way exactly when every grant could be counted |
| `Cases.UncountableGrant` | src/core/fabric.cpp:457-463 | a run from zero counters in which a grant wraps the pool's counters, so that a live reservation cannot be released |
| `Runs.RunFromStart` | src/core/fabric.cpp:44-734 | after every admissible run of a new engine the books balance and the cached line is fresh |
| `Runs.CommitNeverOvercommits` | src/core/fabric.cpp:486-522 | commit succeeds exactly when the reservation is current; CAPACITY_OVERCOMMIT is unreachable |
| `RegionBooks.CommitMovesExactly` | src/core/fabric.cpp:512-517 | the unguarded region subtraction of a commit never underflows, whatever the pools' counters hold |
| `Runs.LiveAlwaysReleasable` | src/core/fabric.cpp:524-568 | every live reservation can be released under the current epoch, RESERVATION_CONFLICT is unreachable, and pool and region give back exactly its bytes |
| `Runs.FailureChangesNothing` | src/core/fabric.cpp:138-700 | while the books balance, a call that reports failure leaves the whole state unchanged |
| `Runs.FailureChangesIff` | src/core/fabric.cpp:539-568 | in any state a call that reports failure changes something exactly when it is a release that falls short after taking committed bytes |
| `Cases.RefusedReleaseTakesBytes` | src/core/fabric.cpp:539-553 | a run from a new engine after which a release is refused and the pool's committed bytes are gone |
| `Guarantees.ReserveCommitRelease` | src/core/fabric.cpp:428-568 | whatever is granted can be committed and then released, and leaves its pool and region with the bytes in use they had before |
| `Runs.CacheStep` | src/core/fabric.cpp:89-114 | after every call that does not conflict having taken bytes, the cached line is what recomputation would give, also after the calls that do not refresh it |
| `Runs.CacheRun` | src/core/fabric.cpp:89-114 | the same over every run |
| `Books.ReservedCovered` | src/core/fabric.cpp:512-515 | a RESERVED reservation is covered by its pool's and region's reserved bytes in spite of greedy releases |
| `Books.ReleaseBalanced` | src/core/fabric.cpp:539-564 | greedy release keeps all three levels of accounting in step |
| `Books.BookBalanced` | src/core/fabric.cpp:457-481 | a grant that its pool can count keeps the books balanced |
| `Books.BookBalancedIff` | src/core/fabric.cpp:457-481 | and exactly such a grant does |
| `Books.CommitBalanced` | src/core/fabric.cpp:509-519 | a commit keeps the books balanced |
| `Books.ReservationIdInjective` | src/core/fabric.cpp:466-467 | different sequence numbers give different reservation ids |
| `Guarantees.WithinTotals` | src/core/fabric.cpp:702-734 | without removals and with sums in 64 bits, unavailable + reserved + committed + draining <= governed total in every run and audit reports ok |
| `Regimes.RunInRegime` | src/core/fabric.cpp:31-40 | while member sums stay in range every grant can be counted and no used sum wraps |
| `Guarantees.LedgerAgrees` | src/core/fabric.cpp:89-114 | in every run without such a conflict, while no global sum overflows, the cached line is, field by field, the sum over all pools and the line audit recomputes |
| `Guarantees.GrantsFit` | src/core/fabric.cpp:31-40 | a grant fits pool and region in exact arithmetic; an over-used pool grants nothing |
| `Guarantees.ReserveSucceedsIff` | src/core/fabric.cpp:428-484 | reserve succeeds exactly when selection does and the chosen candidate's pool has the bytes |
| `Cases.FittingCandidateRefused` | src/core/fabric.cpp:457-461 | a run after which a candidate fits its region and its pool and reserve still refuses |
| `Splits.SplitKeptIff` | src/core/fabric.cpp:539-553 | release keeps pool.committed equal to the COMMITTED bytes exactly when the reservation was committed, empty, or nothing was committed |
| `Splits.SplitKeptInRunIff` | src/core/fabric.cpp:138-700 | over an admissible run every pool's committed counter stays exact all the way exactly when no release takes a non-empty RESERVED reservation from a pool with committed bytes |
| `Cases.GreedyReleaseBreaksSplit` | src/core/fabric.cpp:539-553 | the run: A committed 4, B reserved 4, and releasing B leaves committed 0 and reserved 4 |
| `Guarantees.ExportedBytesStay` | src/core/fabric.cpp:652-675 | bytes in use at export stay counted in every later state: against the imported regions in every sensible run, against the imported pools in every admissible one |
| `Capacity.TotalsExact` | src/core/fabric.cpp:116-136 | while the true sum fits, recomputation skips no member |
| `Capacity.GlobalLineIsSum` | src/core/fabric.cpp:89-114 | both accumulation loops give the sums over all pools while these fit |
| `Capacity.AuditReportsOk` | src/core/fabric.cpp:702-734 | audit reports ok when every pool is within its total and the grand total fits |
| `Audits.AuditOkIff` | src/core/fabric.cpp:702-734 | audit reports ok exactly when no pool in service uses more than it governs and the added-up line does not either, used sums taken modulo 2^64 |
| `Audits.AuditReportsLine` | src/core/fabric.cpp:702-734 | the reported line adds up each field over the pools in id order, leaving out what would overflow |
| `Audits.GreedyIsSum` | src/core/fabric.cpp:702-734 | while a field's true sum fits, nothing of it is left out |
| `Audits.AddPoolFields` | src/core/fabric.cpp:89-114 | the cached line takes a pool's field exactly when it and every field before it fit |
| `Audits.MemberAdds` | src/core/fabric.cpp:116-136 | a further member counts exactly when it is online and fits, and among the unavailable when it is not healthy |
| `Fencing.RunLater` | src/core/fabric.cpp:138-700 | over any run without an import records stay, generations never drop, and each reservation only moves RESERVED to COMMITTED to RELEASED with its grant fixed |
| `Fencing.StaleForever` | src/core/fabric.cpp:509-511 | a reservation once stale is never committed in any later state |
| `Fencing.SupersededNeverCommits` | src/core/fabric.cpp:248-288 | after a membership change, reconfiguration or newer device or region generation no earlier reservation on it is ever committed |
| `Fencing.MembershipFencesIff` | src/core/fabric.cpp:264-266 | a membership change fences a committable reservation exactly when a next generation exists |
| `Fencing.RunDated` | src/core/fabric.cpp:466-481 | in every run reservations name registered records at their current or an earlier generation |
| `Closing.ClosedGainsNone` | src/core/fabric.cpp:348-380 | a pool, region or device closed to admission gains no reservation over any run, imports included, until it is reopened |
| `Closing.ClosedNeverGranted` | src/core/fabric.cpp:428-461 | no grant names a closed target |
| `Closing.NothingLandsAfterImport` | src/core/fabric.cpp:652-700 | after import nothing lands on a pool, region or device until that one is revalidated, marked online or registered again |
| `Closing.DrainedPoolOnlyEmpties` | src/core/fabric.cpp:325-335 | from a pool's drain to its revalidation or an import its reserved + committed bytes never exceed those at the drain, wrapped counters included |
| `Closing.DrainedRegionOnlyEmpties` | src/core/fabric.cpp:314-323 | the same for a region in every run sensible about regions |
| `Lifetimes.CommittedOnce` | src/core/fabric.cpp:486-522 | an id is committed at most once in any run, across imports |
| `Lifetimes.ReleasedOnce` | src/core/fabric.cpp:524-568 | a released id is neither released nor committed again |
| `Lifetimes.ImportKillsIds` | src/core/fabric.cpp:652-675 | ids issued before an import fail commit and release in every later state |
| `Lifetimes.RunNumbered` | src/core/fabric.cpp:466-481 | in every state each reservation is filed under res-k with k within the sequence |
| `Membership.RunExclusive` | src/core/fabric.cpp:222-288 | in every reachable state each device is in at most one pool and at most once in it |
| `Membership.GovernedOnce` | src/core/fabric.cpp:116-136 | the global governed total is a sum over devices, each counted once with its one membership's bytes |
| `Membership.GovernedOnceInRuns` | src/core/fabric.cpp:222-288 | the same for every run of a new engine within a regime |
| `Admission.CreateRegionIff` | src/core/fabric.cpp:169-187 | the exact condition under which a region is created |
| `Verdicts.CreateRegionReasons` | src/core/fabric.cpp:169-187 | every refusal of create_region by its condition; the first bad member decides |
| `Admission.CreatePoolIff` | src/core/fabric.cpp:222-246 | the exact condition under which a pool is created |
| `Verdicts.CreatePoolReasons` | src/core/fabric.cpp:222-246 | every refusal of create_pool by its condition; the first bad member decides |
| `Verdicts.RegisterDeviceIff` | src/core/fabric.cpp:138-167 | the exact condition of acceptance and of each of the four refusals |
| `Verdicts.NewerGeneration` | src/core/fabric.cpp:159-166 | a newer generation in the same state is always taken, and never brings a retired device back |
| `Verdicts.MarkDeviceIff` | src/core/fabric.cpp:290-313 | marking a device online or in need of revalidation: the condition of each answer |
| `Verdicts.UpdateRegionIff` | src/core/fabric.cpp:189-199 | the condition of each answer |
| `Verdicts.ReconfigureRegionIff` | src/core/fabric.cpp:201-220 | the condition of each answer; the generation goes up by one and the evidence is withdrawn |
| `Verdicts.GenerationSteps` | include/cxl_fabric/core/identity.hpp:60-72 | generations count up by one and stop two below 2^64 |
| `Verdicts.AddMemberIff` | src/core/fabric.cpp:248-270 | the condition of each answer |
| `Verdicts.RemoveMemberIff` | src/core/fabric.cpp:272-288 | the condition of each answer |
| `Verdicts.WithoutExact` | src/core/fabric.cpp:280-282 | the first membership of the device goes, the others stay in order |
| `Verdicts.DrainRegionIff` | src/core/fabric.cpp:314-323 | the condition of each answer |
| `Verdicts.DrainPoolIff` | src/core/fabric.cpp:325-335 | the condition of each answer |
| `Verdicts.ReconcilePoolIff` | src/core/fabric.cpp:337-346 | the condition of each answer |
| `Verdicts.RevalidatePoolIff` | src/core/fabric.cpp:677-689 | revalidation opens a pool from every state but failed and retired |
| `Verdicts.RevalidateRegionIff` | src/core/fabric.cpp:690-700 | revalidation opens a region from every state but failed, retired and not yet validated |
| `Verdicts.ReopensAfterImport` | src/core/fabric.cpp:652-700 | after any import, revalidating a pool and one of its regions and marking a member online makes it a candidate again |
| `Verdicts.ImportExact` | src/core/fabric.cpp:652-675 | what an import makes of each record, and that nothing else but policy, reservations and the line changes |
| `Verdicts.CommitReasons` | src/core/fabric.cpp:486-522 | every refusal of commit by its condition |
| `Verdicts.ReleaseReasons` | src/core/fabric.cpp:524-568 | release conflicts exactly when the bytes exceed what the pool has reserved and committed |
| `Verdicts.ReserveReasons` | src/core/fabric.cpp:428-484 | every refusal of reserve by its condition |
| `Verdicts.FreeIff` | src/core/fabric.cpp:31-40 | a request fits exactly when the used sum modulo 2^64 leaves room for it |
| `Verdicts.SettingsExact` | src/core/fabric.cpp:50-73 | each setting changes its own field; evidence counts up by one |
| `Verdicts.OldEpochIsFenced` | src/core/fabric.cpp:50-53 | once the epoch is set to another value, every call under the old one is refused and changes nothing |
| `Lifecycle.DeviceTableIff` | include/cxl_fabric/core/lifecycle.hpp:11-27 | the device table read by target: from which states each state can be entered |
| `Lifecycle.RegionTableIff` | include/cxl_fabric/core/lifecycle.hpp:29-44 | the region table read by target |
| `Lifecycle.PoolTableIff` | include/cxl_fabric/core/lifecycle.hpp:46-58 | the pool table read by target |
| `Lifecycle.NoWayBack` | include/cxl_fabric/core/lifecycle.hpp:11-27 | along the table nothing leaves Retired, and nothing failed or removed serves again |
| `Lifecycle.OffTableIff` | src/core/fabric.cpp:151-166 | between imports a device's state leaves the table exactly by a registration at the generation on record |
| `Lifecycle.RetiredForGood` | src/core/fabric.cpp:138-167 | a retired device stays retired over every run that neither imports it nor registers it again at its generation |
| `Lifecycle.RegionOffTableIff` | src/core/fabric.cpp:189-220 | a region's state leaves the table exactly by replacement or reconfiguration |
| `Lifecycle.PoolOnTable` | src/core/fabric.cpp:222-346 | no pool call takes a pool's state off the table |
| `Cases.RetiredDeviceReturns` | src/core/fabric.cpp:151-157 | a run from a new engine in which a retired device is online again |
| `Admission.DomainsExact` | src/core/fabric.cpp:116-136 | the recomputed failure domains are those of the online members, each once |
| `Admission.DomainsInOrder` | src/core/fabric.cpp:116-136 | and in the order in which they first occur |
| `Admission.AuditNamesOverused` | src/core/fabric.cpp:702-734 | audit names exactly the pools in service whose counters exceed their total |
| `Admission.OverusedAscends` | src/core/fabric.cpp:702-734 | and lists them in the order of ids, each once |
| `Evaluation.SelectedExactlyWhenPassing` | include/cxl_fabric/core/selection.hpp:78-257 | evaluation selects a candidate exactly when it meets every hard constraint, locality by ordinals, whatever the order of the checks |
| `Evaluation.RefusedByFirst` | include/cxl_fabric/core/selection.hpp:78-257 | the reason given is that of the first constraint not met, in the documented order |
| `Ranking.BetterIsStrictWeak` | src/core/fabric.cpp:382-396 | the five-key comparator is a strict weak order |
| `Ranking.NotBeatenIff` | src/core/fabric.cpp:382-396 | one candidate does not beat another exactly when the other is no worse by nearness, latency, bandwidth, free bytes and name, in this order |
| `Order.LexLessIff` | src/core/fabric.cpp:394-395 | names compare by the first byte that differs, a prefix coming first |
| `StableSorting.SortOrders` | src/core/fabric.cpp:381-396 | the stable sort permutes and orders its input |
| `StableSorting.SortFront` | src/core/fabric.cpp:381-398 | its front is the earliest of the best elements |
| `Placement.CandidatesIff` | src/core/fabric.cpp:348-380 | enumeration yields exactly the candidates whose pool, region and device are all in play |
| `Enumeration.CandidatesInOrder` | src/core/fabric.cpp:348-380 | enumeration lists every usable place once, by pool id, then region id, then position, for placement and for failover |
| `Enumeration.DrawnIff` | src/core/fabric.cpp:348-380 | a candidate is in play exactly when its pool, region and device are current, online and belong together |
| `Placement.SelectSucceedsIff` | src/core/fabric.cpp:348-420 | selection succeeds exactly when some such candidate meets every hard constraint |
| `Placement.SelectionSound` | src/core/fabric.cpp:348-420 | the choice is drawn from the snapshot and meets every hard constraint |
| `Placement.SelectionOptimal` | src/core/fabric.cpp:381-399 | no passing candidate ranks above the choice; ties go to the earliest in the order of enumeration |
| `Placement.SelectionByKeys` | src/core/fabric.cpp:381-399 | no passing candidate is nearer, or as near and faster, or then wider, or then roomier, or then earlier by name |
| `Placement.SelectionReportsChosen` | src/core/fabric.cpp:397-407 | the reported result is the evaluation of the chosen candidate |
| `Enumeration.ResultDescribesChoice` | src/core/fabric.cpp:397-407 | the reported result describes the chosen place as the snapshot has it |
| `Placement.RefusalIsExplained` | src/core/fabric.cpp:408-420 | a refused selection carries a reason other than OK |
| `Enumeration.SelectionReports` | src/core/fabric.cpp:348-420 | every usable place is evaluated in order; a refused selection repeats the first evaluation, or says CAPACITY_INSUFFICIENT if there is none |
| `Placement.BuildSelection` | src/core/fabric.cpp:348-420 | the loops compute the specified selection |
| `Placement.FailoverExact` | src/core/fabric.cpp:570-628 | FAILOVER iff some replacement lies outside the domain the failed device is recorded in, DEGRADED iff there are replacements and all lie inside it, REJECT iff there is none |
| `Placement.FailedDomainIs` | src/core/fabric.cpp:577-580 | the failed device's domain is that of the last membership that names it, in the order of pool ids |
| `Placement.RecordedOnce` | src/core/fabric.cpp:577-580 | with a single membership it is that one's |
| `Placement.RecordedNowhere` | src/core/fabric.cpp:577-580 | with none it is empty, and any replacement is a FAILOVER |
| `Placement.ReplacementIsElsewhere` | src/core/fabric.cpp:570-628 | the replacement is never the failed device, and its notes name the failed domain exactly when the plan is degraded |
| `Enumeration.FirstReplacement` | src/core/fabric.cpp:586-624 | the replacement is at the first place, in the order of ids, that can take over in the way the plan says |
| `Placement.FailoverImpliesSelectable` | src/core/fabric.cpp:570-628 | a plan other than REJECT implies that selection succeeds on the same state and request |
| `Placement.PlanFailover` | src/core/fabric.cpp:570-628 | the loops compute the specified plan |
| `FabricEngine.RecomputePool` | src/core/fabric.cpp:116-136 | the loop computes the specified totals and domains |
| `FabricEngine.AuditPools` | src/core/fabric.cpp:702-734 | the loop computes the specified line and list |
| `FabricEngine.Fabric.RecomputeGlobal` | src/core/fabric.cpp:89-114 | the cached line becomes the recomputed one |
| `FabricEngine.Fabric.RegisterDevice` | src/core/fabric.cpp:138-167 | new state and reason are those of the specification |
| `FabricEngine.Fabric.CreateRegion` | src/core/fabric.cpp:169-187 | new state and reason are those of the specification |
| `FabricEngine.Fabric.CreatePool` | src/core/fabric.cpp:222-246 | new state and reason are those of the specification |
| `FabricEngine.Fabric.AddPoolMember` | src/core/fabric.cpp:248-270 | new state and reason are those of the specification |
| `FabricEngine.Fabric.RemovePoolMember` | src/core/fabric.cpp:272-288 | new state and reason are those of the specification |
| `FabricEngine.Fabric.Reserve` | src/core/fabric.cpp:428-484 | new state and outcome are those of the specification |
| `FabricEngine.Fabric.Commit` | src/core/fabric.cpp:486-522 | new state and outcome are those of the specification |
| `FabricEngine.Fabric.Release` | src/core/fabric.cpp:524-568 | new state and outcome are those of the specification, the partial debit of the conflict exit included |
| `FabricEngine.Fabric.ImportPersisted` | src/core/fabric.cpp:652-675 | structure replaced, reservations dropped, every claim to current evidence withdrawn |
| `CapacityLines.CallKeepsAccountedIff` | include/cxl_fabric/core/accounting.hpp:58-96 | a call keeps free + used == online exactly when it is not a drain of more than the free bytes and at most the free, reserved and committed ones; a refused call changes nothing |
| `CapacityLines.TakeExact` | include/cxl_fabric/core/accounting.hpp:58-63 | a reserve succeeds exactly when the bytes are free, and moves them to reserved |
| `CapacityLines.SettleExact` | include/cxl_fabric/core/accounting.hpp:64-71 | a commit succeeds exactly when the bytes are reserved, and moves them to committed |
| `CapacityLines.ReturnExact` | include/cxl_fabric/core/accounting.hpp:72-91 | a release succeeds exactly when the bytes are in use, and takes committed ones first |
| `CapacityLines.RefusedLineCallIff` | include/cxl_fabric/core/accounting.hpp:58-96 | on any line a refused call changes it exactly when a commit overflows |
| `CapacityLines.AuditMeansAccountedIff` | include/cxl_fabric/core/accounting.hpp:43-56 | audit vouches for the invariant exactly when the used sum did not wrap |
| `CapacityLines.DrainBreaksAudit` | include/cxl_fabric/core/accounting.hpp:92-96 | a concrete drain that is accepted and fails the audit |
| `CapacityLines.LineStaysAccounted` | include/cxl_fabric/core/accounting.hpp:35-97 | a line stays accounted over a run exactly when no drain takes bytes in use |
| `Crc.ComputeCrc32` | src/core/protocol.cpp:36-52 | the table-driven loop equals the bit-serial CRC of section 8 of RFC 1952 on every byte sequence |
| `CrcValues.GeneratorBits` | src/core/protocol.cpp:36-47 | the generator is the polynomial of section 8 of RFC 1952, bit by bit |
| `CrcValues.CheckValue` | src/core/protocol.cpp:36-52 | the CRC of 123456789 is 0xCBF43926, which pins the initial and final values too |
| `Crc.TableStepRefinesBits` | src/core/protocol.cpp:36-52 | one table lookup is eight shifts, by linearity over xor |
| `Crc.CrcDetectsByteChange` | src/core/protocol.cpp:36-52 | changing any one byte of any message changes its CRC |
| `Frames.EncodeFrame` | src/core/protocol.cpp:54-70 | the header writes produce the specified bytes, the oversized case included |
| `Frames.OversizedIsEmptied` | src/core/protocol.cpp:54-59 | an oversized frame goes out as a header that announces nothing |
| `Frames.DecodeFrame` | src/core/protocol.cpp:72-98 | the decoder gives the specified verdict and frame |
| `Frames.HeaderVerdicts` | src/core/protocol.cpp:72-85 | the verdict on a header by its bytes: CXLF, version 1, types 1 to 23, at most 65536 bytes |
| `Frames.PayloadVerdicts` | src/core/protocol.cpp:72-98 | truncated, bad checksum, trailing bytes or accepted: the condition of each |
| `Frames.EncodingIsAccepted` | src/core/protocol.cpp:54-98 | every sendable frame decodes to itself |
| `Frames.AcceptedIsEncoding` | src/core/protocol.cpp:72-98 | any bytes that decode are the encoding of the decoded frame |
| `Frames.CorruptFrameRejected` | src/core/protocol.cpp:54-98 | changing any single byte of an encoded frame is always rejected |
| `Streams.GuardExactIff` | src/core/protocol.cpp:118-135 | the getters' bounds test is exact iff the request is no longer than the buffer |
| `Streams.GuardWraps` | src/core/protocol.cpp:118-121 | a request of four bytes from a buffer of three passes the test |
| `Streams.TakeFollowsGuard` | src/core/protocol.cpp:118-135 | a read is refused exactly when the test fails and succeeds exactly when the bytes are there |
| `Streams.ReadWrittenStr` | src/core/persistence.cpp:34-53 | a written string reads back iff it is at most 65536 bytes long, else it is refused |
| `Streams.FlagIsNonZero` | src/core/persistence.cpp:166-318 | any word but zero reads as a set flag |
| `Streams.ReadWrittenList` | src/core/persistence.cpp:42-57 | a list reads back item by item, and the first item out of bounds refuses it |
| `Persistence.ReadWrittenDevice` | src/core/persistence.cpp:68-243 | a device record reads back as its durable part exactly when it is within bounds |
| `Persistence.ReadWrittenRegion` | src/core/persistence.cpp:116-271 | a region record reads back as its durable part exactly when it is within bounds |
| `Persistence.ReadWrittenPool` | src/core/persistence.cpp:131-314 | a pool record reads back as its durable part exactly when it is within bounds |
| `Persistence.CapabilitySetOfMap` | src/core/persistence.cpp:215-231 | setting the capabilities of a map one by one rebuilds the map |
| `Persistence.SetCapabilityExact` | src/core/persistence.cpp:215-231 | setting a capability replaces the one of its class and keeps the others in order |
| `Persistence.FileAllLast` | src/core/persistence.cpp:166-318 | of records with the same id the last one read stays |
| `Persistence.FileAllKeys` | src/core/persistence.cpp:166-318 | and every id read is filed |
| `Persistence.CountersLayout` | src/core/persistence.cpp:131-160 | a pool's counters, byte by byte |
| `Persistence.TraitsLayout` | src/core/persistence.cpp:68-114 | a device's sizes and traits, byte by byte |
| `Persistence.EconomicsLayout` | src/core/persistence.cpp:68-114 | a device's economics, byte by byte |
| `StateFile.PayloadRoundTrip` | src/core/persistence.cpp:61-318 | a state serializes and reads back as its durable projection, consuming the body exactly, iff every registry, string and list is within the reader's bounds; a state that serializes out of bounds is refused when read |
| `StateFile.DeserializeIff` | src/core/persistence.cpp:166-318 | a payload is accepted exactly when its checksum matches and the reader uses the rest up |
| `StateFile.ProjectionIsStable` | src/core/persistence.cpp:61-164 | serializing the projection gives the same bytes |
| `StateFile.CorruptPayloadRefused` | src/core/persistence.cpp:161-173 | changing any single byte of a serialized payload is always refused |
| `StateFile.EnvelopeRoundTrip` | src/core/persistence.cpp:320-380 | every payload that fits the file comes back out of it |
| `StateFile.OpenFileIff` | src/core/persistence.cpp:356-380 | a file is accepted exactly by its bytes: CXLP, version 1, the length and the checksum |
| `StateFile.AcceptedIsWrittenIff` | src/core/persistence.cpp:356-380 | an accepted file is one the writer produces exactly when its four spare bytes are zero |
| `StateFile.CorruptFileRefused` | src/core/persistence.cpp:356-380 | changing any single byte of an accepted file is always refused |
| `StateFile.SaveThenLoad` | src/core/persistence.cpp:61-380 | a saved state loads as its projection, and no single changed byte of its file loads |
| `StateFileIO.SerializeState` | src/core/persistence.cpp:61-164 | the field-by-field writer produces the specified payload |
| `StateFileIO.DeserializeState` | src/core/persistence.cpp:166-318 | the field-by-field parser computes the specified outcome on every payload, the short bodies whose first read runs into the checksum included |
| `StateFileIO.SealFile` | src/core/persistence.cpp:320-341 | the envelope written is the specified one |
| `StateFileIO.UnsealFile` | src/core/persistence.cpp:356-380 | the envelope checks accept exactly the specified files |
| `Streams.Sink.PutStrs` | src/core/persistence.cpp:54-57 | the loop appends the specified list |
| `Streams.Reader.Strings` | src/core/persistence.cpp:42-47 | the loop reads the specified list and stops where it ends |
| `ControlCodec.DeviceMessage` | include/cxl_fabric/control/codec.hpp:30-70 | a device message recovers every field it carries iff both strings are within bounds and nothing follows |
| `ControlCodec.StateCodes` | include/cxl_fabric/core/enums.hpp:31-56 | states travel as their place in the declaration |
| `ControlCodec.ReserveMessage` | include/cxl_fabric/control/codec.hpp:72-77 | a reserve message recovers its fields under the same condition |
| `ControlCodec.PoolMessage` | include/cxl_fabric/control/codec.hpp:80-110 | a pool message recovers its member list, in order, for any list within bounds |
| `ControlCodec.RegionMessage` | include/cxl_fabric/control/codec.hpp:111-135 | a region message recovers its fields and member list for any list within bounds |
| `ControlCodec.ParsePool` | include/cxl_fabric/control/codec.hpp:102-110 | the loop computes the specified outcome on every payload |
| `ControlCodec.ParseRegion` | include/cxl_fabric/control/codec.hpp:122-135 | the loop computes the specified outcome on every payload |
| `Coordination.CommittedByCreator` | src/multiprocess/coordinator_main.cpp:118-135 | in any interleaving a reservation is committed only through a session with its creator's boot id or an empty one |
| `Coordination.WorkerRoundTrip` | src/multiprocess/coordinator_main.cpp:102-143 | a worker that reserves, commits and releases by message leaves pool and region with the bytes in use they had |
| `Coordination.CreditedIff` | src/multiprocess/coordinator_main.cpp:110-117 | in any interleaving a session is credited with exactly the devices whose publication the engine accepted |
| `Coordination.ForeignCommitIff` | src/core/fabric.cpp:499-501 | a boot other than the creator's can commit exactly when it is empty |
| `Coordination.LostWorkersDevicesAreFenced` | src/multiprocess/coordinator_main.cpp:84-117 | once the loss of a registered and undisturbed worker is worked off, in any interleaving with other sessions, no device it published is a candidate for placement or failover until it is published again |
| `Coordination.RegisteredIff` | src/multiprocess/coordinator_main.cpp:90-99 | while it serves, a registered session stays registered exactly until a boot, a loss or an erasure of another session under its id |
| `Coordination.LossFencesIff` | src/multiprocess/coordinator_main.cpp:196-207 | losing a session lists the devices it published for fencing exactly when none of these disturbed it while it served |
| `Coordination.DisturbedEscapes` | src/multiprocess/coordinator_main.cpp:90-99 | after such an event no loss of any session, ever, fences the session's publications |
| `Coordination.BootRegisters` | src/multiprocess/coordinator_main.cpp:84-92 | a boot registers the new session, whoever is or was under the id |
| `Coordination.AloneDisturbedIff` | src/multiprocess/coordinator_main.cpp:84-99 | once its predecessors under the id are all erased, only another boot under the id disturbs a session |
| `Coordination.ErasureHitsSuccessor` | src/multiprocess/coordinator_main.cpp:95-99 | a worker that boots between a death and the erasure has its own entry erased |
| `Coordination.LossHitsSuccessor` | src/multiprocess/coordinator_main.cpp:196-207 | a worker that boots before its predecessor's loss is marked dead by it and serves on unfenced |
| `Escapes.ReusedBootEscapes` | src/multiprocess/coordinator_main.cpp:84-207 | two workers under one boot id, both lost and their losses worked off, and the first one's device still a candidate |
| `Escapes.MarkedWorkerEscapes` | src/multiprocess/coordinator_main.cpp:84-207 | the same for the second worker when the loss of the first has marked it dead; no boot follows its own |
| `Escapes.OrphanedWorkerEscapes` | src/multiprocess/coordinator_main.cpp:84-207 | the same for the second worker when the erasure of the first has taken its entry |
| `Escapes.MessagesGiveRecords` | include/cxl_fabric/control/codec.hpp:47-135 | the records of these runs are what device, pool and region messages decode to |
| `Coordination.CoordinatorBalanced` | src/multiprocess/coordinator_main.cpp:102-176 | any interleaving whose engine calls are admissible leaves the books balanced |
| `Coordination.CoordinatorAccounts` | src/multiprocess/coordinator_main.cpp:102-176 | from the start and whatever the interleaving, regions hold exactly the bytes of their live reservations, and pools too while every grant can be counted |
| `Coordination.HandleAllRuns` | src/multiprocess/coordinator_main.cpp:84-176 | any interleaving of sessions is one engine run of the calls they make |
| `Coordination.CoordinatorRunsAreLater` | src/multiprocess/coordinator_main.cpp:102-176 | in any interleaving records stay, generations never drop and grants stay fixed |
| `CoordinatorProcess.Coordinator.OnLost` | src/multiprocess/coordinator_main.cpp:94-99 | the loss, one fencing event per device, and the erasure, in that order; no device is left to be fenced |
| `CoordinatorProcess.Coordinator.OnPublishPool` | src/multiprocess/coordinator_main.cpp:150-161 | one publication event, followed by a revalidation event when the id was taken; the reply is the last reason |
| `CoordinatorProcess.Coordinator.OnReserve` | src/multiprocess/coordinator_main.cpp:118-130 | engine, table and reply are those of the specification |
| `CoordinatorProcess.Coordinator.constructor` | src/multiprocess/coordinator_main.cpp:39-54 | a file that loads is imported, a file that does not is ignored |
| `Restart.RestartKeepsBytes` | src/multiprocess/coordinator_main.cpp:39-54 | an engine saved, stopped and started from its file counts, in every later state of an admissible run, every byte its pools had in use; its regions count, in every sensible run, only what was reserved since, as their counters are not in the file |
| `Restart.ImportThroughFile` | src/core/persistence.cpp:116-129 | importing through the file differs from importing directly only in device ports and ancestry and the region fields that are not written |

## Left out

- Sockets, threads, signals, process spawning, the receive loop's framing and the text state file: input and output only; each engine call is one atomic step.
- Temporary file, flush and rename around the state file: only the bytes of the envelope are modelled.
- Discovery backends, synthetic topology builders, command line, examples and benchmarks: platform calls or constant data.
- Enum names and `validate_authority`: finite tables, and a function the engine does not call.
- Selection factors, explanation strings and the floating-point access penalty: nothing reads them to decide anything.
- Error message texts: a refused call keeps its reason code, a refused parse is one outcome.
- What happens after a read past the end of a buffer: the model names the outcome `Overran` and stops there.
- Records a candidate points to are held as values; the engine reads them under the same lock, so no update can come between.
- The enumeration, filtering and sorting of `build_selection` and `plan_failover` are separate methods here, and `std::stable_sort` is an insertion sort, which has the same contract.
- Device, pool and region records that a message fills with constants (`DeviceOf`, `PoolOf`, `RegionOf`) are arbitrary records in the coordinator model.
- Locks: an event list may interleave more freely than the worker mutex allows; finding the dead worker, fencing each device and erasing the entry are separate events.
- Persisting after each coordinator message: the state file is covered by save, load and restart instead.
- Evidence codes outside the named enumerators keep their number; lifecycle states are enumerators only, and a control message's state stays a code.
- Reservation ids after 2^64 - 1 grants: sensible and tidy runs stop reserving when the sequence is used up.
- put_u16, get_u16, sub_checked and mul_checked: not used by the modelled code, or one-line arithmetic.
