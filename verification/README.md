# Verified models of the storage, lifecycle and layout cores

This project models six parts of the Yomihime game-link host in Dafny and proves what they keep
over every input, every run and every crash point.

| part | files | shape |
|---|---|---|
| Shared | `Common` | an option type, a maximum and one set lemma |
| Weighted collage planner | `Sorting`, `CollageOrder`, `ShelfChoice`, `Shelves`, `ShelfHeights`, `CollagePages`, `PageCuts`, `CollagePlan`, `PlannedShelf`, `RankRanges` | functions for the memoised optimiser, methods for the loops |
| Master keys and secret receipts | `KeyLedger`, `KeySafety`, `KeyRecovery`, `KeyReopen`, `KeyOpening`, `KeyCareer`, `KeyGuards` | transition system, one action per transaction or file write |
| Lifecycle, registry projection, admission gate | `Lifecycle`, `Fencing`, `OpenGate`, `Leases`, `LifecycleRules`, `ActivationHistory`, `Service` | transition system, asynchronous methods split at their awaits |
| Storage migration | `Migration`, `MigrationDesk`, `MigrationScript`, `MigrationFrame`, `MigrationLog`, `MigrationAuthority`, `MigrationContents`, `MigrationJournal`, `MigrationChecks`, `MigrationLeases`, `MigrationProgress`, `MigrationCompletion`, `MigrationLimits`, `MigrationOverlap` | transition system, one step per durable effect |
| Health resolution | `Health` | recursive function over a dependency graph |
| Invocation views | `InvocationTree`, `ContextIssuer` | class over live maps, lemmas about the forest of views |
| Bounded ownership | `SourceBudget`, `WebFlights` | classes whose methods are the critical sections |

Check it with `dafny verify dfyconfig.toml`.

## Conventions

* The three protocols are transition systems on values: `Enabled(s, a)`, `Apply(s, a)` and
  `Steps(s, actions, s')`. A database transaction or a stretch between two awaits is one atomic
  update of maps; file writes are steps of their own, and a crash or restart may fall between any two.
  The systems contain no scheduler, so a theorem over `Steps` covers every interleaving.
* Cryptography is idealised: a payload is the key that sealed it, a key check is the key, digests are
  the hashed facts, random ids are ids not in use.
* Clocks, host proofs, environment variables, timeouts and callbacks are arguments of the step or
  method that reads them.
* `peak` and all weights are positive, so ratio comparisons of the planner are written as products;
  weights, penalties and aspects are reals, pixels are integers, and the squared logarithm of a shelf
  size over its target is an arbitrary function parameter, so optimality holds for it and any other.

## Results that need a condition

Six promises turned out to hold only under a condition. The code is modelled as it is, a run shows the
failure, and the condition is proved exact.

1. *Secret ledger.* The selected key opens all of the store's own data in every run iff the legacy
   inventory stays refused even once its configuration fields and grants stop naming receipts, or no
   tombstoned receipt of it left a payload that a key fitting the live payloads would fail to open
   (`SafeIffLegacyClean`; `DirtyStoreExists` is such a store). A failing delete moves a tombstoned
   receipt back to `delete_failed`, which counts as live again.
2. *Opening a store again.* Call a store whole if no temporary file is left, every payload has a receipt
   and every live receipt its payload; intact if also every configuration field and grant that names a
   receipt names an `active` one. In every reachable state the inventory is known iff the store is intact
   (`KnownExactly`), and it opens iff it is also selected, nothing is pending and the key file is whole
   (`OpensExactly`). The actions that break intactness are exactly these (`BreaksExactly`): reserving a
   receipt, writing the temporary file, an unlink whose transaction does not commit, a failing delete of
   a receipt without a payload; and, for references, committing a configuration field, whose receipt is
   still `claimed` then, a grant over a receipt that is not `active` yet, and deleting or orphaning a
   receipt that something names. A stage call is exposed from its reservation until its payload is in
   place (`StageCrashPoints`), a configuration update from its commit until `finalize_active`
   (`ConfigCrashPoint`). What is left over or missing can be lost for good, references cannot: with no
   stage call in flight the inventory can ever become known again iff nothing is left over and either
   nothing is missing or some process still holds the selection (`RepairableExactly`); once every
   process has stopped, iff the store was left whole (`StoppedStoreExactly`). Some continuation then
   opens it iff, besides, no operation is pending, or the pending one still matches the inventory it
   recorded, or a live grant names a receipt, because revoking that grant abandons the operation
   (`OpenableExactly`). In any other whole store the pending operation matches no longer, say because a
   receipt was marked `cas_conflict` or the last grant expired meanwhile, and it stays so for good
   (`StaleForever`).
3. *Admission gate.* An open gate names the ACTIVE identity in every state of a run iff no
   `stop_candidate` reaches its last block while the gate is open (`GateInvariantExact`). That condition
   speaks of steps inside the run. The one a caller can arrange, no start while a stop is in flight, is
   sufficient (`GateHoldsWithoutOverlap`) and not necessary: most overlaps end well. Reusing an operation
   id does not (`GateCanBeLeftOpen`), and one more quiesce then bars the module for the rest of the
   process (`QuiesceBarsModule`). The fencing of leases holds regardless (`FencedForever`).
4. *Migration journal.* After every crash the next run accepts the journal and the trees iff no source
   file lies inside a directory named `recovery/migration.json` (`WriteAheadExactly`): the manifest is
   reserved without looking whether its name is recorded already.
5. *Migration completion.* From any fenced state with an attempt left, some run publishes iff no source
   file is at or inside `recovery/migration.json` (`PublishesExactly`); the refusal comes only after the
   source has been fenced.
6. *Migration authority.* A published selector stays iff no pipeline publishes over it
   (`SelectorStaysExactly`), again a condition on steps inside the run. The public entry already refuses
   every call whose plan is not the one the supervisor's current lease is bound to, and two leases cannot
   be held at once, so two plans never overlap. What it does not refuse is a second call of the same plan
   under the same lease: the selector is read before the lock is taken and publication replaces the file,
   so, over a source that a crashed run has fenced already, both calls publish and two writable roots are
   in use (`OverlapBreaksAuthority`). For a caller: a limit of `n` calls per lease keeps a single authority
   in every run iff `n` is at most one (`OneCallExactly`). The failing run takes one lease to fence the
   source and crash and a later one to rerun. The repository's own `SyntheticSourceSupervisor` makes its
   own source directory and closes for good when its first lease scope ends
   (services/storage_migration_supervisor.py:373-383), so that run needs a supervisor the repository does
   not contain; the promise of the public entry does not exclude one.

## Model

| member | source | states |
|---|---|---|
| `CollageOrder.OrderedCorrect` | presentation/layout_collage.py:110-111 | ranking is a permutation of the items with weights non-increasing in rank |
| `CollageOrder.EqualWeightsByKey` | presentation/layout_collage.py:110-111 | items of equal weight are ranked by key, compared character by character |
| `CollageOrder.TierCap` | presentation/layout_collage.py:119-123 | the cut is the largest one within the cap that separates no two equal weights |
| `CollageOrder.CapWithoutSplit` | presentation/layout_collage.py:119-123 | the decrementing loop returns that largest cut |
| `CollageOrder.LowerTier` | presentation/layout_collage.py:127-129 | one tier loop overwrites exactly the heavy enough items of the tier |
| `CollageOrder.DesiredTargets` | presentation/layout_collage.py:115-133 | the two tier loops together give every item its tiered target |
| `CollageOrder.TargetsFollowWeights` | presentation/layout_collage.py:125-133 | a heavier rank never has a larger target shelf, and equal weights share one |
| `ShelfChoice.ChooseOptimal` | presentation/layout_collage.py:135-151 | the choice is a minimum-cost non-decreasing composition within the bounds, the lexicographically first among equals, and none only if none exists |
| `ShelfChoice.ScanOptimal` | presentation/layout_collage.py:139-151 | the counting loop keeps the best composition whose first row is below the current count |
| `ShelfChoice.ChooseFailsExactly` | presentation/layout_collage.py:153-155 | no composition exists exactly when the item count is odd, above one, and the maximum is two |
| `ShelfChoice.RowsOfTwoAreEven` | presentation/layout_collage.py:140-143 | with maximum two every composition of two or more items has an even sum |
| `Shelves.RowWidthsFillWidth` | presentation/layout_collage.py:169-174 | whatever the rounding does, the widths of a row add up to the full width and descend |
| `Shelves.ChosenWidths` | presentation/layout_collage.py:161-179 | weighted or equal, with the fallback, the row is filled exactly in descending widths |
| `Shelves.RowWidthsShare` | presentation/layout_collage.py:169-174 | a row is cut at the pixel nearest to each exact share, the even one of two, and its widths are that cut's, widest first |
| `Shelves.ChosenWidthsExactly` | presentation/layout_collage.py:161-179 | the shares are equal, except in the first row of a small collage, where they follow the weights down to one half of the heaviest unless a tile would be under 90 pixels |
| `Shelves.BoundedSound` | presentation/layout_collage.py:156-187 | every height between a shelf's bounds keeps each tile between 2/3 and 3/2 of the preferred aspect, within the height limits |
| `Shelves.BoundedExactly` | presentation/layout_collage.py:180-185 | a shelf is refused exactly for a tile under 90 or over 1024 pixels wide or without a height that fits, and its bounds enclose exactly the heights that fit |
| `Shelves.BoundedNominal` | presentation/layout_collage.py:186 | no height within the bounds is nearer to the preferred aspect than the nominal one, which is even when another is as near |
| `ShelfHeights.NeededIsLeast` | presentation/layout_collage.py:190-204 | the backward pass computes the least height any valid assignment can give a shelf |
| `ShelfHeights.MinimumHeights` | presentation/layout_collage.py:192-204 | the backward loop succeeds exactly when some assignment of heights keeps all areas descending |
| `ShelfHeights.ForwardNeverStarves` | presentation/layout_collage.py:210-215 | once it succeeds, each forward height is at least the reserved minimum and within its shelf's bounds |
| `ShelfHeights.ForwardIsAssignment` | presentation/layout_collage.py:210-215 | the forward heights keep areas descending across shelves |
| `ShelfHeights.ForwardIsGreatest` | presentation/layout_collage.py:211-213 | no valid assignment below the wanted heights is taller anywhere |
| `CollagePages.PlaceRow` | presentation/layout_collage.py:227-242 | the row loop places ranks left to right with exact edges and counts its bytes |
| `CollagePages.TiledExtends` | presentation/layout_collage.py:227-244 | adding a row to a page keeps every pixel in exactly one tile |
| `CollagePages.RankedExtends` | presentation/layout_collage.py:227-244 | adding a row keeps ranks consecutive, aspects within bounds and areas non-increasing |
| `PageCuts.AheadAtBreak` | presentation/layout_collage.py:216-226 | a page break happens only where no other cut could have got further with as many pages |
| `PageCuts.GreedyIsFewest` | presentation/layout_collage.py:216-226 | filling every page as far as it goes uses the fewest pages of all cuts |
| `CollagePlan.BuildShelves` | presentation/layout_collage.py:158-188 | the shelf loop succeeds exactly when every row's bounds are consistent, and yields sound shelves |
| `CollagePlan.NextHeight` | presentation/layout_collage.py:210-215 | the chosen height is never below the reserved one, so the starvation refusal cannot happen |
| `CollagePlan.CutPages` | presentation/layout_collage.py:206-244 | page cutting fails exactly when no cut at shelf boundaries fits the page limit, and otherwise yields the longest pages in order |
| `CollagePlan.LayOut` | presentation/layout_collage.py:110-244 | a layout is found exactly when rows, heights and page boundaries exist for the chosen composition, and it is the planned one |
| `CollagePlan.PlanCollage` | presentation/layout_collage.py:73-253 | returns exactly the plan that the chosen composition, the forward heights and the longest pages determine; each refusal has its exact cause, the byte limit that of this plan; the plan partitions its pages, descends in area, keeps aspects and respects all limits |
| `CollagePlan.PlannedRowsAreCheapest` | presentation/layout_collage.py:135-155 | the plan's rows are a cheapest composition, the lexicographically first among equals |
| `CollagePlan.PlannedHeightsAreGreatest` | presentation/layout_collage.py:190-215 | the plan's heights descend in area and no assignment below the wanted heights is taller anywhere |
| `CollagePlan.PlannedPagesAreFewest` | presentation/layout_collage.py:206-226 | no cut of the plan's shelves into pages has fewer pages |
| `PlannedShelf.PlannedWidths` | presentation/layout_collage.py:161-179 | row by row, the plan's widths are those shares of the ranked items |
| `PlannedShelf.PlannedBounds` | presentation/layout_collage.py:180-187 | and its bounds and nominal heights the extreme and the nearest ones |
| `PlannedShelf.PlannedHeightIsNearest` | presentation/layout_collage.py:190-215 | a planned shelf is at its nominal height, unless every assignment needs it taller or one pixel more would outgrow the shelf above |
| `CollagePlan.HeavierIsNeverSmaller` | presentation/layout_collage.py:73-80 | across all pages a heavier item never has a smaller tile |
| `CollagePlan.EveryItemShownOnce` | presentation/layout_collage.py:227-234 | the tiles' items are a permutation of the collage's items |
| `RankRanges.RangesOf` | presentation/layout_collage.py:51-61 | the merging loop computes the merged ranges of the sorted ranks |
| `RankRanges.MergeExact` | presentation/layout_collage.py:54-61 | merged ranges cover exactly the given ranks and leave a gap between neighbours |
| `RankRanges.OneSegmentPerPage` | presentation/layout_collage.py:51-61 | every page of an accepted plan is one rank segment, continuing the page before |
| `Health.EffectiveExact` | core/health.py:438-532 | for every stack, AVAILABLE means every dependency path from here is simple, avoids the stack and is locally healthy |
| `Health.AvailableIffAcyclicAndHealthy` | core/health.py:438-532 | from an empty stack, AVAILABLE iff everything reachable is on no cycle and fit: declared, running at its epoch, reported available, every required name recorded available; the override counts for the root only |
| `Health.GoodThroughDependencies` | core/health.py:513-532 | all paths from a capability are good iff it is healthy, off the stack, and all paths from its dependencies are |
| `Health.VerdictIsNotAvailable` | core/health.py:449-511 | a local verdict is never AVAILABLE, so dependencies are consulted only for locally available capabilities |
| `Health.LocalVerdictExactly` | core/health.py:449-511 | dependencies are consulted exactly for capabilities that are fit in that sense |
| `Health.VerdictBeforeRequirements` | core/health.py:451-487 | an undeclared, stopped or unreported capability, or one reported otherwise, gets the result of the first of these |
| `Health.FirstFailingConfig` | core/health.py:489-505 | then the first required configuration name that is missing or unavailable decides, with its recorded value |
| `Health.FirstFailingSource` | core/health.py:498-505 | then the first required source recorded unavailable |
| `Health.UnknownRequirement` | core/health.py:506-511 | then anything not recorded available makes it unknown, configuration before sources |
| `Health.FirstDependencyDecides` | core/health.py:513-531 | the first dependency in declared order that is not available decides, by its status |
| `Health.ResultHasCause` | core/health.py:438-532 | every other result has a path of fit capabilities to one that closes a cycle or fails by itself, which gives its status |
| `KeySafety.SelectorStep` | infrastructure/managed_key_manager.py:588-871 | the selector row stays well formed, never returns to unselected, its generation never falls, and it changes only by a commit, which raises its revision |
| `KeySafety.LedgerStep` | infrastructure/secret_store.py:236-328 | every transaction and file write keeps live receipts at the current generation and their payloads under the selected key |
| `KeySafety.LedgerStageStep` | infrastructure/secret_store.py:199-328 | each step of `stage`, also one spanning a restore, adoption or reset, keeps that |
| `KeySafety.LedgerSelectStep` | infrastructure/managed_key_manager.py:657-712 | each commit of a selection keeps that: the same key moves, a first key fits all live payloads, a new generation starts over tombstones |
| `KeySafety.SafeForever` | infrastructure/managed_key_manager.py:313-349 | from a clean legacy store `_decrypt_all` never rejects the store's own data in any run |
| `KeySafety.SafeIffLegacyClean` | infrastructure/secret_store.py:651-672 | for every legacy store, all runs are safe iff its inventory is refused even without its references, or it is clean |
| `KeySafety.UnopenedForever` | infrastructure/managed_key_manager.py:159-311 | an unselected store whose inventory is unknown for more than its references is never selected, whatever is cleared, revoked or marked |
| `KeySafety.ClearAll` | infrastructure/sqlite/repositories_config.py:738-760 | without a pending operation every configuration field and grant can stop naming its receipt, changing nothing else |
| `KeySafety.DirtyStoreExists` | infrastructure/secret_store.py:651-672 | one tombstoned receipt with a payload left makes an accepted store that is not safe |
| `KeySafety.DirtyLegacyRun` | infrastructure/secret_store.py:651-672 | selecting a fitting environment key and failing one delete breaks the promise |
| `KeySafety.JournalStep` | infrastructure/managed_key_manager.py:505-586 | every action keeps candidates distinct, at most one operation preparing, and every key file journalled |
| `KeySafety.KeyFileHasOneRole` | infrastructure/managed_key_manager.py:267-295 | a key file is exactly one of selected, pending candidate, abandoned candidate, retired |
| `KeySafety.KeyFilesAccounted` | infrastructure/managed_key_manager.py:267-295 | in every run each key file has exactly one role, so none is unknown, and at most one operation is preparing |
| `KeySafety.SpentForever` | infrastructure/secret_store.py:630-692 | a receipt deleted, orphaned or out of its claim never becomes readable again |
| `KeyCareer.CareerStep` | infrastructure/secret_store.py:236-692 | over every action: each receipt state is entered from the one before it by its own call only, and each such call enters it; receipts appear by reservation and never disappear |
| `KeyCareer.CallsStep` | infrastructure/secret_store.py:199-297 | a stage call goes on in order, and finalising it needs its payload in place |
| `KeyCareer.WholeCareer` | infrastructure/secret_store.py:236-456 | over whole runs an active secret was reserved, sealed, written, placed, staged, claimed and activated, in that order |
| `KeyCareer.StoreSecret` | services/configuration/operations.py:410-525 | from every open, intact store a fresh secret can be staged, claimed, put into a field and finalised: the field names an active receipt, its payload opens, nothing else changes, the store is intact |
| `KeyCareer.FailedStageIsUndone` | infrastructure/secret_store.py:266-328 | a stage call that fails before its payload is in place and cleans up leaves a receipt whose deletion restores an intact store |
| `KeyCareer.DeletedForGood` | infrastructure/secret_store.py:644-672 | once a deletion has unlinked a payload, with no stage call for it in flight, the token never has a payload again and is never readable |
| `KeyCareer.ResetIsFinal` | infrastructure/managed_key_manager.py:1104-1163 | after a reset nothing names a receipt, and every receipt of before stays tombstoned in every continuation |
| `KeyGuards.NamesOnlyReadable` | infrastructure/sqlite/repositories_auth.py:125-166 | a field or grant comes to name a receipt only while a process holds the selection, at the current generation: a field a claimed one, a grant a readable one |
| `KeyGuards.GrantPossible` | infrastructure/sqlite/repositories_auth.py:322-346 | an open store can put a grant over any readable receipt |
| `KeyGuards.RevisionRises` | infrastructure/sqlite/repositories_auth.py:348-393 | a grant's row never changes without its revision going up by one |
| `KeyGuards.RevokedStays` | infrastructure/sqlite/repositories_auth.py:258-320 | a revoked grant is not live again in any continuation that writes no grant of its id |
| `KeyGuards.CommitShutsOut` | infrastructure/secret_store.py:68-98 | in every run, after a commit of a selection no process reserves, seals, finalises, claims, deletes or names anything before it has read the new selection |
| `KeyGuards.KeyStaysForever` | infrastructure/managed_key_manager.py:540-586 | a complete key file is never overwritten or removed in any run without outside damage to it |
| `KeyGuards.RotationDropsNoKey` | infrastructure/managed_key_manager.py:505-538 | a retry drops a candidate only when its file is not complete |
| `KeyRecovery.InitializingStep` | infrastructure/managed_key_manager.py:588-712 | every piece of an interrupted startup leaves initialisation resumable or done |
| `KeyRecovery.CommitMakesReady` | infrastructure/managed_key_manager.py:657-712 | committing the candidate ends in a ready managed key |
| `KeyRecovery.StartupConverges` | infrastructure/managed_key_manager.py:588-712 | one fault-free startup without an environment key ends ready, also over a partial candidate file |
| `KeyRecovery.InitializationConverges` | infrastructure/managed_key_manager.py:505-712 | any history of interrupted startups of an empty store is ready or one fault-free startup away from it |
| `KeyReopen.KnownExactly` | infrastructure/managed_key_manager.py:159-311 | in every reachable state nothing is unknown iff no temporary file is left, payloads and live receipts match and every reference names an active receipt; superseded generations and key files never count |
| `KeyReopen.ReadyExactly` | infrastructure/managed_key_manager.py:351-438 | in every reachable state the status is ready iff the store is selected, intact, without a pending operation, with a whole key file and a fitting environment |
| `KeyReopen.OpensExactly` | infrastructure/managed_key_manager.py:443-494 | some environment opens the store iff it is selected, intact, without a pending operation and its key file is whole |
| `KeyReopen.UndamagedOpensExactly` | infrastructure/managed_key_manager.py:443-494 | in runs where nothing outside damages a key file, the key file is always whole, so it opens iff selected, intact and nothing pending |
| `KeyReopen.BreaksExactly` | infrastructure/secret_store.py:199-328 | exactly a reservation, a temporary file, an uncommitted unlink of a live payload, a failing delete without payload, a committed configuration field, a grant over an inactive receipt, and the delete or orphan mark of a named receipt turn an intact store into one that is not |
| `KeyReopen.StageCrashPoints` | infrastructure/secret_store.py:236-328 | a stage call leaves the store not whole exactly from its reservation until its payload is in place |
| `KeyReopen.ConfigCrashPoint` | services/configuration/operations.py:472-525 | between the commit of a configuration field and `finalize_active` the store is whole but not intact; afterwards it is intact |
| `KeyReopen.ReferenceBreaks` | infrastructure/sqlite/repositories_auth.py:126-165 | among reference changes exactly a configuration commit and a grant over a staged or claimed receipt break intactness; clearing, expiring and revoking never do |
| `KeyReopen.RepairableExactly` | infrastructure/secret_store.py:644-672 | with no stage call in flight the inventory can become known again iff nothing is left over and nothing is missing or a process still holds the selection |
| `KeyReopen.Repair` | infrastructure/secret_store.py:644-672 | such a process can delete every receipt without a payload and leave the store whole with nothing pending |
| `KeyReopen.ClearToKnown` | infrastructure/sqlite/repositories_config.py:738-760 | a whole store with nothing pending becomes known by clearing what names its receipts |
| `KeyReopen.StoppedStoreExactly` | infrastructure/managed_key_manager.py:588-655 | once every process has stopped, the inventory can ever be known again iff the store was left whole |
| `KeyReopen.WedgedForever` | infrastructure/managed_key_manager.py:159-311 | a leftover no call owns, or a missing payload nobody can write off, keeps the inventory unknown and every status not ready, whatever runs |
| `KeyReopen.OpenStoreCanWedge` | infrastructure/secret_store.py:236-290 | every open store is one reservation or one uncommitted unlink and one crash away from that |
| `KeyOpening.PlanStep` | infrastructure/managed_key_manager.py:505-586 | every action keeps a pending operation at the current selection and key files, its candidate key valid for its kind, and the store away from its digest only by conflict marks and by references that went or aged |
| `KeyOpening.InitialisesAlone` | infrastructure/managed_key_manager.py:588-655 | in every run an initialisation is pending only over an empty, unselected store whose key files were all written for initialisations |
| `KeyOpening.CommitOpens` | infrastructure/managed_key_manager.py:657-712 | whatever selection an intact store commits to, the store opens under it |
| `KeyOpening.FinishPending` | infrastructure/managed_key_manager.py:505-712 | an operation that still matches the inventory can be finished and the store opened, also over a partial candidate file, for initialisation, restore, adoption and reset alike |
| `KeyOpening.ResetOpens` | infrastructure/managed_key_manager.py:1043-1169 | an intact store without an environment key and nothing pending is opened by a reset, whatever became of its key file |
| `KeyOpening.RevokeOpens` | infrastructure/sqlite/repositories_auth.py:284-293 | revoking a live grant abandons whatever is pending, after which a whole store can be opened |
| `KeyOpening.StaleForever` | infrastructure/managed_key_manager.py:505-586 | with no stage call in flight and no live grant, an operation that matches the inventory no longer stays pending and unmatched in every continuation |
| `KeyOpening.OpenableExactly` | infrastructure/managed_key_manager.py:588-655 | once every process has stopped, some continuation opens the store iff it is whole and nothing is pending, or the pending operation still matches, or a live grant can be revoked |
| `KeyGuards.RestoreCompletes` | infrastructure/managed_key_manager.py:714-871 | a begun restore can be committed as it stands, under the validated key, into a managed selection whose key file holds it |
| `KeyGuards.PartialWriteRecovers` | infrastructure/managed_key_manager.py:505-586 | after a crash in the middle of writing the candidate the store can still be opened |
| `Fencing.StepTame` | core/lifecycle.py:294-599 | no step brings back an old identity, restarts a running one, or issues a used epoch |
| `Fencing.IdentityStep` | core/lifecycle.py:317-330 | issued identities have increasing epochs and every holder names an issued one |
| `Fencing.EpochsDistinct` | core/lifecycle.py:317-330 | epochs allocated for a module are pairwise distinct over rollback, detach and restore |
| `Fencing.FencedForever` | core/admission.py:290-298 | once an identity has left ACTIVE, no lease recorded under it passes `check` in any continuation |
| `Fencing.ActivatedAtMostOnce` | core/lifecycle.py:738-764 | each identity is activated at most once in any run |
| `Leases.LeaseStep` | core/admission.py:351-365 | over every step: a lease is recorded by its own admission only, under the served identity, and dropped by its own release only |
| `Leases.CheckExactly` | core/admission.py:290-339 | in every run a lease passes iff it was admitted while an identity was served, has not been released since, and that identity is ACTIVE, enabled at its epoch, behind its open gate and not pending cleanup |
| `Leases.ReleasedForGood` | core/admission.py:351-365 | a released lease is unrecorded and fails in every continuation that does not admit its id |
| `Service.StartServes` | core/lifecycle.py:294-392 | a module at rest can be started, and then serves a fresh identity |
| `Service.AdmittedPasses` | core/admission.py:128-171 | a served module admits a lease, which passes |
| `Service.StopReachesRest` | core/lifecycle.py:394-512 | a served module can be stopped: no lease passes any more, and it can be started again or detached |
| `LifecycleRules.PhaseStep` | core/lifecycle.py:207-897 | the state graph: every change of phase and the steps that may make it |
| `LifecycleRules.PendingBlocks` | core/lifecycle.py:220-330 | while cleanup is pending nothing starts, installs, detaches, admits or passes |
| `LifecycleRules.WorksForOwner` | core/lifecycle.py:1248-1284 | a step works for the operation that owns the module; another takes over only at rest, and never for a start, a rollback or a publication |
| `LifecycleRules.TakeoverAllowed` | core/lifecycle.py:1248-1268 | and at rest any operation may |
| `LifecycleRules.OwnerStep` | core/lifecycle.py:1248-1272 | ownership goes only to the operation a step works for and ends only where its work does |
| `LifecycleRules.InstanceStep` | core/lifecycle.py:875-893 | an instance gives way only once stopped, by detach or rollback, and counts as stopped only when its stop was reported |
| `LifecycleRules.AliveStays` | core/lifecycle.py:294-330 | over whole runs a started instance is neither forgotten nor started again before that |
| `LifecycleRules.StartMakesAlive` | core/lifecycle.py:294-330 | and a start makes it one |
| `LifecycleRules.RollbackEnds` | core/lifecycle.py:514-600 | what was active or is enabled is never rolled back, and a rollback ends only with nothing running |
| `LifecycleRules.FailureMarks` | core/lifecycle.py:1286-1313 | a failing stop, publication or rollback leaves FAILED, a closed gate, and cleanup pending unless the instance is finished |
| `LifecycleRules.FailedStartMarks` | core/lifecycle.py:332-392 | so does a failing start, or it awaits the instance's stop first |
| `LifecycleRules.FailedStopMarks` | core/lifecycle.py:332-392 | a stop it awaited in vain leaves cleanup pending |
| `LifecycleRules.FailedStopSucceeds` | core/lifecycle.py:332-392 | one that succeeded leaves the instance stopped |
| `LifecycleRules.RollbackRetires` | core/lifecycle.py:540-600 | rolling back an unpublished start retires its identity for a fresh one, projected and disabled |
| `LifecycleRules.TimeoutMarks` | core/lifecycle.py:1315-1348 | a scope timeout leaves FAILED, cleanup pending and the gate closed |
| `LifecycleRules.ClosedUntilPublished` | core/admission.py:367-388 | a closed gate opens by a publication only |
| `LifecycleRules.PublicationOpens` | core/lifecycle.py:688-777 | a publication serves exactly a current run covered by its health report, with no cleanup pending and no other gate open; otherwise it leaves FAILED |
| `LifecycleRules.ServiceEnds` | core/admission.py:390-399 | closing, quiescing and a scope timeout end service at once |
| `LifecycleRules.StartCutShort` | core/lifecycle.py:1274-1284 | a start call whose identity has failed, been stopped or been replaced never goes on or publishes, in any continuation |
| `ActivationHistory.ActivatedInOrder` | core/lifecycle.py:294-392 | in every run each activated identity was published after its health check, and that came after its start returned |
| `Fencing.GateStep` | core/lifecycle.py:456-512 | a step keeps an open gate right iff it is not the last block of a stop under an open gate |
| `Fencing.GateInvariantExact` | core/admission.py:367-398 | over whole runs an open gate names the ACTIVE identity enabled at its epoch iff no such step is taken |
| `Fencing.GateHoldsWithoutOverlap` | core/lifecycle.py:294-330 | if no start begins while a stop is in flight, the gate is right in every state |
| `OpenGate.GateCanBeLeftOpen` | core/lifecycle.py:456-512 | a ten-step run with one reused operation id ends STOPPED with the gate open |
| `OpenGate.StuckForever` | core/admission.py:367-398 | a gate naming a replaced identity never closes and the module never becomes ACTIVE again |
| `OpenGate.QuiesceBarsModule` | core/lifecycle.py:394-454 | after that run one quiesce bars the module for the rest of the process |
| `InvocationTree.ChainInherits` | core/context_issuer.py:502-540 | along a chain of any length provenance is the root's, deadlines only grow upwards, and a carried Grant stays in its module |
| `InvocationTree.UnexpiredLeaf` | core/context_issuer.py:674-680 | an unexpired view has no expired ancestor |
| `InvocationTree.AuthorisedExactly` | core/context_issuer.py:418-458 | the checks over the whole chain amount to the leaf's deadline, a current job claim, and for web views deployed capabilities and the root's proof |
| `InvocationTree.DerivedIsLegit` | core/context_issuer.py:496-540 | whatever issue would refuse, derive does not produce at any depth |
| `InvocationTree.ForestWithout` | core/context_issuer.py:624-650 | dropping a subtree leaves the issued set closed under parent |
| `InvocationTree.InverseWithout` | core/context_issuer.py:637-650 | and leaves the children map exactly the inverse parent relation |
| `InvocationTree.GrowForest` | core/context_issuer.py:526-540 | adding a view keeps closure and inverse |
| `ContextIssuer.Issuer.Require` | core/context_issuer.py:418-458 | accepts exactly the live views whose chain stands, never a released one, and never reaches the missing-parent refusal |
| `ContextIssuer.Issuer.Issue` | core/context_issuer.py:160-270 | issues exactly the well-formed unexpired roots and changes nothing otherwise |
| `ContextIssuer.Issuer.IssueJob` | core/context_issuer.py:104-135 | issues exactly for a current claim before the deadline |
| `ContextIssuer.Issuer.IssueWeb` | core/context_issuer.py:346-399 | issues exactly for a deployed capability with a current proof before the deadline |
| `ContextIssuer.Issuer.Derive` | core/context_issuer.py:478-540 | derives exactly under the origin, deployment, Grant and deadline rules, and links the child |
| `ContextIssuer.Issuer.AttachLease` | core/context_issuer.py:542-558 | attaches to an accepted view unless another lease is there |
| `ContextIssuer.Issuer.DetachLeaseForCleanup` | core/context_issuer.py:580-604 | removes the sidecar only for the exact live view and lease, also after expiry |
| `ContextIssuer.Issuer.Walk` | core/context_issuer.py:642-650 | the stack walk pops exactly the subtree's entries |
| `ContextIssuer.Issuer.Release` | core/context_issuer.py:624-672 | removes exactly the view's subtree from every map, and what it removed is never live again |
| `MigrationDesk.Intend` | infrastructure/private_storage_transfer.py:259-284 | journalling an intent leaves a tree the next run accepts |
| `MigrationDesk.Create` | infrastructure/private_storage_transfer.py:259-284 | creating the intended entry under a confirmed parent does too |
| `MigrationDesk.Confirm` | infrastructure/private_storage_transfer.py:259-284 | and so does recording its identity |
| `MigrationScript.FileNotDirectory` | infrastructure/private_storage_transfer.py:606-608 | only the manifest's name can be wanted both as a file and as a directory |
| `MigrationScript.HeadUnreserved` | infrastructure/private_storage_transfer.py:275-284 | a file about to be reserved is not recorded yet, unless it is that one |
| `MigrationLog.LogStep` | infrastructure/private_storage_transfer.py:234-304 | every step but a reservation of a recorded name keeps journal, trees and running attempt consistent |
| `MigrationLog.WriteAheadSound` | infrastructure/private_storage_transfer.py:81-231 | at every point of every run the saved journal loads and the surviving trees pass, when nothing is inside the manifest's name |
| `MigrationLog.FrozenForever` | infrastructure/private_storage_migration.py:207-241 | a fenced source is never unfenced and its facts never change |
| `MigrationAuthority.AuthorityStep` | infrastructure/private_storage_transfer.py:560-632 | manifests, activated copies and the selector stay consistent under every step |
| `MigrationContents.ContentsStep` | infrastructure/private_storage_transfer.py:528-617 | every step keeps the contents of activated, unpublished copies |
| `MigrationContents.ActivatedHoldsSource` | infrastructure/private_storage_transfer.py:550-556 | in every run an activated, unpublished storage holds, path by path, exactly the fenced source's files with their contents, besides the manifest |
| `MigrationContents.PublishedHoldsSource` | infrastructure/private_storage_transfer.py:600-628 | and so does a storage at the moment it is published |
| `MigrationJournal.NothingUnrecorded` | infrastructure/private_storage_transfer.py:234-304 | in every run no attempt is dropped from its journal or rewritten once another follows, every tree is some attempt's, all attempts but the last are abandoned, and no path is recorded without its directory |
| `MigrationJournal.ManifestComesLast` | infrastructure/private_storage_transfer.py:557-612 | in every run the manifest is reserved in activated copies only |
| `MigrationJournal.WorkInOrder` | infrastructure/private_storage_transfer.py:528-617 | in every run the database is copied only into a recorded file, an attempt is prepared only with its manifest written, and only a prepared one is published |
| `MigrationChecks.AdditionIsCaught` | infrastructure/private_storage_transfer.py:178-231 | a tree in which something unrecorded has appeared fails the check of a later run |
| `MigrationChecks.ReplacementIsCaught` | infrastructure/private_storage_transfer.py:178-231 | so does one from which a confirmed node has gone, or where it was replaced or changed its kind |
| `MigrationChecks.EarlyContentIsCaught` | infrastructure/private_storage_transfer.py:178-231 | and one with contents under a name that was never confirmed |
| `MigrationChecks.BareRootOnly` | infrastructure/private_storage_transfer.py:178-231 | with nothing recorded exactly no tree or a bare root passes |
| `MigrationChecks.VerificationCatches` | infrastructure/private_storage_transfer.py:307-457 | a verified selector stops verifying once its root, database, manifest or copy, or the source's fence or facts, are others |
| `MigrationLeases.ActorIsLeased` | services/storage_migration_supervisor.py:68-80 | fencing, locking, each listed file and publication need the current lease, for the call's own plan; fencing also the snapshot's facts and fence |
| `MigrationLeases.EndedLeaseIsDead` | services/storage_migration_supervisor.py:373-383 | once a lease has ended no call under it does any of that in any continuation |
| `MigrationLeases.LatePlanIsRefused` | infrastructure/private_storage_transfer.py:489-504 | a plan made before the source was fenced is refused ever after |
| `MigrationLeases.LockIsHeld` | infrastructure/private_storage_transfer.py:518-525 | from its opening to its end an attempt keeps the lock |
| `MigrationAuthority.SelectorStep` | infrastructure/private_storage_transfer.py:469-485 | a step moves a published selector iff it publishes over it |
| `MigrationAuthority.SelectorStaysExactly` | infrastructure/private_storage_transfer.py:460-632 | in every run the selector stays iff none publishes over it, and a published selector always verifies over a fenced source |
| `MigrationAuthority.OneAuthority` | infrastructure/private_storage.py:164-186 | with at most one call per lease, at most one root ever handed out takes writes in every state, and a published selector stays |
| `MigrationAuthority.SoloStep` | services/storage_migration_supervisor.py:68-80 | the lease checks keep at most one call able to go on under the current lease, and none once a selector exists |
| `MigrationAuthority.InvIsSingle` | infrastructure/private_storage.py:164-186 | the selected root is writable and the source is not |
| `MigrationProgress.EnsureDirectory` | infrastructure/private_storage_transfer.py:259-272 | missing directories are recorded outermost first and nothing else changes |
| `MigrationProgress.TakeFile` | infrastructure/private_storage_transfer.py:275-304 | one file is reserved and copied and adds exactly its path and content |
| `MigrationProgress.CopyAll` | infrastructure/private_storage_transfer.py:532-556 | all names are recorded and the target holds exactly the source's files |
| `MigrationCompletion.FinishAttempt` | infrastructure/private_storage_transfer.py:528-632 | whatever inodes the file system hands out, an allocated attempt can be carried to its publication without touching anything else |
| `MigrationCompletion.BeginRun` | infrastructure/private_storage_transfer.py:234-256 | what earlier runs left never keeps the next one from allocating an attempt below the limit |
| `MigrationCompletion.FaultFreeRunPublishes` | infrastructure/private_storage_transfer.py:460-632 | from any state crashes left, and for any choice of inodes, one fault-free run publishes a selector that verifies |
| `MigrationLimits.OverlaySpoils` | infrastructure/private_storage_transfer.py:275-284 | reserving the manifest over a directory of its name makes the attempt fail the next check |
| `MigrationLimits.PublishesExactly` | infrastructure/private_storage_transfer.py:600-632 | some run publishes iff no source file is at or inside the manifest's name |
| `MigrationLimits.WriteAheadExactly` | infrastructure/private_storage_transfer.py:81-231 | all continuations are accepted by the next run iff no source file is inside the manifest's name |
| `MigrationLimits.AttemptLimitIsFinal` | infrastructure/private_storage_transfer.py:240-241 | sixteen attempts without a publication leave the source fenced for good and nothing ever published |
| `MigrationOverlap.OverlapBreaksAuthority` | infrastructure/private_storage_transfer.py:460-495 | under any supervisor that leases a crashed source again, two calls of one plan under one lease leave two writable roots handed out |
| `MigrationOverlap.OneCallExactly` | services/storage_migration_supervisor.py:68-80 | for a source that can be migrated, a limit of n calls per lease keeps a single authority in every run iff n is at most one |
| `SourceBudget.BytesWithout` | extensions/factory_resolver.py:122-131 | the retained bytes of a set of leases lose exactly the removed lease's bytes |
| `SourceBudget.AccountInBounds` | extensions/factory_resolver.py:69-79 | the reservation is never negative nor above the limit, and zero when everything is given back |
| `SourceBudget.FactorySource.BeginCapture` | extensions/factory_resolver.py:69-79 | reserves a package limit exactly when it fits |
| `SourceBudget.FactorySource.FailCapture` | extensions/factory_resolver.py:86-104 | a failed or cancelled capture gives back exactly its reservation, and the clamp never acts |
| `SourceBudget.FactorySource.FinishCapture` | extensions/factory_resolver.py:106-114 | a successful one keeps exactly the bytes it read |
| `SourceBudget.FactorySource.ReleaseReservation` | extensions/factory_resolver.py:116-120 | subtracts exactly the amount, the clamp at zero being dead |
| `SourceBudget.FactorySource.ReleaseLease` | extensions/factory_resolver.py:122-131 | gives back the lease's bytes once, the clamp at zero being dead |
| `SourceBudget.FactorySource.Release` | extensions/factory_resolver.py:384-388 | repeated release changes nothing |
| `WebFlights.SlotsBounded` | core/invocation.py:317-328 | at most four slots, at most two per bearer, and, once the callbacks of its ended tasks have run, a started request's slot is free exactly when it is sealed with no unfinished task |
| `WebFlights.OneMoreFlight` | core/invocation.py:317-328 | the admission test keeps both limits |
| `WebFlights.Gateway.Begin` | core/invocation.py:281-328 | a slot is taken exactly when the gateway is open and both limits allow it |
| `WebFlights.Gateway.ReleaseIfDone` | core/invocation.py:161-171 | a slot is freed only for a sealed request whose registered tasks have all ended |
| `WebFlights.Gateway.Seal` | core/invocation.py:132-144 | sealing revokes at once and frees a slot only when nothing is running |
| `WebFlights.Gateway.StartRoot` | core/invocation.py:360-368 | the request's task is registered before anything else can run |
| `WebFlights.Gateway.Spawn` | core/task_scope.py:335-367 | a descendant exists only if it was registered while the request held its slot |
| `WebFlights.Gateway.TaskDone` | core/invocation.py:146-159 | the end of a task frees the slot only when it was the last |
| `WebFlights.Gateway.Fence` | core/invocation.py:250-256 | closes for good, seals every request, and frees only quiet slots |
| `WebFlights.Gateway.Finish` | core/invocation.py:370-445 | success, partial success or needs-selection is returned exactly when both publication checks pass, never after the fence |

## Left out

- HTTP policy and transport, card and bitmap rendering, font tables, manifest parsing, help text, start-up glue and the TypeScript contracts.
- Field validation of the SDK contract types (`validate_contract`) and result rebuilding in `core/invocation.py`.
- Floating-point rounding in the planner: weights, aspects and penalties are reals; `round` is nearest with halves to even.
- The planner's `height < needed` refusal is not a branch of `NextHeight`; its contract proves that the branch could not be taken.
- Key ledger: owner and principal matching of receipts and of the references to them, and the compare-and-swap on the ledger revision; a reference is taken to name its own receipt, as the update and grant checks guarantee.
- Key ledger: configuration writes that bypass `update_authorized`, and what an operator's request has to prove before a field is cleared or a grant revoked.
- Key ledger: the `storage_migration` purpose belongs to the migration model; there the pending operation is the source's fence.
- Key ledger and migration: update in place and aliasing of database rows and files; both are transition systems on values because every transaction or atomic file replacement is one update of maps.
- Lifecycle: update in place of the controllers' dictionaries and aliasing between modules; one module's entries are the state, and publications for other modules only move the shared revision.
- Lifecycle: candidate bookkeeping before installation (`adopt_candidate`, `discard_candidate`), service lifetimes, instance code, and how long an await takes; a resumed stop is not tied to its task's result, which allows more runs than the code.
- Admission: health revisions, dependency identities, scheduler claims and delivery membership; `CheckPasses` covers what Lifecycle and Registry decide, so the code accepts fewer leases.
- Issuer: message attachments, release observers, public session ids, and the clock moving between two checks of one `require` call; each call reads the clock once.
- Migration: byte and entry-count caps, directory depth, ACL and handle checks, the database's own content beyond fenced or activated, how the supervisor proves that the source's writers have stopped, and the target's readiness check after activation.
- Migration: a lease check and the step it guards are one step, so a lease that ends between the two is not seen; the host's damage to the root, the database file or the manifest of a published storage is excluded.
- Migration completion is about the recording order of the code with any inodes; partial writes and SQLite's auxiliary files along the way are covered by the crash theorems, not by the completion run.
- MigrationLimits.PublishesExactly: compares names exactly; on Windows, where case is folded, a source file `recovery/Migration.JSON` also occupies the manifest's name.
- Source budget: reading the sources, import hooks and resolving factories; the reader's total is at most the package limit, as its own limit check guarantees.
- Web flights: what the handler computes, diagnostics, the deadline timer as such (it is a call of `Seal`), and currency of module and lease, which are arguments of `Finish`.
