# Git for levels: a Dafny model

The repository is a version store for levels of a game editor. A level is captured as a `LevelState`: a raw header
text, a header field map, and objects under 64-bit ids. A commit stores only the delta from its parent. Everything else
replays or rewrites that history: checkout and revert put a new commit on HEAD, squash replaces a range of commits by
one, load-level copies another level's history, and a multi-file import merges packages into a chain of new commits.
The object ids are not part of the level format; a matcher finds them again at every capture.

The model follows the source file by file.

| module | content |
|---|---|
| `LevelModel`, `Differ`, `DifferLaws` | level states, equality up to empty values (`~`), diff, apply and their algebra |
| `Tables`, `TableLaws`, `CommitStore`, `Kahn` | the SQLite tables, what each operation does to them column by column, and the store as a class: transactions with deferred foreign keys, squash, history copy with its topological sort |
| `History`, `SquashHistory`, `StoreInvariants` | replaying stored history, and what each store operation keeps of it |
| `ServiceModel`, `ServiceSteps`, `ImportSteps` | the service as a state machine: cache, reconstruct, every prepare and every finalize as one step |
| `GitService`, `EndToEnd` | the service as a class whose methods are proved to be those steps, and what whole operations achieve |
| `Runs`, `ExactRuns`, `CacheRuns`, `Timeline`, `Interleavings` | properties of all runs, runs without empty values, the size of the cache, straight timelines, and concrete runs that break what one might expect |
| `SortedIds`, `Matcher`, `Identity` | object identity: fingerprint buckets and the 3x3 grid search, and what the picks mean for the objects |
| `Sorting`, `Parsing`, `KeyValues`, `GdHeader`, `HeaderMerge` | header and channel texts, printed, parsed and merged |
| `MergeService`, `MergeLaws` | three-way merge of level states |
| `LevelParser`, `HeaderText` | level strings, and the header text that a revert or a merge prints |
| `Recapture` | committing the same level again |
| `Package`, `GdgeExport`, `GdgeImport`, `ExportImport` | history packages: reconstruction, validation, export, import plan and import chain, and a level's own export imported again |

Two jobs of the service never overlap, but a prepare and its finalize are separate jobs and anything may run between
them. `Runs` therefore models every prepare and every finalize as a step of its own; a pending operation may be finalized
late, twice or never. The graph of parent and reverts edges is kept acyclic by a ghost rank that never changes once
given: ids do not fall along parent edges, because a squash gives a parent a larger id than its children.

Properties that turn out to be false of the code, each with a concrete input and an exact condition:

- Finalizing a squash on a level that lost its HEAD meanwhile leaves a commit without HEAD
  (`Interleavings.HeadlessSquash`; exact condition in `Runs.HeadsKeptIff` and `StoreInvariants.SquashKeepsHeadsIff`).
- Finalizing a load after the source's state changed succeeds and caches a wrong state for the copied HEAD
  (`Interleavings.StaleLoad`; exact condition in `ServiceSteps.FinalizeReplaceKeeps`), and a later squash then changes
  stored history (`Interleavings.StaleHistory`). The runs of `Runs` include such spoilt loads. Everything about the shape
  of the history holds in all of them; what is said about states (`Agree`) holds as long as no load was spoilt
  (`Runs.IntactIff`).
- A revert does not always preserve later header edits: a raw header is replaced as a whole or not at all
  (`HeaderText.LaterEditIsLost`, `HeaderText.UndoIsUnseen`), and in the map a key that nobody changed can lose its value
  (`DifferLaws.RevertHeaderCounterexample`). The exact condition for what is printed is in `HeaderText.RevertShownIff`,
  for the map alone in `DifferLaws.RevertHeader`.
- Committing the same text twice does not always give an empty delta: objects of one fingerprint take their ids in
  ascending order, whatever ids they had (`Recapture.TwinsSwap`; exact condition in `Recapture.RecommitEmptyIff`). A text
  printed from the stored state is recommitted without a delta (`Recapture.RecommitIsEmpty`).
- The printed header of a merge can lack an edit that the merged header map holds (`HeaderText.OursIsUnseen`). The exact
  condition is in `HeaderText.MergeReadsAlikeIff`, for the two cases with one raw header in `HeaderText.OnlyTheirsIff` and
  `HeaderText.OnlyOursIff`.
- An object of an add/add clash can be overwritten under its minted id (`MergeLaws.MintedIdCollision`; exact condition
  in `MergeLaws.AddAddSurvival`).
- An object whose only field is empty is lost when its level is printed and parsed (`LevelParser.EmptyObjectLost`; exact
  condition in `LevelParser.RereadSame`), and a header list ending in an empty value does not parse back
  (`GdHeader.HeaderRoundTrip`, `HeaderMerge.MergedTextReparses`).
- "Each level has one straight timeline" (`docs/known-issues.md:10`) holds when each prepare is finalized at once
  (`Timeline.OneTimelinePerLevel`), but not in every run: a pending checkout, revert or import may be finalized beside
  HEAD (`Interleavings.ForkedTimeline`), and a squash after its range changed (`Interleavings.SquashTwice`). The exact
  condition for every job is in `Timeline.StraightKeptIff`, and `Timeline.ReachableStraight` is the run theorem.

`dafny verify dfyconfig.toml` checks the whole project.

## Model

| member | source | states |
|---|---|---|
| `LevelModel.SameStateIff` | src/diff/Differ.cpp:9-10 | equality up to empty values (`~`) means: same raw header, and on the header and on every object every key reads the same, a missing key reading as the empty string |
| `LevelModel.SameStateExact` | src/diff/Differ.cpp:9-10 | without empty values `~` is plain equality |
| `Differ.ComputeDiffFields` | src/diff/Differ.cpp:11-29 | the two passes record exactly the keys on which the maps disagree, each with both values |
| `Differ.Diff` | src/diff/Differ.cpp:33-59 | header, raw-header, add, remove and modify entries are exactly the differences, each id once, in any order of the hash maps |
| `Differ.RemovedAndChanged` | src/diff/Differ.cpp:40-50 | removes are the ids only the old side has; modifies are the shared ids whose fields differ |
| `Differ.Added` | src/diff/Differ.cpp:52-56 | adds are the ids only the new side has, with their objects |
| `Differ.ForceHeader` | src/diff/Differ.cpp:66-75 | every header change takes effect; one stale report for each key whose value was not the expected one |
| `Differ.PatchObject` | src/diff/Differ.cpp:106-116 | an object field changes only if it still holds the expected value; one stale report for each other key |
| `Differ.ApplyDelta` | src/diff/Differ.cpp:61-120 | the in-place application with its reports computes the fold of the delta entries, adds before removes before modifies |
| `DifferLaws.ApplyCongruent` | src/diff/Differ.cpp:61-120 | applying any delta, not only a computed one, maps `~`-equal states to `~`-equal states with the same conflict list |
| `DifferLaws.DiffApply` | src/diff/Differ.cpp:33-120 | applying diff(prev, next) to prev gives next up to `~` with no conflict, and exactly next if next has no empty value |
| `DifferLaws.DiffReplay` | src/diff/Differ.cpp:33-120 | the same from any state `~`-equal to prev: what replaying stored deltas relies on |
| `DifferLaws.DiffSlot` | src/diff/Differ.cpp:83-117 | what a diff made elsewhere does to one id of any state |
| `DifferLaws.DiffQuiet` | src/diff/Differ.cpp:83-117 | it reports nothing on the objects exactly if every entry finds what it expects |
| `DifferLaws.ApplyNoEmpty` | src/diff/Differ.cpp:61-120 | deltas without empty values keep states without empty values |
| `DifferLaws.DiffNoEmpty` | src/diff/Differ.cpp:33-59 | a diff towards a state without empty values adds none |
| `DifferLaws.RevertObjects` | src/service/GitService.cpp:226-232 | undoing a commit on HEAD: its new objects go, its removed ones come back unless HEAD has them again, a modified field that still has the commit's value gets the parent's, everything else is HEAD's |
| `DifferLaws.RevertHeader` | src/diff/Differ.cpp:66-75 | on the header map alone: every key reads as parent's where the commit changed it and as HEAD's elsewhere, if and only if no key that one side holds empty and the other lacks carries a value in HEAD |
| `DifferLaws.RevertHeaderCounterexample` | src/diff/Differ.cpp:66-75 | such a key: a header map loses a value nobody changed |
| `HeaderText.ParsedReadsAlike` | src/model/LevelParser.cpp:57-70 | in every parsed level the header map reads as the header it prints |
| `HeaderText.RevertShows` | src/diff/Differ.cpp:66-82 | the header printed after a revert reads, at every key, as parent does or as HEAD does: parent wherever the undo replaces the raw text, or else the key |
| `HeaderText.RevertShownIff` | src/ui/HistoryFlows.cpp:239-243 | it reads as parent's where the commit changed the key and as HEAD's elsewhere, if and only if the undo neither replaces a key the commit left alone and HEAD reads differently by now, nor misses a key the commit changed (nor meets a map that differs from its text) |
| `HeaderText.PlainRevertIff` | src/diff/Differ.cpp:66-75 | without raw headers that is the condition on the map |
| `HeaderText.RevertReadsAlikeIff` | src/diff/Differ.cpp:66-82 | when map and printed header of the reverted state still read alike |
| `HeaderText.LaterEditIsLost` | src/diff/Differ.cpp:76-81 | a later commit's header edit is lost although the map keeps it, for a whole family of inputs |
| `HeaderText.UndoIsUnseen` | src/model/LevelParser.cpp:87-92 | a revert that reports no conflict and changes nothing one sees, because HEAD has a raw header by now |
| `DifferLaws.RevertSilentIff` | src/diff/Differ.cpp:61-117 | a revert reports no conflict if and only if HEAD still is what the commit left, wherever the undo looks |
| `DifferLaws.RevertReports` | src/diff/Differ.cpp:61-117 | the kinds it reports: an object to bring back that HEAD has again, an object to remove or change that HEAD lacks, a value that is no longer the one the commit left |
| `DifferLaws.RemovedIsGone` | src/diff/Differ.cpp:83-98 | of any delta: removes come after adds, so an id it removes is gone |
| `CommitStore.CommitStore.Begin` | src/store/CommitSchema.cpp:112-120 | a transaction remembers the tables as they are |
| `CommitStore.CommitStore.Rollback` | src/store/CommitSchema.cpp:133-138 | an open transaction restores them; a closed one does nothing |
| `CommitStore.CommitStore.CommitTx` | src/store/CommitSchema.cpp:122-131 | COMMIT keeps the new tables exactly if the foreign keys hold, and otherwise restores the old ones and fails |
| `CommitStore.CommitStore.InsertAt` | src/store/CommitStore.cpp:502-559 | a row goes in under the next id, which is never reused |
| `CommitStore.CommitStore.SetHead` | src/store/CommitStore.cpp:483-496 | HEAD of one level is replaced |
| `CommitStore.CommitStore.InsertAndSetHead` | src/store/CommitStore.cpp:104-131 | row and HEAD change together or not at all; success exactly if the references exist; the new row is stored as given, and no other row or HEAD changes |
| `CommitStore.CommitStore.Squash` | src/store/CommitStore.cpp:210-304 | all or nothing, decided by the foreign keys: the range is gone; every other commit keeps level, message, time and delta, its reverts mark unless that points into the range, and its parent unless that is the newest of the range; the new commit has the given message and the time of the newest one it replaces; a HEAD in the range is on it |
| `CommitStore.SquashStatements` | src/store/CommitStore.cpp:272-297 | the UPDATE and DELETE statements in sequence equal one simultaneous rewriting of the surviving rows |
| `CommitStore.CommitStore.DeleteCommitsAndRefs` | src/store/CommitStore.cpp:561-591 | a level loses its rows and its HEAD, other levels nothing |
| `CommitStore.CommitStore.DeleteLevel` | src/store/CommitStore.cpp:326-340 | deletion takes effect exactly if nothing else refers to the level, and touches nothing else |
| `CommitStore.CommitStore.ReplaceLevelHistoryFrom` | src/store/CommitStore.cpp:342-464 | on success dest holds a copy of every commit of src under new ids, with message, time and delta of its original and with parent and reverts on the copies of what the original refers to; HEAD is on the copy of src's HEAD and all else is untouched; on failure nothing changed, and one of the listed reasons holds |
| `CommitStore.CommitStore.CopyInTransaction` | src/store/CommitStore.cpp:417-463 | the transaction part, with the rollback when HEAD was not copied |
| `CommitStore.CommitStore.InsertCopies` | src/store/CommitStore.cpp:425-446 | the id map covers exactly the source ids with distinct new ids, and each copy has its original's row with mapped references |
| `CommitStore.CommitStore.CopyLoop` | src/store/CommitStore.cpp:426-446 | the map lookups for parent and reverts never miss |
| `CommitStore.CopiesAreNewer` | src/store/CommitStore.cpp:426-446 | every copy gets a larger id than the copies it refers to |
| `CommitStore.CopyKeepsFk` | src/store/CommitStore.cpp:361-461 | the copy satisfies the foreign keys unless something outside refers into the deleted dest history |
| `TableLaws.CopiedTables` | src/store/CommitStore.cpp:417-461 | the copy, column by column: parent and reverts are missing where the original's are, and else point to the copies |
| `CommitStore.CommitStore.List` | src/store/CommitStore.cpp:148-163 | every commit of the level once, newest time first, then largest id |
| `Kahn.BuildDegrees` | src/store/CommitStore.cpp:379-390 | in-degrees count distinct references and the reverse lists are exact |
| `Kahn.StartQueue` | src/store/CommitStore.cpp:394-399 | the queue starts with exactly the commits without references |
| `Kahn.Decrement` | src/store/CommitStore.cpp:404-409 | each waiting commit loses one, and those reaching zero are released once |
| `Kahn.TopoOrder` | src/store/CommitStore.cpp:379-415 | the order has no repeats and every reference precedes its user; it covers all commits whenever the references are acyclic |
| `History.SimulationReplays` | src/service/GitService.cpp:497-533 | commits related by a map that keeps deltas and parents replay to the same state |
| `History.GroundedIsAcyclic` | src/service/GitService.cpp:506-519 | a rank that falls along parent and reverts edges makes the graph acyclic |
| `History.InsertEvolves` | src/store/CommitStore.cpp:104-131 | an insert changes no other replay and gives the new commit its delta on top of its parent |
| `History.DeleteEvolves` | src/store/CommitStore.cpp:326-340 | deleting a level passes the foreign keys and keeps every other replay |
| `History.CopyEvolves` | src/store/CommitStore.cpp:342-464 | a history copy keeps every surviving replay, and each copy replays to its original's state |
| `SquashHistory.SquashReplay` | src/store/CommitStore.cpp:272-303 | each surviving commit replays as before, although its parent may now have a larger id |
| `SquashHistory.NewReplay` | src/service/GitService.cpp:284-300 | the squashed commit replays to the state of the newest one it replaces |
| `SquashHistory.SquashEvolves` | src/store/CommitStore.cpp:210-304 | a squash that passes the check keeps all history and the rank |
| `SquashHistory.SquashHeads` | src/store/CommitStore.cpp:287-295 | every level's HEAD replays to the same state before and after |
| `SquashHistory.BranchBlocksSquash` | src/store/CommitStore.cpp:297-301 | a commit branching off inside the range fails the check and leaves the store as it was |
| `SquashHistory.SquashSucceedsIff` | src/store/CommitStore.cpp:272-303 | squashing a contiguous range succeeds if and only if nothing branches off inside it |
| `ServiceModel.CachePutCoherent` | src/service/GitService.cpp:601-609 | replacing, inserting or flushing a full cache keeps it coherent |
| `ServiceModel.ReconRefines` | src/service/GitService.cpp:497-533 | reconstruct with cache, flushes in mid-replay included, refines the uncached replay and leaves the cache coherent |
| `ServiceModel.FetchOk` | src/service/GitService.cpp:497-533 | an existing commit is always found, its state is its replay (while intact), and changes to the cache stay coherent |
| `ServiceModel.FetchExact` | src/service/GitService.cpp:497-533 | without empty values in store and cache reconstruct returns exactly the replay (while the history is intact) |
| `ServiceModel.FetchCaches` | src/service/GitService.cpp:521-532 | what was fetched of an existing commit is in the cache afterwards |
| `CacheRuns.CacheBounded` | src/service/GitService.cpp:601-609 | in every run the cache never holds more than its capacity, or one entry |
| `ExactRuns.ReachableNoEmpty` | src/service/GitService.cpp:497-533 | in a run whose captured and merged states hold no empty value, nothing stored, cached or pending ever does |
| `ExactRuns.ReconstructIsExact` | src/service/GitService.cpp:497-533 | so in every state of such a run without a spoilt load before it reconstruct returns exactly the replay of every existing commit |
| `ExactRuns.HistoryIsExact` | src/service/GitService.cpp:497-533 | and a commit replays to the very same state for as long as it exists |
| `ServiceModel.PromiseStable` | src/service/PendingOps.hpp:16-42 | what a prepare recorded stays right whatever jobs run before its finalize: always about ids, levels and ranges, and about states while the history is intact |
| `StoreInvariants.InsertKeepsInv` | src/store/CommitStore.cpp:104-131 | references stay in their level and HEADs childless |
| `StoreInvariants.DeleteKeepsInv` | src/store/CommitStore.cpp:326-340 | the same for deletion |
| `StoreInvariants.SquashKeepsInv` | src/store/CommitStore.cpp:210-304 | the same for squash |
| `StoreInvariants.CopyKeepsInv` | src/store/CommitStore.cpp:342-464 | the same for load-level |
| `StoreInvariants.CopySucceeds` | src/store/CommitStore.cpp:350-461 | on a level with a HEAD none of the reasons to refuse a history copy applies |
| `StoreInvariants.SquashKeepsHeadsIff` | src/store/CommitStore.cpp:237-295 | a squash keeps "a level with commits has a HEAD" if and only if its level has a HEAD at that moment |
| `ServiceSteps.InsertThenKeeps` | src/service/GitService.cpp:183-192 | insert and cache: succeeds exactly if the references still exist |
| `ServiceSteps.CommitKeeps` | src/service/GitService.cpp:70-133 | a commit always goes through and the new HEAD replays to what was captured |
| `ServiceSteps.PrepareCheckoutKeeps` | src/service/GitService.cpp:135-181 | preparing a checkout changes no history, and the pending delta leads from HEAD to the target |
| `ServiceSteps.PrepareRevertKeeps` | src/service/GitService.cpp:194-246 | the same for a revert |
| `ServiceSteps.FinalizeHeadKeeps` | src/service/GitService.cpp:183-192 | the finalized commit replays to the previewed state, or nothing changed |
| `ServiceSteps.PrepareSquashKeeps` | src/service/GitService.cpp:248-313 | the same for a squash |
| `ServiceSteps.FinalizeSquashKeeps` | src/service/GitService.cpp:315-329 | history, graph and cache are kept; the new commit replays to the previewed state, or nothing changed |
| `ServiceSteps.PrepareReplaceKeeps` | src/service/GitService.cpp:331-355 | preparing a load changes no history |
| `ServiceSteps.FinalizeReplaceKeeps` | src/service/GitService.cpp:357-368 | a load that succeeds always keeps the shape of the store and puts a copy of the source HEAD's state on dest; its cache entry is right if and only if the source still shows the prepared state; one that fails changes nothing |
| `ServiceSteps.UnmovedShows` | src/service/PendingOps.hpp:34-37 | while the history is intact it still shows it if its HEAD is the one the prepare saw |
| `ServiceSteps.SquashKeepsShowing` | src/store/CommitStore.cpp:287-295 | and it still does after a squash of the source, which moves HEAD and keeps its state |
| `ServiceSteps.DeleteKeeps` | src/ui/LevelBrowserLayer.cpp:300-301 | deleting a level and clearing the cache keeps all other history |
| `ImportSteps.ChainReplays` | src/service/GdgeImportMerge.cpp:91-151 | replaying the pending commits on the old HEAD gives every running state up to `~` |
| `ImportSteps.RunInvariant` | src/service/GitService.cpp:448-472 | what each turn of the insert loop keeps holds when it stops, at the end or at the entry that failed |
| `ImportSteps.PrepareImportKeeps` | src/service/GitService.cpp:409-440 | preparing an import changes no history, and replaying its pending commits will give the payload state |
| `ImportSteps.FinalizeImportKeeps` | src/service/GitService.cpp:442-474 | all entries land and HEAD replays to the payload state, or the base is gone and nothing changed: it never stops half-way |
| `ImportSteps.ImportAdds` | src/service/GitService.cpp:448-472 | an import that succeeds adds exactly its chain: the entries in order under the next ids, each on top of the one before, HEAD on the last, nothing else |
| `GitService.GitService.Put` | src/service/GitService.cpp:601-609 | the cache entry is replaced or inserted, after clearing a full cache |
| `GitService.GitService.Reconstruct` | src/service/GitService.cpp:497-533 | the two loops terminate and compute the recursive reconstruction, cache included; an existing commit is always found |
| `GitService.GitService.WalkDown` | src/service/GitService.cpp:506-519 | the loop without cycle guard terminates, and what is left to replay on its stop is the whole reconstruction |
| `GitService.GitService.Commit` | src/service/GitService.cpp:70-133 | a commit is the `CommitStep` on the parsed and matched level; the row stored has the old HEAD as parent, no reverts mark, the given message and time and the captured delta |
| `GitService.GitService.InsertAndCache` | src/service/GitService.cpp:183-192 | store and cache after an insert |
| `GitService.GitService.PrepareCheckout` | src/service/GitService.cpp:135-181 | returns the target's state and a delta from HEAD to it; every error branch |
| `GitService.GitService.FinalizeCheckout` | src/service/GitService.cpp:183-192 | the pending row on top of the store as it now is, for any pending value; the service stays valid if a prepare handed it out |
| `GitService.GitService.PrepareRevert` | src/service/GitService.cpp:194-246 | diff(target, parent) applied to HEAD, and the delta from HEAD to the result |
| `GitService.GitService.PrepareSquash` | src/service/GitService.cpp:248-313 | accepts exactly a contiguous range of the level, with the delta from its base to its newest state |
| `GitService.GitService.FinalizeSquash` | src/service/GitService.cpp:315-329 | squash, clear the cache, cache the previewed state, for any pending value; the service stays valid if a prepare handed it out |
| `GitService.GitService.PrepareImportLevelFrom` | src/service/GitService.cpp:331-355 | the source HEAD's state, or an error for equal levels or a missing HEAD |
| `GitService.GitService.FinalizeImportLevelFrom` | src/service/GitService.cpp:357-368 | succeeds if and only if the levels differ and the source has a HEAD, whatever ran since the prepare; after a success every cached commit holds its replay if and only if the source still shows the prepared state |
| `GitService.GitService.DeleteLevel` | src/ui/LevelBrowserLayer.cpp:300-301 | the level is gone and the cache empty |
| `GitService.GitService.ReconstructRoot` | src/service/GitService.cpp:22-36 | always found: the state of a parentless commit of the level, and the empty state exactly for a level without commits |
| `GitService.GitService.ClassifyImports` | src/service/GitService.cpp:584-595 | the three lists are the smart, sequential and unusable files against the state of a root of the level |
| `GitService.GitService.PrepareImportManyFromGdge` | src/service/GitService.cpp:409-440 | succeeds if and only if some sequential file loads or the smart ones all do; the payload is HEAD's state with the heads of exactly those files merged in against the level's root; merged plus skipped is the number of files |
| `GitService.GitService.MergePlan` | src/service/GitService.cpp:417-439 | the same for a plan: HEAD's state, the merge root, and the fold of the merges |
| `GitService.GitService.FinalizeImportManyFromGdge` | src/service/GitService.cpp:442-474 | the insert loop with its parent-index check, for any pending chain; the service stays valid if a prepare handed it out |
| `GitService.GitService.Checkout` | src/service/GitService.cpp:535-542 | succeeds if and only if the level has a HEAD and the target is one of its commits; HEAD then shows the target's state in a commit on top of the old HEAD that is marked with the target (nothing is stored if HEAD is the target), and a failure changes nothing |
| `GitService.GitService.Revert` | src/service/GitService.cpp:544-551 | succeeds if and only if the target is a commit of the level with a parent; the payload is the old HEAD with the target undone, and HEAD ends at it, in a commit on top of the old HEAD that is marked with the target |
| `GitService.GitService.Squash` | src/service/GitService.cpp:553-562 | succeeds if and only if the ids are a contiguous range of the level and no commit branches off inside it; every surviving commit and HEAD keeps its state, its columns and any reverts mark from outside the range; the new commit replays to the previewed state, has the range's base as parent, the given message and the newest commit's time; a failure changes nothing |
| `GitService.SquashGoesThrough` | src/service/GitService.cpp:248-329 | a prepared squash passes the foreign-key check at once if and only if no commit branches off inside the range |
| `GitService.GitService.ImportLevelFrom` | src/service/GitService.cpp:564-571 | succeeds if and only if the levels differ and src has a HEAD; then dest holds a copy of every commit of src, reverts marks included, its HEAD shows src's HEAD state, and nothing else changed |
| `GitService.GitService.ImportManyFromGdge` | src/service/GitService.cpp:573-582 | succeeds exactly when something merges; HEAD then shows the old HEAD's state with the heads of the files merged in, in a chain of commits on top of the old HEAD, and a failure changes nothing |
| `GitService.GitService.ExportLevel` | src/service/GitService.cpp:370-400 | succeeds if and only if the level has a HEAD; the package passes the index checks, its HEAD is the replay of the level's HEAD, its root hash is that of a parentless commit's state, and it holds every commit of the level |
| `GitService.RootExists` | src/service/GitService.cpp:25-36 | below every commit of a level there is one without parent |
| `Runs.HistoryNeverChanges` | src/service/GitService.cpp:497-533 | with any jobs between a prepare and its finalize, a commit replays to the same state for as long as it exists, unless a load before was spoilt (finalized after its source changed) |
| `Runs.GoneStaysGone` | src/store/CommitSchema.cpp:42 | in every run, a deleted commit id never comes back |
| `Runs.ReconstructIsReplay` | src/service/GitService.cpp:497-533 | in every reachable state reconstruct finds every existing commit; if no load was spoilt it returns its replay, and every cached commit holds its own |
| `Runs.ReachableGraph` | src/store/CommitSchema.cpp:41-56 | in every reachable state, after spoilt loads too, parents and reverts exist in the same level, the graph is acyclic and HEADs have no children |
| `Runs.ReachableGood` | src/util/GitWorker.hpp:16-24 | every reachable state satisfies the invariants, and every pending operation ever handed out still keeps its promise; what these say about states holds while no load is spoilt |
| `Runs.IntactIff` | src/service/GitService.cpp:357-366 | the history variable of these invariants says exactly that: no load so far was finalized after its source had changed |
| `Runs.HeadsKeptIff` | src/service/GitService.cpp:315-329 | one job keeps "commits exactly where there is a HEAD" if and only if it is not a squash that goes through on a level without HEAD |
| `Runs.ReachableHeads` | src/store/CommitStore.cpp:104-131 | so it holds throughout every run without such a squash |
| `Interleavings.HeadlessSquash` | src/service/GitService.cpp:315-329 | a run with such a squash: a level with a commit and no HEAD |
| `Interleavings.StaleLoad` | src/service/GitService.cpp:357-366 | a run with a commit on the source between the two phases of a load, which succeeds and leaves a wrong state in the cache |
| `Interleavings.StaleHistory` | src/service/GitService.cpp:357-366 | that run goes on with two empty commits and a squash, which changes the replayed state of a commit it should leave alone |
| `Timeline.OneTimelinePerLevel` | docs/known-issues.md:10 | if every prepare is finalized at once, each level's commits form one path from a single root to HEAD |
| `Timeline.StraightKeptIff` | docs/known-issues.md:10 | one job keeps the timelines straight if and only if it is no checkout, revert or import finalized beside HEAD and no squash that goes through on a changed range |
| `Timeline.ReachableStraight` | docs/known-issues.md:10 | so they stay straight in every run without such a job |
| `Timeline.InsertStraightIff` | src/store/CommitStore.cpp:104-131 | an insert keeps them straight if and only if its parent is HEAD |
| `Timeline.SquashStraightIff` | src/store/CommitStore.cpp:272-303 | a squash that goes through keeps them straight if and only if its range is still whole in the tables |
| `Timeline.ImportBends` | src/service/GitService.cpp:448-472 | an import whose base is no longer HEAD leaves two commits on one parent, or two roots |
| `Interleavings.ForkedTimeline` | docs/known-issues.md:10 | a run with a commit between the two phases of a checkout: a commit with two children |
| `Interleavings.SquashTwice` | docs/known-issues.md:10 | a run that finalizes one squash twice: a level with a HEAD and two roots |
| `Timeline.SquashStraight` | src/store/CommitStore.cpp:272-303 | a squash shortens a straight timeline to a straight timeline |
| `Timeline.CopyStraight` | src/store/CommitStore.cpp:426-459 | a load copies a straight timeline |
| `EndToEnd.CommitLossless` | src/service/GitService.cpp:85-110 | while no load was spoilt, the new HEAD replays to the parsed level: same raw header, same header map, and a one-to-one pairing of all objects with the same fields, up to `~` |
| `EndToEnd.DeletionCommit` | src/service/GitService.cpp:85-110 | so committing a level after deleting objects stores the removal of exactly these |
| `EndToEnd.RevertHeadRestores` | src/service/GitService.cpp:218-246 | while no load was spoilt, reverting the newest commit gives back its parent's state without conflicts |
| `EndToEnd.RevertOfRevert` | src/service/GitService.cpp:183-246 | reverting a finalized checkout or revert restores the HEAD before it, even if it met conflicts |
| `EndToEnd.RevertShownOnHead` | src/ui/HistoryFlows.cpp:239-243 | the condition of `HeaderText.RevertShownIff`, on the states the service read, decides what the new HEAD's replay prints, against the replays of target, parent and old HEAD, with any jobs between prepare and finalize |
| `Matcher.BuildIndex` | src/identity/Matcher.cpp:133-149 | buckets are ascending and hold exactly the ids of their fingerprint, cells exactly those of their cell |
| `Matcher.PopUnclaimed` | src/identity/Matcher.cpp:165-176 | the first unclaimed id of the bucket; only claimed ids are dropped with it |
| `Matcher.NeighbourFloors` | src/identity/Matcher.cpp:107-116 | coordinates less than a cell apart lie in the same or in neighbouring cells |
| `Matcher.NearInNineCells` | src/identity/Matcher.cpp:107-122 | everything of the type within the threshold lies in the nine cells around |
| `Matcher.ScanCell` | src/identity/Matcher.cpp:191-198 | one cell refines the best so far |
| `Matcher.SearchGrid` | src/identity/Matcher.cpp:182-203 | the 3x3 search returns the nearest unclaimed object of the type within the threshold, and 0 exactly if there is none |
| `Matcher.GridIsFullScan` | src/identity/Matcher.cpp:182-203 | being best in nine cells is being best of all previous objects |
| `Matcher.MatchOne` | src/identity/Matcher.cpp:160-213 | least unclaimed id of the fingerprint, else nearest, else fresh; every bucket still holds every unclaimed id of its fingerprint |
| `Matcher.AssignFreshUuids` | src/identity/Matcher.cpp:218-226 | every object moves to its own fresh id with its fields |
| `Matcher.AssignUuids` | src/identity/Matcher.cpp:126-216 | no id is used twice, no object is lost or altered beyond its id, each pick is the right one given those before, and the three statistics count the picks and sum to the object count |
| `Matcher.NextOfClass` | src/identity/Matcher.cpp:160-176 | with the least ids of its fingerprint taken, an object takes the next one |
| `Matcher.KthTakesKth` | src/identity/Matcher.cpp:126-216 | of field maps captured before under any ids, the k-th object of a fingerprint in text order takes the k-th smallest id of that fingerprint |
| `Matcher.SameIdsAgain` | src/identity/Matcher.cpp:126-216 | so the set of ids is the same again |
| `Matcher.RecaptureKeepsIdsIff` | src/identity/Matcher.cpp:126-216 | every object gets its own id back if and only if, of every fingerprint, the field maps come in the same order by id as in the text |
| `Identity.PicksMean` | src/identity/Matcher.cpp:97-122 | every pick in terms of field texts and coordinates: the least unclaimed id with equal type, rotation and groups and equally rounded coordinates; else a nearest one of the type less than 32 away; else an id that is new |
| `Identity.FingerprintPickClose` | src/identity/Matcher.cpp:97-105 | a pick by fingerprint has the previous object's type, rotation and groups and is at most 1 away in each coordinate |
| `Identity.EqualFieldsPick` | src/identity/Matcher.cpp:97-105 | an unclaimed object with the same type, coordinates, rotation and groups forces one |
| `Identity.StatsMean` | src/identity/Matcher.cpp:178-211 | the three statistics are the numbers of picks of each kind |
| `Identity.DropsAreRemoves` | src/identity/Matcher.cpp:126-216 | if no two objects of the base look the same within 1 of each other, a capture that only drops objects keeps every other id, and its delta is exactly those removes |
| `Parsing.SplitView` | src/util/format/Parsing.cpp:7-17 | the cutting loop yields the pieces between delimiters, empty ones included |
| `Parsing.SplitJoin` | src/util/format/Parsing.cpp:7-17 | splitting undoes joining: there is only one way to cut a text into delimiter-free pieces |
| `Parsing.JoinSplit` | src/util/format/Parsing.cpp:7-17 | joining undoes splitting |
| `Parsing.ParseIntText` | src/util/format/Parsing.cpp:19-23 | a printed 32-bit integer parses back |
| `KeyValues.PrintKv` | src/model/GdHeader.cpp:35-43 | the printing loop separates keys and values by the delimiter |
| `KeyValues.SplitKvText` | src/model/GdHeader.cpp:19-43 | splitting a printed list gives its keys and values back |
| `GdHeader.ParseHeader` | src/model/GdHeader.cpp:19-33 | an even number of tokens with distinct keys, or nothing |
| `GdHeader.SerializeHeader` | src/model/GdHeader.cpp:35-43 | the printed list |
| `GdHeader.ParsedHeaderClean` | src/model/GdHeader.cpp:19-33 | a parsed list repeats no key and holds no delimiter |
| `GdHeader.HeaderRoundTrip` | src/model/GdHeader.cpp:19-43 | a printed list parses back exactly, except that a list ending in an empty value does not parse at all |
| `GdHeader.ParsedPrints` | src/model/GdHeader.cpp:19-43 | parsing a header text and printing it gives the text, less a delimiter at its end |
| `GdHeader.ParseChannels` | src/model/GdHeader.cpp:46-71 | records with integer keys and distinct channel ids, or nothing |
| `GdHeader.LastKeyWins` | src/model/GdHeader.cpp:55-61 | a record parses exactly if it pairs up and its keys are integers; of equal keys the last one counts |
| `GdHeader.SerializeChannels` | src/model/GdHeader.cpp:73-90 | records in ascending channel order, fields in ascending key order |
| `GdHeader.ChannelsInOrder` | src/model/GdHeader.cpp:73-90 | channels are printed by ascending number, and the fields of each by ascending key |
| `GdHeader.ChannelsRoundTrip` | src/model/GdHeader.cpp:46-90 | well-formed channels print and parse back exactly |
| `GdHeader.ParsedChannelsGood` | src/model/GdHeader.cpp:46-71 | whatever parses is well-formed |
| `GdHeader.ChannelTextStable` | src/model/GdHeader.cpp:46-90 | every accepted channel text v satisfies parse(serialize(parse(v))) = parse(v) |
| `HeaderMerge.MergeChannelMaps` | src/model/GdHeader.cpp:155-187 | channel by channel three-way merge and its conflict count |
| `HeaderMerge.MergeWhole` | src/model/GdHeader.cpp:150-188 | the shortcuts and the merge loop |
| `HeaderMerge.ShortcutsAreExact` | src/model/GdHeader.cpp:150-188 | the whole-map shortcuts give the same channels and the same conflict count as the per-channel merge, absent read as empty |
| `HeaderMerge.MergeHeaders3Way` | src/model/GdHeader.cpp:92-206 | the merged text and conflict count; nothing if one of the texts does not parse |
| `HeaderMerge.MergedHeaderValue` | src/model/GdHeader.cpp:111-203 | reading the merged list back gives at every key the merge of the three values |
| `HeaderMerge.MergedOrder` | src/model/GdHeader.cpp:111-121 | the merged list is what is left of ours, in ours' order, then what is left of theirs' new keys, in theirs' order |
| `HeaderMerge.OursListKept` | src/model/GdHeader.cpp:111-203 | if theirs is base, or is ours, it is ours' list, order included (without a channel text) |
| `HeaderMerge.HeaderConflictsSymmetric` | src/model/GdHeader.cpp:92-206 | swapping ours and theirs keeps the conflict count |
| `HeaderMerge.HeaderMergeCommutes` | src/model/GdHeader.cpp:92-206 | a merge without conflicts gives the same values whichever side is ours |
| `HeaderMerge.UntouchedSide` | src/model/GdHeader.cpp:132-203 | if one side left a value alone the other side's is taken, without conflict if and only if the channel texts parse |
| `HeaderMerge.OursWinsInHeader` | src/model/GdHeader.cpp:144-202 | in a conflict ours stays, for the whole text or the channel in conflict |
| `HeaderMerge.MergedChannelTextParses` | src/model/GdHeader.cpp:132-192 | the merged channel text parses back to the merged channels |
| `HeaderMerge.ChannelPicked` | src/model/GdHeader.cpp:150-192 | read back, the merged text holds each channel as ours has it, or as theirs where ours left it alone |
| `HeaderMerge.MergedTextReparses` | src/model/GdHeader.cpp:19-33 | the merged text parses back to the merged list if and only if that is empty or its last value is not empty |
| `MergeService.MergeFieldMap` | src/service/MergeService.cpp:15-49 | key by key merge into a copy of ours, with the number of clashing keys |
| `MergeService.MergedFieldAt` | src/service/MergeService.cpp:15-49 | every key reads as ours unless only theirs changed it, whatever the map order |
| `MergeService.MergedFieldStored` | src/service/MergeService.cpp:15-49 | an empty merged value is stored only where the sides all differ and ours stores it |
| `MergeService.MergeRawHeader` | src/service/MergeService.cpp:52-68 | structured merge, or the whole-text fallback |
| `MergeService.FindFirstFree` | src/service/MergeService.cpp:77-80 | the counter after ours' ids in some order of the hash map, wrapping at the largest 64-bit id |
| `MergeService.FirstFreeAbove` | src/service/MergeService.cpp:77-80 | one above ours' largest id unless ours holds the largest 64-bit id |
| `MergeService.MergeOneId` | src/service/MergeService.cpp:82-127 | all branches for one id, with its conflicts |
| `MergeService.MergeStates3Way` | src/service/MergeService.cpp:9-130 | the whole merge over the ascending union of ids |
| `MergeLaws.MergedObjects` | src/service/MergeService.cpp:82-127 | without add/add clashes every object is the merge of its three versions, independently of the order |
| `MergeLaws.MergeIdentities` | src/service/MergeService.cpp:9-130 | merge(b,b,t) = t, merge(b,o,b) = o and merge(b,x,x) = x up to `~`, with no conflict, on header map and objects |
| `MergeLaws.RawHeaderIdentities` | src/service/MergeService.cpp:51-68 | the same on the raw header: kept whole if it is no list; else every value is the expected one, without conflict if and only if the channel texts parse |
| `MergeLaws.OursTextKept` | src/service/MergeService.cpp:51-68 | so merge(b,o,b) and merge(b,o,o) keep ours' raw header text, less a delimiter at its end, unless it has a channel text |
| `HeaderText.MergeShows` | src/service/MergeService.cpp:51-68 | the header printed after a merge reads, key by key, as the merge of the three raw headers |
| `HeaderText.MergeReadsAlikeIff` | src/service/MergeService.cpp:15-68 | at a key where text and map of both sides read alike, those of the merge do if and only if no raw text is left, or ours changed its entry in the text exactly if it changed the value in the map, or both sides agree on the value; where the text takes the key from a side without raw header, if and only if the map's value is empty |
| `HeaderText.TextGoneIff` | src/service/MergeService.cpp:51-68 | no raw text is left if and only if every entry of ours is base's and gone from theirs and every entry of theirs is base's too and gone from ours (as whole text: if the side that is kept has none) |
| `HeaderText.MergedTextReads` | src/model/GdHeader.cpp:111-203 | every other key reads in the merged text as in the raw header of theirs where ours kept base's entry, and of ours elsewhere |
| `HeaderText.OnlyTheirsIff` | src/service/MergeService.cpp:51-68 | if only theirs has a raw header, they read alike if and only if ours left the key alone or both sides agree |
| `HeaderText.OnlyOursIff` | src/service/MergeService.cpp:51-68 | if only ours has one, if and only if ours changed the key or both sides agree |
| `HeaderText.MergeReadsAlike` | src/service/MergeService.cpp:15-68 | if all three have a raw header, text and map of the merge read alike outside the channels |
| `HeaderText.OursIsUnseen` | src/service/MergeService.cpp:51-68 | a whole family of merges, only theirs with a raw header, where ours' header edit is in the merged map but not in the merged text |
| `MergeLaws.ConflictCountSymmetric` | src/service/MergeService.cpp:9-130 | the conflict count is the same when ours and theirs are swapped, raw header included |
| `MergeLaws.ConflictsCounted` | src/service/MergeService.cpp:9-130 | what the count counts: header keys and object fields on which all three sides differ, objects that one side changed and the other deleted, and the conflicts of the raw header |
| `MergeLaws.QuietMergeCommutes` | src/service/MergeService.cpp:9-130 | merges without conflicts and add/add clashes commute |
| `MergeLaws.QuietRawHeaderCommutes` | src/service/MergeService.cpp:51-68 | so does the raw header, value by value |
| `MergeLaws.OursWinsConflicts` | src/service/MergeService.cpp:42-47 | ours stands in every conflict: clashing fields, edit against delete, add against add |
| `MergeLaws.AddAddSurvival` | src/service/MergeService.cpp:102-109 | in an add/add clash ours keeps the id, and theirs survives under the minted id if and only if base and theirs leave that id alone |
| `MergeLaws.BothSurvive` | src/service/MergeService.cpp:102-109 | with minted ids outside all three inputs both objects survive |
| `MergeLaws.MintedIdCollision` | src/service/MergeService.cpp:77-109 | without that condition theirs can be overwritten and lost, uncounted |
| `LevelParser.ReadKvChunk` | src/model/LevelParser.cpp:14-26 | first of equal keys wins, empty keys and an odd token are skipped, one empty token at the end is dropped |
| `LevelParser.FirstKeyWins` | src/model/LevelParser.cpp:20-24 | of equal keys in a chunk the first one counts; empty keys do not |
| `LevelParser.SerializeFields` | src/model/LevelParser.cpp:28-53 | fields in ascending key order |
| `LevelParser.ParseLevelString` | src/model/LevelParser.cpp:57-81 | header chunk, then one object for each chunk with fields, under its place |
| `LevelParser.PrintedHeaderIsMap` | src/model/LevelParser.cpp:63-69 | a header as the printer prints it is kept as map alone |
| `LevelParser.SerializeLevelString` | src/model/LevelParser.cpp:83-108 | header chunk, then the objects in ascending id order |
| `LevelParser.RereadFields` | src/model/LevelParser.cpp:14-53 | printed fields read back exactly, except that the last pair is lost if its value is empty |
| `LevelParser.RereadSame` | src/model/LevelParser.cpp:14-53 | so nothing but an empty value is ever lost, and an object vanishes only if its single field is empty |
| `LevelParser.PrintStartsWithHeader` | src/model/LevelParser.cpp:63-93 | printing a parsed level starts with its original header chunk, byte for byte |
| `LevelParser.SplitLevel` | src/model/LevelParser.cpp:83-108 | splitting a printed level gives its chunks back |
| `LevelParser.ReparsedObject` | src/model/LevelParser.cpp:57-108 | a parsed state printed and parsed again: the header exactly, and the i-th object reread under placeholder i |
| `LevelParser.EmptyObjectLost` | src/model/LevelParser.cpp:71-78 | an object that parsing accepts and printing loses |
| `Recapture.ReparsedAll` | src/model/LevelParser.cpp:57-108 | without empty values all objects come back, in order |
| `Recapture.RecommitEmptyIff` | src/service/GitService.cpp:85-95 | committing a captured text again gives an empty delta if and only if, of every fingerprint, the field maps come in the same order by id as in the text |
| `Recapture.TwinsSwap` | src/identity/Matcher.cpp:137-176 | two objects of one fingerprint whose first capture gave the first one the larger id: the second capture swaps the ids, and the delta is not empty |
| `Recapture.FirstCapture` | src/identity/Matcher.cpp:218-226 | such a first capture may happen |
| `Recapture.RecommitIsEmpty` | src/model/LevelParser.cpp:95-108 | a text printed from the state itself lists the ids in order, so recommitting it keeps every id and gives an empty delta |
| `EndToEnd.SecondCommitEmptyIff` | src/service/GitService.cpp:70-133 | the same for two commits of one text through the service, empty values included: the second delta starts from exactly the captured state |
| `EndToEnd.HeadIsCaptured` | src/service/GitService.cpp:106-110 | because the commit caches the captured state under the new HEAD |
| `Package.RootedUnique` | src/service/PackageReconstruction.cpp:21-31 | a package has at most one complete chain from its head |
| `Package.WalkChain` | src/service/PackageReconstruction.cpp:21-31 | the walk with its cycle check stops, at a root or at a missing index or cycle |
| `Package.ReplayChain` | src/service/PackageReconstruction.cpp:32-39 | the deltas oldest first, or nothing if one does not parse |
| `Package.ReconstructPackageHead` | src/service/PackageReconstruction.cpp:13-41 | the replay of the head's chain, or one of the three reasons to fail |
| `Package.LastIndexed` | src/service/PackageReconstruction.cpp:15-20 | of commits with one index the last one counts |
| `Package.PackageHeadIff` | src/service/PackageReconstruction.cpp:13-41 | on any package there is a HEAD state if and only if the head is named, its chain meets no missing index or cycle, and its deltas parse |
| `Package.ValidateDataReason` | src/store/GdgePackage.cpp:77-107 | no reason exactly if the texts are present, the indexes are 0 to n-1 once each, and all references are in range |
| `Package.ValidMeans` | src/store/GdgePackage.cpp:77-107 | the checks spelled out: no empty text, exactly the indexes from 0 on, and every reference one of them |
| `Package.CountsUpIff` | src/store/GdgePackage.cpp:82-92 | a sorted list counts up exactly if it holds each index once |
| `Package.ValidOnlyCycles` | src/store/GdgePackage.cpp:94-105 | a package that passes the checks has no missing index on any chain |
| `GdgeExport.BuildGdgePackageFromCommits` | src/store/GdgeExport.cpp:8-48 | every row renumbered with its references, or an unlisted reference |
| `GdgeExport.ExportIsValid` | src/store/GdgeExport.cpp:16-44 | an exported package passes the index checks |
| `GdgeExport.ExportSucceeds` | src/store/GdgeExport.cpp:20-41 | listing a whole level never fails to export |
| `GdgeExport.ExportReconstructs` | src/store/GdgeExport.cpp:8-48 | export then reconstruct gives exactly the replay of HEAD, whatever the order of the rows |
| `GdgeExport.ExportHolds` | src/store/GdgeExport.cpp:8-48 | the package holds the level: every commit once, oldest first, with its message, time and delta and its parent and reverts as indexes; level key and head index are right |
| `ExportImport.OwnExportImports` | src/service/GdgeImportPlanner.cpp:33-38 | a level's own export is planned smart and its import goes through; if HEAD reads as it replays, header map and objects stay as they are, without conflict |
| `ExportImport.SecondImportWins` | src/service/GdgeImportMerge.cpp:117-149 | two files into an empty level: the first becomes the root of the second merge, so the level ends at the second |
| `GdgeImport.ClassifyImports` | src/service/GdgeImportPlanner.cpp:9-43 | each file lands in the list its package calls for, in the order given |
| `GdgeImport.PlanConserves` | src/service/GdgeImportPlanner.cpp:13-42 | every file lands in exactly one of the three lists |
| `GdgeImport.PlannedAs` | src/service/GdgeImportPlanner.cpp:18-41 | which list a file lands in: smart with the root's hash, sequential with another one, and otherwise unusable |
| `GdgeImport.LoadGdgeHead` | src/service/GdgeImportMerge.cpp:19-33 | the head state of a loadable file, or an error |
| `GdgeImport.MergeSmart` | src/service/GdgeImportMerge.cpp:59-76 | all smart files folded into one merge, or none if one does not load |
| `GdgeImport.MergeFile` | src/service/GdgeImportMerge.cpp:117-149 | one more pending commit, on top of the one before, with its delta and merge root |
| `GdgeImport.MergeSequential` | src/service/GdgeImportMerge.cpp:109-153 | each file merged or skipped, in order |
| `GdgeImport.SealChain` | src/service/GdgeImportMerge.cpp:161-164 | the finished chain: parents by earlier index, one level, the state to cache on the last entry |
| `GdgeImport.PrepareImportMany` | src/service/GdgeImportMerge.cpp:39-169 | pending chain, payload state and counts: merged = smart + sequential, merged + skipped = files, and every running state is the merge of the one before with its file |

## Left out

- SQLite itself: a failing statement or disk, an unopened database and schema versions; a transaction here fails only at its foreign-key check.
- The delta text and its compression: deltas are stored as values, so a stored delta of the local store always parses. In packages the parse result is part of the input.
- The size limit for a stored delta (`src/store/CommitStore.cpp:535-537`).
- Files and archives: what reading a package gives is an input, once for the plan and once for the merge.
- Clocks and the random generator: times are parameters, and fresh ids are draws that do not repeat and are not in use.
- `Matcher.AssignUuids`: `strtod` is an arbitrary function into the reals, without rounding, NaN or overflow of `lround` and of the cell numbers; a statement about the right picks assumes that id 0, the placeholder, is not stored.
- `Identity.PicksMean`: assumes that id 0, the placeholder, is not stored.
- `Identity.DropsAreRemoves`: the same assumption.
- `EndToEnd.DeletionCommit`: the same assumption.
- `MergeLaws.OursTextKept`: leaves out headers with a channel text, which the merge prints anew (`GdHeader.ChannelsInOrder` and `HeaderMerge.ChannelPicked` say how).
- `ExportImport.OwnExportImports`: that header map and objects stay as they are is proved where HEAD reads exactly as it replays; the add/add test compares field maps exactly, so a cached state that differs in empty values can count as changed.
- `MergeLaws.AddAddSurvival`: assumes that, if anything is minted, ours does not hold the largest 64-bit id and no minted id wraps.
- `MergeLaws.OursWinsConflicts`: the same assumption.
- `MergeLaws.BothSurvive`: the same assumption.
- `HeaderText.RevertShownIff`: where no raw header is left, header maps as parsing leaves them, without empty keys and without delimiters inside keys and values; the same for the other lemmas of `HeaderText` about reverts.
- `HeaderText.MergeReadsAlikeIff`: leaves out the channel key of a structured merge, which is merged channel by channel (`HeaderText.MergeShows` says what it reads as); where no raw header is left, header maps as parsing leaves them.
- `EndToEnd.SecondCommitEmptyIff`: assumes that id 0, the placeholder, is not stored.
- `LevelParser.ParseLevelString`: a level string is shorter than 2^64 characters; characters are compared as Dafny characters where the source compares bytes.
- The order of hash maps: results that depend on it are stated as relations (`Differ.IsDiff`) or with an arbitrary order.
- In-place edits of a level state by `apply` and by the merge, and moves out of the incoming map by the matcher, are modelled on values: callers pass copies, so no aliasing is lost.
- Shared pointers to cached states: cached states are values and are never changed through a pointer.
- The state hash is an arbitrary function of the state (`GdgeImport.Hash`).
- Commit messages are shortened or composed from names in the source; here they are fixed texts, and the rename operation and listing of summaries are not modelled.
- `Package.ValidateDataReason`: indexes are unbounded integers where the source has 64-bit ones.
- `GdgeImport.MergeSmart`: the branches for a merge that fails are missing because the merge never fails.
- Locking, logging, timers and everything of the user interface but the split into prepare and finalize.
