# Model of the Lean exec server and client

This project models five parts of the repository and proves what they promise, for every input and
every interleaving.

**Infotree extraction** (`InfotreeForest`, `InfotreeContraction`, `SourceText`, `InfotreeIntervals`,
`InfotreeComments`, `InfotreeMerge`, `InfotreePipeline`). A forest of Lean info nodes is numbered
depth first; failed or repeated nodes are contracted in place, on the way back up. The kept nodes
become intervals, the intervals cut the source, trailing whitespace and comments move forward, and
pieces are merged until brackets balance. Contraction is proved to keep ancestry in both directions
and to end in a normal form; the six text passes together neither lose nor repeat a character.

**Exec item protocol** (`Lifecycle`, `StateFiles`, `StateStore`, `ItemProtocol`, `ExecRoutes`,
`ScratchFiles`). `Lifecycle` and `StateStore` are the registry and the store as classes. `ItemProtocol`
is the transition system of all routes over registry, stored states, pins and open brackets: each
action is a stretch of code without an await. `ExecRoutes` and `ScratchFiles` prove that the loops of
the routes are those actions. `StateFiles` is the disk, one file operation at a time, with crashes.

**Who holds what** (`ResourceProtocol`, `ResourceRuns`, `ResourceRoutes`, `CreateRoute`, `StepRoute`,
`Interleaving`, `Housekeeping`). `ResourceProtocol` extends the item protocol by the running tasks (a
created or verified item, a lane), the lease each of them holds, the scratch files its worker call
owns, with the time each was last written, and the starting marks of the pool. `ResourceRuns` has the
theorems about all its runs. `CreateOne` and `Lane` are the coroutines of the routes as classes: a
method is what runs between two awaits, over the registry, store and pool as they are when it is
resumed, and is proved to be the corresponding step. `Interleaving` proves that a step of one leaves
what every other remembers true, so that it can be resumed. `Housekeeping` has cancel, cleanup and
garbage collection with its orphan sweep as steps. So the theorems about all runs of the protocol are
theorems about all interleavings of these methods.

**Worker pool, admission queue, lanes** (`WorkerPool`, `RequestLimiter`, `Lanes`, `StepScheduler`,
`StepBatch`). The pool's methods are the sections under its condition; the limiter is a
condition-variable queue with barging and cancelled waiters; the scheduler is a machine whose steps
are what one lane does between two awaits, and the lane loop is proved to take those steps.
`StepBatch` joins the head of a batch to its lanes: response i answers request item i.

**Client batcher** (`BatchRetries`, `Batcher`). `Batcher` is the machine of queue, flushes, tracked send
tasks, sorted item locks, semaphore, futures and calls of close; `BatchRetries` is the retry loop over
an array of futures.

**Crash-resumable microbatches** (`Journal`). Every file operation, send and answer is one effect of
a machine that may crash between any two of them and resume any number of times.

`MapSum` holds sums over finite maps, `Wrappers` the option type.

Assumptions about the outside: each file operation is atomic and payloads survive a round trip
through JSON; a new token is not in use, and no scratch file and no state a lane steps from is named
after it; a temporary file name is not in use either; a coroutine may be suspended more often than in
the source, never less; the pool is not shut down while routes run; the clock does not go back. What
Lean answers and when it writes, how long it takes, when the orphan sweep comes by, which worker dies,
which call raises and what the server replies are parameters of the methods and actions, so the
theorems hold for all of them.

Promises in the documentation of the code, or in the shape of it, that it does not keep; the model
follows the code and says when they hold:

- `include_failed_pp=False` is said to remove all failed nodes. It removes them below other nodes
  only: a failed node is kept iff it has no ancestor (`FailedNodesKept`, `FailedRootSurvives`).
- `extract_data` is said to cover the whole file. It covers the source from the earliest start to the
  furthest finish of the kept nodes, which is the whole file iff these are its two ends
  (`ExtractData`, `WholeFile`, `MissesText`).
- A step batch is meant to end after its lanes. `asyncio.gather` raises as soon as one lane does, and
  the finally block then unpins and finishes everything while other lanes still work and hold leases
  (`StrayLane`); at quiescence nothing is held iff no such lane is left (`QuietHoldsNothing`). No state
  is stored under a closed item even then (`NoNewStates`).
- Scratch files are meant to be promoted, discarded or unlinked. One stays behind exactly when its call
  raises in the debug monitor, or when its results are promoted although the parent is gone (which
  takes a stray lane) or a file allocated before it is (`LeftExactly`); and then until a sweep finds it
  too old (`CleanIff`, for all runs). The sweep itself can take a file of a call in progress, but only
  when the call has been running for longer than the ttl (`SweepTakes`, `SweptWhileWorking`).
- `get_worker` is meant to take its starting mark back. It does not when closing the evicted worker
  raises, and that place is lost for good; the marks all come back iff this never happens
  (`MarksComeBack`, `LostForGood`).

## Model

| member | source | states |
|---|---|---|
| InfotreeContraction.ExtractNodesAndEdges | packages/lean-client/lean_client/infotree.py:44-140 | for every forest and flag setting: ids are consumed densely from start_id; kept nodes are unchanged; every kept non-root has exactly one incoming edge, from its nearest kept ancestor; every removed node had failed or repeated its nearest kept ancestor and was the only way down from it; nothing is left to contract; a kept node reaches another along edges iff it was its ancestor in the input (node-less items transparent). On the texts and goals of the nodes: a node is gone only below another, because its text is the failure text or because a kept ancestor has the same goals and text; no edge leads to a kept failed node, or to an only child with the goals and text of its parent |
| InfotreeContraction.ExtractItem | packages/lean-client/lean_client/infotree.py:44-138 | one item joined to what the walk holds so far keeps all of that |
| InfotreeContraction.AncestryPreserved | packages/lean-client/lean_client/infotree.py:44-140 | output reachability and input ancestry agree on all kept nodes, in both directions |
| InfotreeContraction.ContractNode | packages/lean-client/lean_client/infotree.py:74-125 | the rewriting loop ends, every rewrite shrinks the node dictionary, and nothing is left to contract at the node |
| InfotreeContraction.NextToContract | packages/lean-client/lean_client/infotree.py:81-125 | picks a failed child first, else an only child that repeats its parent, and nothing only when the node is in normal form |
| InfotreeContraction.FlattenKeeps | packages/lean-client/lean_client/infotree.py:143-179 | removing such a child keeps nearest-ancestor edges, redundancy of everything removed, and the normal form of all other nodes |
| InfotreeContraction.FlattenChain | packages/lean-client/lean_client/infotree.py:143-179 | the in-place edge rewriting: exactly the child is dropped and exactly its children move to the parent, no dangling edge |
| InfotreeContraction.BelowOnlyChild | packages/lean-client/lean_client/infotree.py:104-125 | everything kept below a node with an only child lies below that child, so deduplication loses no ancestry |
| InfotreeContraction.Merge | packages/lean-client/lean_client/infotree.py:53-71 | merging the children's nodes and edges preserves all of the above, so later ancestor rewrites keep the normal form |
| InfotreeContraction.FailedNodesKept | packages/lean-client/lean_client/infotree.py:78-99 | the documented removal of failed nodes is exact only below a kept node: a failed node stays iff it has no ancestor |
| InfotreeContraction.FailedRootSurvives | packages/lean-client/lean_client/infotree.py:78-94 | a concrete forest on which the documented promise fails: one failed node alone is kept |
| InfotreeForest.ItemAncestry | packages/lean-client/lean_client/infotree.py:42-66 | numbering and ancestry of an item's subtree inside the whole forest |
| InfotreeForest.AncestryOrdered | packages/lean-client/lean_client/infotree.py:42-66 | ancestors get smaller ids, ancestry is transitive, ids fill [start, next) |
| SourceText.LinesRejoin | packages/lean-client/lean_client/infotree.py:776-777 | splitting the source into lines that keep their newline loses nothing |
| SourceText.LinesEnd | packages/lean-client/lean_client/infotree.py:776-777 | every line of the source but the last ends in its newline and has no other, the last has none, and there is one line more than there are newlines |
| SourceText.LinesDetermined | packages/lean-client/lean_client/infotree.py:776-777 | so there is one such list of lines only: lines of this form join to the source iff they are the ones the split yields |
| SourceText.OffsetIsPosition | packages/lean-client/lean_client/infotree.py:341-363 | a (line, column) position lies after line - 1 newlines of the source, the last of them exactly column characters back |
| SourceText.OffsetMonotone | packages/lean-client/lean_client/infotree.py:341-363 | (line, column) order is offset order for valid positions |
| SourceText.SnippetIsSlice | packages/lean-client/lean_client/infotree.py:309-363 | the snippet between two valid ordered positions is the slice of the source between their offsets |
| SourceText.ExtractSnippet | packages/lean-client/lean_client/infotree.py:309-363 | the single-line and multi-line branches compute that snippet: the rest of the first line, the full lines between, the start of the last line, also for negative line indices; and the index error exactly when the first or the last line does not exist |
| InfotreeIntervals.SortIsSorted | packages/lean-client/lean_client/infotree.py:237-239 | intervals come out ordered by start |
| InfotreeIntervals.SortStable | packages/lean-client/lean_client/infotree.py:237-239 | sorting is stable and loses or repeats no interval |
| InfotreeIntervals.SortMeans | packages/lean-client/lean_client/infotree.py:237-239 | the sorted list is a permutation of the given one, ordered by start line and column, and by list position where these are equal |
| InfotreeIntervals.AdjustIntervals | packages/lean-client/lean_client/infotree.py:220-267 | sort, furthest finish, ends cut at the next start, empty intervals dropped: the result is the intervals in order of start and list position, without those that start where the next one does, each with the start and goals of the next as its finish and goalsAfter, the last with the furthest finish |
| InfotreeIntervals.TrimIsChain | packages/lean-client/lean_client/infotree.py:247-265 | what remains is a chain of non-empty intervals, each ending where the next starts, up to the furthest finish |
| InfotreeIntervals.TrimMeans | packages/lean-client/lean_client/infotree.py:247-265 | which intervals remain, and each of their fields |
| InfotreeIntervals.TrimText | packages/lean-client/lean_client/infotree.py:220-306 | the cut texts concatenate to the source between the first start and the furthest finish |
| InfotreeIntervals.RetrieveTactics | packages/lean-client/lean_client/infotree.py:270-306 | one tactic per interval with the snippet between its positions and its goals, or the index error iff some snippet has one |
| InfotreeComments.SeparateTrailingWhitespace | packages/lean-client/lean_client/infotree.py:366-388 | code and whitespace rejoin to the input; the whitespace is blanks, tabs, newlines and carriage returns, and the code ends in none of these |
| InfotreeComments.SplitLinesBreaks | packages/lean-client/lean_client/infotree.py:419 | splitlines cuts after every line break and nowhere else, and never between a carriage return and its newline |
| InfotreeComments.LineKinds | packages/lean-client/lean_client/infotree.py:432-454 | what makes a line blank, the end or the start of a block comment, or a line comment, on its characters |
| InfotreeComments.PieceStart | packages/lean-client/lean_client/infotree.py:429-459 | a line ends a trailing piece iff it is blank, closes a block comment that some line up to it opens, or is a line comment; the block starts at the last line that opens one |
| InfotreeComments.SeparateTrailingComment | packages/lean-client/lean_client/infotree.py:391-471 | code and comment rejoin to the input; the comment is a maximal run of blank lines, line comments and block comments |
| InfotreeComments.MoveForward | packages/lean-client/lean_client/infotree.py:491-508 | moving a suffix to the front of the next tactic conserves the text |
| InfotreeComments.TransferTrailing | packages/lean-client/lean_client/infotree.py:474-508 | every tactic but the last keeps its code and hands exactly its trailing whitespace and longest run of trailing comments to the next; text and goals are conserved |
| InfotreeComments.StaysIsUnique | packages/lean-client/lean_client/infotree.py:491-508 | what a tactic keeps is determined by its text |
| InfotreeMerge.GroupTactics | packages/lean-client/lean_client/infotree.py:675-697 | merging produces the greedy grouping: the groups follow one another without gaps, each ends where the text so far is first closed, and becomes a tactic with the joined text, the goalsBefore of its first piece and the goalsAfter of its last |
| InfotreeMerge.ClosedMeans | packages/lean-client/lean_client/infotree.py:546-564 | a piece is closed iff it has as many opening as closing brackets of each of the three kinds and is no lone by, calc or wrapper |
| InfotreeMerge.TakeGroup | packages/lean-client/lean_client/infotree.py:677-688 | each group but possibly the last is closed and no proper non-empty prefix of it is |
| InfotreeMerge.GreedyIsUnique | packages/lean-client/lean_client/infotree.py:675-697 | the greedy grouping of a list of tactics is unique |
| InfotreeMerge.MoveBysText | packages/lean-client/lean_client/infotree.py:699-708 | moving a trailing `by` to the next tactic conserves the text |
| InfotreeMerge.TransferBys | packages/lean-client/lean_client/infotree.py:699-708 | from the first piece to the last: a text, with what it was handed, that ends with a by keeps all up to its last := and hands the rest on, any other keeps all; goals stay |
| InfotreeMerge.ChainGoals | packages/lean-client/lean_client/infotree.py:710-726 | goalsBefore of every tactic but the last is the first non-empty one from there on, or empty, and its goalsAfter is goalsBefore of the next |
| InfotreeMerge.MergeIntervals | packages/lean-client/lean_client/infotree.py:658-728 | all of merge_intervals: greedy groups, conserved text, chained goals |
| InfotreePipeline.CutText | packages/lean-client/lean_client/infotree.py:220-306 | adjusting and cutting covers the source from the earliest start to the furthest finish, each character once |
| InfotreePipeline.GetIntervals | packages/lean-client/lean_client/infotree.py:182-217 | one interval per node, in order of the node ids, with the node's text, range and goals |
| InfotreePipeline.WholeFile | packages/lean-client/lean_client/infotree.py:755-771 | for intervals inside the source: what adjusting and cutting yields joins to the whole file, as documented, iff the earliest start is its first character and the furthest finish its end, or there is no interval and the file is empty |
| InfotreePipeline.MissesText | packages/lean-client/lean_client/infotree.py:755-771 | an input on which the documented cover fails: one node over columns 1..3 of a source of five characters, whatever contraction yields for it |
| InfotreePipeline.ExtractData | packages/lean-client/lean_client/infotree.py:731-788 | end to end: each pass does its work on the output of the one before; when the intervals taken from the kept non-synthetic nodes lie inside the source, the tactic texts concatenate to the source between their earliest start and furthest finish, and to the whole file exactly when these are its ends; consecutive tactics share goals; no interval, no tactic; the index error exactly when cutting meets it |
| Lifecycle.ItemLifecycleRegistry.SweepTerminal | server/exec_lifecycle.py:185-195 | drops exactly the records whose terminal period ends now or earlier, and counts them |
| Lifecycle.ItemLifecycleRegistry.Begin | server/exec_lifecycle.py:77-91 | expired records are forgotten first; then work starts iff the item has no record or an active one, and only its counter goes up; in particular it starts on any item whose retention period is over |
| Lifecycle.ItemLifecycleRegistry.Finish | server/exec_lifecycle.py:93-103 | ends one unit of work; the last one of a cancelling item makes it terminal |
| Lifecycle.ItemLifecycleRegistry.Cancel | server/exec_lifecycle.py:105-121 | cancelling with work in flight, drained without, cleaned items stay cleaned |
| Lifecycle.ItemLifecycleRegistry.CleanupDecision | server/exec_lifecycle.py:123-136 | after the sweep: delete iff nothing is in flight, and the number in flight |
| Lifecycle.ItemLifecycleRegistry.MarkCleaned | server/exec_lifecycle.py:138-144 | terminal with a new retention period |
| ItemProtocol.NextKeepsInv | server/exec_lifecycle.py:77-144 | every step of every interleaving keeps counters, pins, liveness of pinned parents and emptiness of cleaned items |
| ItemProtocol.BatchBegunKeeps | server/exec_backends.py:131-148 | the head of a step batch pins and begins exactly the admitted items and backs out of the others |
| ItemProtocol.BracketAccounting | server/exec_lifecycle.py:93-136 | in_flight is the number of open brackets, terminal records have none, sweeping never drops an item with open work, pins on an item's tokens never outnumber its in_flight |
| ItemProtocol.CleanupDefersOnlyForWork | server/routers/exec.py:457-494 | cleanup deletes iff nothing is in flight: the pinned deferral is unreachable in runs driven by the routes |
| ItemProtocol.ParentResolves | server/state_store.py:169-177 | while a batch is open the states its lanes step from are stored, under the items they were begun for, whatever GC deleted |
| ItemProtocol.NoNewStates | server/exec_backends.py:273-289 | no step stores a state under a cancelled, drained or cleaned item, not even a lane that has outlived its batch |
| ItemProtocol.StaysCancelled | server/exec_lifecycle.py:105-121 | a cancelled item with open work stays cancelled through any step |
| ItemProtocol.CancelSafety | server/exec_backends.py:219-289 | a bracket open when its item is cancelled never promotes a state afterwards, up to and including the step that closes it |
| ItemProtocol.CleanupSafety | server/routers/exec.py:457-494 | once cleanup answered deleted the item owns nothing until a later begin starts, and none starts before the retention period ends |
| ExecRoutes.EnterBatch | server/exec_backends.py:127-148 | the loop is that protocol step and changes nothing of the store but access times and pins; each token is answered invalid iff no state is stored under it, cancelled iff its item is closed and not expired, and else admitted with the environment of its state |
| ExecRoutes.AdmissionsMean | server/exec_backends.py:127-148 | these answers depend on the registry before the batch only: nothing the batch begins changes whether a later token is admitted |
| ExecRoutes.LeaveBatch | server/exec_backends.py:171-174 | the finally block unpins and finishes exactly what was begun |
| ExecRoutes.CleanupOne | server/routers/exec.py:457-494 | the route answers deleted, deferred for work or deferred for pins as the protocol does: deferred with the number in flight when there is work, else with the number of pinned states when there are any, else every state of the item is gone, reported, and the item is marked cleaned |
| ExecRoutes.BatchBegunAppend | server/exec_backends.py:131-148 | admitting tokens one after the other composes |
| StateFiles.RestartRebuilds | server/state_store.py:307-340 | between operations a restart reads back exactly the records in memory |
| StateFiles.CrashSafeAppend | server/state_store.py:96-129 | crash safety of file operations composes when no token changes twice |
| StateFiles.PutOnDisk | server/state_store.py:96-129 | a crash inside put leaves each token before or after; afterwards disk and memory agree |
| StateFiles.TouchOnDisk | server/state_store.py:131-149 | the same for resolve |
| StateFiles.DeleteOnDisk | server/state_store.py:239-257 | the same for a deletion, also between the two unlinks |
| StateFiles.UnlinkOrphan | server/state_store.py:279-305 | unlinking an untracked file changes no record |
| StateFiles.SweepSparesTracked | server/state_store.py:279-305 | the orphan sweep never removes a file of a tracked token |
| StateFiles.LoadedAll | server/state_store.py:307-340 | rehydrating any directory keeps the readable sidecars whose state file exists, skips the unreadable ones, and removing the lone ones makes disk and memory agree |
| StateFiles.PutUntracked | server/state_store.py:96-129 | put takes the moved file out of the untracked files, whatever file it was |
| StateStore.GroupedPut | server/state_store.py:126-127 | the index update of put is the grouping of the new records by item |
| StateStore.GroupedRemove | server/state_store.py:245-252 | the index update of a deletion is the grouping of the remaining records, without empty groups |
| StateStore.StateStore.constructor | server/state_store.py:70-90 | a new process over any directory, unreadable and misnamed sidecars included: records are the rehydrated ones, lone sidecars are gone, index and disk agree; a crash on the way loses no state |
| StateStore.StateStore.Put | server/state_store.py:96-129 | for any source: the exact new record, index, and file move, crash-safe; or the missing file error with nothing changed; records and files agree afterwards iff the source was no file of a tracked token |
| StateStore.StateStore.Resolve | server/state_store.py:131-149 | the record with its access time moved, crash-safe; or not found with nothing changed |
| StateStore.StateStore.ResolveAndPin | server/state_store.py:151-154 | resolves and counts one more pin |
| StateStore.StateStore.UnpinOne | server/state_store.py:156-163 | takes one pin back and forgets the token at zero |
| StateStore.StateStore.CreateChild | server/state_store.py:169-177 | the child inherits item, profile and header of its parent, crash-safe over both operations; without the parent, or its file, no state |
| StateStore.StateStore.DeleteTokens | server/state_store.py:239-257 | deletes exactly the tracked unpinned tokens that were given, with their two files each; states and bytes before are states and bytes after plus those reported |
| StateStore.StateStore.DeleteByItemIdAllOrNone | server/state_store.py:183-196 | all states of the item or, if any is pinned, none |
| StateStore.StateStore.GcOverBudget | server/state_store.py:259-277 | without a budget or within it nothing; else, in order of last access and then creation, the shortest prefix that brings the total within the budget, sparing the pinned |
| StateStore.StateStore.SweepOrphans | server/state_store.py:279-305 | deletes exactly the untracked files older than the cutoff and reports the state files among them |
| StateStore.StateStore.GcExpired | server/state_store.py:201-220 | first the records that are not pinned and were last read before now - ttl, then the budget prefix of the others, then old untracked files; a record read since then goes only when it is not pinned, the pinned and fresh records are over budget, every shorter prefix leaves them over budget, and no survivor outside the prefix was used before it; pinned records never go; afterwards the total is within budget plus pinned bytes; all reported counts balance; crash-safe |
| StateStore.ByUseOrdered | server/state_store.py:268-271 | the LRU order is by (last access, creation) |
| StateStore.BudgetMet | server/state_store.py:259-277 | total <= max_bytes + pinned bytes (<= max_bytes without pins); no survivor outside the prefix was used before a deleted record; inside it exactly the pinned survive |
| StateStore.GcRecords | server/state_store.py:201-220 | expiry followed by the budget keeps the pinned, drops the expired, meets the bound, and takes a fresh record only over budget and as one of the least recently used |
| ScratchFiles.DiscardUnpromoted | server/exec_state_files.py:7-16 | unlinks exactly the given files and counts those that existed |
| ScratchFiles.StopsCases | server/exec_state_files.py:7-16 | where promotion stops: at the end, or at the first open result whose file or parent is gone |
| ScratchFiles.Promote | server/exec_backends.py:320-348 | open results become children of the parent, in its item and environment, with their own tokens, in order, up to the first that raises; their scratch files are gone, and no other |
| ScratchFiles.FinishStep | server/exec_backends.py:273-289 | cancelled: discarded, otherwise promoted, also when that raises halfway; the stored states are those of the protocol step |
| ScratchFiles.SettledMeans | server/exec_backends.py:273-289 | what the three have in common, on results, tokens and files: where promotion stops, which tokens become states of the item, and which files are gone |
| ScratchFiles.PutAll | server/routers/exec.py:165-177 | created states are stored under the item with their tokens in order, up to the first file that is gone |
| ScratchFiles.FinishCreate | server/routers/exec.py:152-177 | cancelled: discarded, otherwise stored, also when that raises halfway; as in the protocol step |
| ResourceProtocol.NextKeepsInv | server/exec_backends.py:208-300 | every step of every interleaving of items, lanes, batches, cancel, cleanup, GC and orphan sweep keeps: the busy leases are, disjointly, those the tasks hold; the untracked files are, disjointly, the owned ones that are there and the ones left behind; files of a call were written since it began; the pool has one starting mark for every task that is starting a worker, under its profile; each open item bracket has its one task |
| ResourceRuns.Conservation | server/exec_backends.py:208-300 | over all runs: a lease is busy exactly while one task holds it, leases taken are leases given back and busy ones, the untracked files split into owned and left behind, and starting marks are tasks starting a worker |
| ResourceRuns.RunsAreItemRuns | server/exec_lifecycle.py:77-144 | tasks, leases and files only watch the item protocol: every run is one of its runs, so its theorems hold here |
| ResourceRuns.QuietHoldsNothing | server/exec_backends.py:436-454 | with no bracket open and no worker on its way back: no lease is busy, all taken were given back and no file is owned, iff no lane was left behind by a batch in which another lane raised; in particular when none raised, and then no worker is starting either |
| ResourceRuns.NoTaskHoldsNothing | server/routers/exec.py:203-205 | when no task is left, whatever happened: no lease busy, every lease given back once, no file owned, no starting mark but those lost |
| ResourceRuns.ItemLifetime | server/routers/exec.py:105-205 | create_one and verify_one, however they end and whatever runs meanwhile: the item is finished exactly once, and a leased worker is given back exactly once |
| ResourceRuns.MarksComeBack | server/pantograph_manager.py:160-189 | over all runs, once no task is left: every starting mark was taken back iff closing a worker to make room for another never raised |
| ResourceRuns.SweepTakes | server/state_store.py:279-305 | the sweep takes a file of a running call iff it is there and older than the cutoff, and only from a call that has been running for longer than the ttl |
| ResourceRuns.LeftExactly | server/exec_backends.py:273-289 | a step leaves a file behind iff the file is there and its call raises, or its results are promoted although the parent is gone or a file allocated before it is |
| ResourceRuns.NothingRemains | server/routers/exec.py:105-205 | after a run in which no call with files raises, no lane raises, and no call has run for longer than the ttl when there is a sweep: at quiescence no busy lease and no new untracked file |
| ResourceRuns.CleanIff | server/state_store.py:279-305 | exactly which files are left once no task is, over all runs with sweeps at any time: those there at the start and those some step left behind, as far as no sweep found them too old, which is a matter of the clock alone |
| ResourceRuns.StrayLane | server/exec_backends.py:158-181 | a run in which get_worker raises in one lane and the batch closes while another still holds its worker |
| ResourceRuns.SweptWhileWorking | server/state_store.py:279-305 | a run in which Lean takes longer than the ttl, the sweep takes the first file of the call in progress, promotion raises there and the second file stays behind |
| Housekeeping.CancelItem | server/routers/exec.py:500-526 | cancelling an item, on the running registry, is the protocol's step |
| Housekeeping.CleanUp | server/routers/exec.py:457-494 | so is cleanup, files included: afterwards store and protocol agree on every untracked file, unless there were files of other suffixes named after the deleted states, which then are the only ones they differ in |
| Housekeeping.Collect | server/state_store.py:201-220 | so is a round of garbage collection: the states it deletes, then the untracked files older than the cutoff, with the same exact condition |
| ResourceRoutes.TryLease | server/pantograph_manager.py:119-158 | one pass of get_worker on the running pool is a step: a fitting worker handed over, a mark for one to be started, or nothing |
| ResourceRoutes.StartDone | server/pantograph_manager.py:160-189 | a worker that is up is a step: it is the task's, and its mark, which is there, is taken back |
| ResourceRoutes.StartFails | server/pantograph_manager.py:160-182 | a start that raises takes its mark back; closing the evicted worker leaves it for good |
| ResourceRoutes.GiveBack | server/exec_backends.py:436-454 | return_worker is a step, whatever state the worker is in; it raises only when the worker was closed, and then its lease is not free either |
| ResourceRoutes.LeanSaves | server/pantograph_worker.py:134-164 | Lean writing a file of a running call is a step: the file is there, written now |
| ResourceRoutes.MovedAre | server/exec_backends.py:320-348 | the files promotion moves, in order of the results up to the first that raises, are those the protocol says: none without the parent, else the ones allocated before the first that is gone |
| Interleaving.CreateResumes | server/routers/exec.py:105-205 | after a step of anything else, create_one can be resumed: what it remembers of its task still holds |
| Interleaving.LaneResumes | server/exec_backends.py:208-300 | the same for a lane |
| Interleaving.TakeTurns | server/pantograph_manager.py:119-158 | of two coroutines waiting for a worker one takes its turn and both can go on |
| CreateRoute.CreateOne.Begin | server/routers/exec.py:105-116 | refused items end at once; others wait for a worker, as the protocol opens them |
| CreateRoute.CreateOne.TryWorker | server/pantograph_manager.py:119-158 | one pass of get_worker: a worker that is handed out is the task's, and cancelled or called without an await in between |
| CreateRoute.CreateOne.WorkerUp | server/pantograph_manager.py:160-189 | the same for a worker that has just started; that its own mark is in the pool is part of the protocol |
| CreateRoute.CreateOne.NoWorker | server/routers/exec.py:188-205 | no worker in time, a start that fails or a victim that cannot be closed: answered overloaded or failed, finished, no lease, and the mark taken back or lost |
| CreateRoute.CreateOne.Loaded | server/pantograph_worker.py:134-164 | nothing to save or an exception ends the call with no state; otherwise the first file is allocated |
| CreateRoute.CreateOne.Saved | server/pantograph_worker.py:134-164 | each saved file is the next result; the last one ends the call and settles all of them |
| CreateRoute.CreateOne.SaveRaised | server/pantograph_worker.py:134-164 | all files of the call are unlinked and it ends with no state and no file |
| CreateRoute.CreateOne.Monitored | server/pantograph_worker.py:430-475 | the debug monitor ends the call; when it raises, the item fails and its files stay behind |
| CreateRoute.CreateOne.Settle | server/routers/exec.py:151-187 | discard when cancelled, else store in order up to the first file that is gone; answer and finish; one protocol step |
| CreateRoute.CreateOne.Returned | server/routers/exec.py:203-205 | the lease is not busy any more, whatever state its worker is in, and the task is over |
| CreateRoute.Settles | server/routers/exec.py:151-205 | storing what the worker saved and finishing the item are one step of the protocol, possible in every state the coroutine is resumed in |
| StepRoute.StartBatch | server/exec_backends.py:127-170 | the head of a batch opens its bracket with the admitted entries and one task for each lane |
| StepRoute.EndBatch | server/exec_backends.py:171-181 | the finally block unpins and finishes all entries, while lanes left over by a raising one go on |
| StepRoute.Lane.NextItem | server/exec_backends.py:216-227 | cancelled items are answered at once; then the worker is called, asked for, or returned |
| StepRoute.Lane.TryWorker | server/pantograph_manager.py:119-158 | a worker handed to the lane fits its item and is the lane's; cancelled meanwhile or called |
| StepRoute.Lane.WorkerUp | server/pantograph_manager.py:160-189 | the same for a worker that has just started; that its own mark is in the pool is part of the protocol |
| StepRoute.Lane.NoWorker | server/exec_backends.py:243-251 | out of time: the item is overloaded and the lane goes on; anything else ends the lane, its mark taken back or lost |
| StepRoute.Lane.Loaded | server/pantograph_worker.py:197-242 | a state that does not load answers every tactic with the error |
| StepRoute.Lane.Ran | server/pantograph_worker.py:376-428 | a tactic that fails or closes the goal has no file |
| StepRoute.Lane.Reserve | server/pantograph_worker.py:376-428 | a tactic that leaves goals gets a new file of its own |
| StepRoute.Lane.SaveRaised | server/pantograph_worker.py:376-428 | a failed save unlinks the file and answers the tactic with the error |
| StepRoute.Lane.Settle | server/exec_backends.py:254-295 | cancelled: discarded; else promoted in order up to the first that raises; the worker is kept, or returned when dead; one protocol step |
| StepRoute.Lane.CallRaised | server/pantograph_worker.py:430-475 | when the debug monitor raises the results of the call are lost and its files stay behind |
| StepRoute.Lane.Returned | server/exec_backends.py:296-300 | the lease is not busy any more; the lane goes on without a worker, is over, or returns the lease once more when that raised between two items |
| StepRoute.Lane.ReturnedAgain | server/exec_backends.py:299-300 | the second return_worker, of the finally block, changes nothing in the pool, and the lane ends by raising |
| StepRoute.Settles | server/exec_backends.py:273-289 | what the lane does with its results is one step of the protocol, possible in every state the lane is resumed in, also after its batch has closed |
| WorkerPool.PantographManager.TryAcquire | server/pantograph_manager.py:119-158 | reuse iff a free lease matches profile and header hash, and then the first one; else start iff there is room in the pool and under the cap of the profile; else evict the first least recently used candidate (any when the profile has room, its own otherwise); else wait, and then every usable worker is busy or starting; caps and counters kept |
| WorkerPool.PantographManager.StartSucceeded | server/pantograph_manager.py:160-189 | the lease fits the request, is busy, and the starting counters go back by one |
| WorkerPool.PantographManager.StartFailed | server/pantograph_manager.py:177-182 | the starting counters go back by one |
| WorkerPool.PantographManager.CloseRaised | server/pantograph_manager.py:160-161 | closing the evicted worker raises: the call is over, its mark stays, all caps and counters still hold |
| WorkerPool.LostForGood | server/pantograph_manager.py:160-189 | the starting counters, in total and by profile, are exactly the calls in progress and the marks lost; with no call in progress they are zero iff no mark was lost; each lost mark takes one place away for good, and with max_workers of them no worker can run again |
| WorkerPool.PantographManager.ReleaseWorker | server/pantograph_manager.py:191-215 | one more use; exhausted workers are closed, others return to the end of the free list; not-busy leases are ignored |
| WorkerPool.PantographManager.DestroyWorker | server/pantograph_manager.py:266-277 | the lease is forgotten, no other is |
| WorkerPool.PantographManager.Cleanup | server/pantograph_manager.py:279-287 | nothing stays leased or free, starting workers are unaffected, caps hold |
| WorkerPool.PantographManager.WorkerToClose | server/pantograph_manager.py:228-243 | the first least recently used candidate, or none |
| WorkerPool.PantographManager.Take | server/pantograph_manager.py:121-129 | moving a lease from free to busy keeps every profile's share |
| WorkerPool.MarkKeeps | server/pantograph_manager.py:245-249 | the total of starting workers is the sum of the positive per-profile counters and counts the calls that are starting one and those that lost their mark |
| WorkerPool.UnmarkKeeps | server/pantograph_manager.py:251-257 | the same when a start ends |
| WorkerPool.ReturnWorker | server/exec_backends.py:436-454 | a lease handed back is no longer busy: released when healthy, destroyed when dead or not collectable; a closed one is not free either, and one the pool does not know changes nothing |
| RequestLimiter.NextKeepsInv | server/exec_request_limiter.py:41-70 | every arrival, wake-up, cancellation and release keeps the counters exact and enough waiters runnable |
| RequestLimiter.NoLostWakeup | server/exec_request_limiter.py:41-70 | over all runs: in_flight and queued within bounds and exact; notified or cancelling waiters >= min(free slots, queued) |
| RequestLimiter.QueueSettles | server/exec_request_limiter.py:51-61 | left alone the queue stops after boundedly many steps, and then every slot is taken or nobody is queued |
| RequestLimiter.CancelLeavesNoTrace | server/exec_request_limiter.py:58-61 | a cancelled waiter, notified or not, gives up its place in the queue, the others keep their order, and the next one is notified |
| RequestLimiter.ExecRequestLimiter.Acquire | server/exec_request_limiter.py:41-55 | refused iff the limit is bounded, all slots are taken, the queue is bounded and full; enters iff unbounded or a slot is free, with one slot more taken; else queued last, with the counter one up |
| RequestLimiter.ExecRequestLimiter.Resume | server/exec_request_limiter.py:54-57 | a woken waiter enters iff a slot is free, leaving the queue, or waits again at its end |
| RequestLimiter.ExecRequestLimiter.GiveUp | server/exec_request_limiter.py:58-61 | the except branch: one queued less, and the first waiter is notified |
| RequestLimiter.ExecRequestLimiter.ReleaseSlot | server/exec_request_limiter.py:63-70 | one slot less taken, and in a bounded limiter the first waiter is notified |
| BatchRetries.SendBatch | packages/lean-client/lean_client/exec_env.py:409-468 | every future is completed: by its owner, before or during the attempts, or with the fate of its own node id; at most max_overloaded_retries + 1 sends; a step goes out again only after replies that were overloads, of the whole request or of every tactic in the last result for its node; a failed request is the last one; a step nobody gave up is settled by the last reply it was sent for, and by the first failure if all replies before were overloads |
| BatchRetries.TakeReply | packages/lean-client/lean_client/exec_env.py:416-464 | one reply completes each still open future once, or keeps the step for the next attempt iff there is one and the reply was an overload for its node |
| BatchRetries.LeavesIff | packages/lean-client/lean_client/exec_env.py:415-474 | a reply leaves a step to be sent again iff the whole request was overloaded, or the last result for its node has tactics and all of them are overloaded |
| BatchRetries.FinalSettles | packages/lean-client/lean_client/exec_env.py:415-464 | what else a reply comes to: the error of the request, the last result for the node, or the error that it is missing |
| BatchRetries.FailureIsFinal | packages/lean-client/lean_client/exec_env.py:436-440 | a step whose first reply that is no overload is a failure ends with that error, and nothing is sent after it |
| BatchRetries.FateIsFirstAnswer | packages/lean-client/lean_client/exec_env.py:415-464 | a step's outcome is settled by the first reply that does not leave it overloaded, or by the last, independently of its batch |
| BatchRetries.FateIsOwn | packages/lean-client/lean_client/exec_env.py:442-460 | results go to their own node id; an overloaded result is delivered only after the last attempt |
| Batcher.SortedKeysOk | packages/lean-client/lean_client/exec_env.py:399 | the locks of a batch are those of its items, each once, ascending |
| Batcher.CutOk | packages/lean-client/lean_client/exec_env.py:359-362 | flush chunks concatenate to the queue, none empty or larger than max_items, all full but the last |
| Batcher.GuardsMean | packages/lean-client/lean_client/exec_env.py:398-417 | a batch may take its next lock iff no batch holds it, and may send iff it holds all of its own and fewer than max_in_flight_batches are sending |
| Batcher.NextKeepsInv | packages/lean-client/lean_client/exec_env.py:335-417 | every step keeps locks exclusive, the semaphore bound, all accepted steps in order, futures completed only with their own outcome, every unfinished batch tracked, and a flush due while the queue is not empty |
| Batcher.MutualExclusion | packages/lean-client/lean_client/exec_env.py:398-417 | two batches sharing an item are never both sending, and at most max_in_flight_batches send |
| Batcher.NoDeadlock | packages/lean-client/lean_client/exec_env.py:398-417 | in every reachable state with an unfinished batch some batch can step |
| Batcher.BatchesFinish | packages/lean-client/lean_client/exec_env.py:398-417 | batches stop after boundedly many steps in any order, and only when all are finished |
| Batcher.CloseResolvesAll | packages/lean-client/lean_client/exec_env.py:352-375 | when close has returned, whatever else ran before, meanwhile and since: the queue is empty, every accepted step is in a finished batch, in order of acceptance, and its future is completed, by its owner or with the outcome of its own node id |
| Batcher.CloserGoesOn | packages/lean-client/lean_client/exec_env.py:364-375 | close waits for batches only: once they are finished it goes on |
| Batcher.SentIsAnswered | packages/lean-client/lean_client/exec_env.py:409-468 | what the retry loop leaves in the futures is what the machine's Finish step says |
| Batcher.AsyncLeanExecBatcher.SendTask | packages/lean-client/lean_client/exec_env.py:398-417 | the sending of a batch is that step |
| Batcher.AsyncLeanExecBatcher.SubmitStep | packages/lean-client/lean_client/exec_env.py:335-342 | refused when closed; else queued last, with a flush scheduled iff the queue is full or nobody waits, and the timer running otherwise |
| Batcher.AsyncLeanExecBatcher.Flush | packages/lean-client/lean_client/exec_env.py:352-367 | the queue is drained into new batches, each tracked, full but for the last, with the locks of its items ascending and all futures open; the flush waits for exactly those |
| Batcher.AsyncLeanExecBatcher.CloseGathers | packages/lean-client/lean_client/exec_env.py:369-375 | close takes its snapshot of the tracked batches only after its own flush is done |
| Journal.ChunksJoin | packages/lean-client/lean_client/exec_env.py:181-182 | the microbatches are the items in order, each of microbatch_size but the last |
| Journal.NextKeepsInv | packages/lean-client/lean_client/exec_env.py:180-228 | every effect and every crash keeps journal, calls and server in agreement |
| Journal.AtMostOnce | packages/lean-client/lean_client/exec_env.py:180-228 | with crashes between any two effects and any number of resumes no microbatch is sent twice |
| Journal.AnnouncedFirst | packages/lean-client/lean_client/exec_env.py:204-211 | nothing is sent before the journal on disk says running |
| Journal.RecordsInOrder | packages/lean-client/lean_client/exec_env.py:185-203 | a record of microbatch k means 0..k-1 are complete, each with the server's answer to its own request |
| Journal.ReturnYieldsAnswers | packages/lean-client/lean_client/exec_env.py:227-228 | a call that returns yields the server's answers to exactly its microbatches, each sent once, concatenated in order |
| Journal.AbandonedForever | packages/lean-client/lean_client/exec_env.py:198-202 | an uncertain microbatch is never tried again |
| Journal.LoopFollowsSteps | packages/lean-client/lean_client/exec_env.py:180-228 | the loop as coded takes exactly the steps of the protocol |
| Journal.StepBatchResumable | packages/lean-client/lean_client/exec_env.py:169-228 | journal and outcome of an undisturbed call, on the records: microbatches complete with their own request are reused, absent ones are sent and complete with their answers; it stops at a record of another request (mismatch), at one of its own request that is not complete with a response (uncertain), or at a request that raises, then recorded unknown; at the end it returns the responses in order; no other record changes; a size that is not positive is refused |
| Journal.ExecMicrobatchJournal.Put | packages/lean-client/lean_client/exec_journal.py:52-80 | exactly one record changes; between the two effects the new journal is in the temporary file and the old one in place, so a crash leaves one or the other |
| Lanes.GroupItems | server/exec_backend_utils.py:33-43 | groups by (profile, header hash) in order of first appearance, items in request order |
| Lanes.GroupMeans | server/exec_backend_utils.py:33-43 | a group has exactly the items of its profile and header hash, in request order |
| Lanes.GroupsMean | server/exec_backend_utils.py:33-43 | every item has its group, the keys are different, and the groups come in the order of their first items |
| Lanes.GroupsKeep | server/exec_backend_utils.py:33-43 | grouping loses and repeats no item |
| Lanes.Distribute | server/exec_backend_utils.py:46-65 | round robin over min(max_lanes, items) lanes, one per item when max_lanes is not positive |
| Lanes.LaneHas | server/exec_backend_utils.py:54-65 | item q * lanes + j is the q-th of lane j |
| Lanes.DealtKeeps | server/exec_backend_utils.py:54-65 | dealing loses and repeats no item |
| Lanes.LanesBalanced | server/exec_backend_utils.py:46-65 | lane sizes differ by at most one, the longer ones first |
| StepScheduler.PlanIsSound | server/exec_backends.py:150-206 | every item has exactly one place in one lane, and a lane holds one environment and header |
| StepScheduler.PlanJoins | server/exec_backends.py:150-181 | the lanes of the plan are those of its groups, one group after the other |
| StepScheduler.AllAnswered | server/exec_backends.py:150-300 | for the items handed to the lanes: when all lanes are through, whatever their interleaving, each slot answers its own item with one result per tactic in order, and there is one step of its lane, taken while the slot was empty, that says what it holds: the statuses of the worker in order when not cancelled, error throughout when the call raised, overloaded throughout without a worker, cancelled throughout when cancelled; slots answered before are untouched, every lease taken was given back once |
| StepScheduler.WrittenSays | server/exec_backends.py:216-348 | which steps of a lane answer its current item, and with what status for each tactic |
| StepBatch.RequestAnswered | server/exec_backends.py:113-205 | the whole batch, from request, registry and store: when the lanes are through, whatever their interleaving, response i answers request item i with one result per tactic in order; invalid throughout when its token is unknown, cancelled throughout when its item is closed and not expired, and else with what the one lane step that answered it says; every lease was given back |
| StepBatch.ResolvedInOrder | server/exec_backends.py:127-157 | what is handed to the lanes are admitted items only, with the environment of their state, in order of the request |
| StepBatch.EntriesAreAdmitted | server/exec_backends.py:131-148 | the entries pinned and begun are the admitted items, in order of the request |
| StepScheduler.WrittenOnce | server/exec_backends.py:216-300 | no step overwrites a slot |
| StepScheduler.StepsOnFittingWorker | server/exec_backends.py:226-267 | every worker step runs on a lease of the item's profile and header hash, also when reused along the lane |
| StepScheduler.OrderOfLanesDoesNotMatter | server/exec_backends.py:158-170 | two runs in which each lane sees the same events end in the same lanes and the same response |
| StepScheduler.LaneNextKeeps | server/exec_backends.py:216-300 | one lane step keeps answers and lease fitting |
| StepScheduler.TakeTurn | server/exec_backends.py:218-298 | the loop body is the corresponding sequence of lane steps; the status of each tactic and the lease kept for the next item, from what the outside decided alone |
| StepScheduler.RunLane | server/exec_backends.py:208-300 | the lane loop ends with all its slots written, each with what its turn says, no other slot, and its lease given back |

## Left out

- HTTP, authentication, validation of requests, logging, database, metrics and statistics: no invariants of their own.
- Lean and Pantograph: a worker is an oracle that answers each tactic, fails or dies; header hashes are uninterpreted strings.
- `is_by`, `is_calc`, `is_wrapper`, `ends_with_by` and comment removal are parameters of the merge pass (`Tests`); every result holds for all of them. Only bracket balance is modelled exactly.
- ExtractData: the text theorem is stated for intervals inside the source; for others only the index error and the passes themselves are.
- SortByStart: a stable insertion sort on values stands for the built-in sort; the in-place change of interval dictionaries is modelled on values, as no dictionary is shared between two list entries.
- ByUse: ties in (last access, creation) may fall in any order, because the order of the record dictionary is not modelled.
- `verify_one` is a role of `ResourceProtocol` (begin, lease, call, finish, return); its coroutine is not written out, as it is `create_one` without files.
- Housekeeping: a file of another suffix named after a stored state, which the server never writes, becomes untracked when that state is deleted; the protocol does not know of it, and `CleanUp` and `Collect` say so.
- StepScheduler.AllAnswered: its leases are abstract; the pool's leases are tied to the lanes in `StepRoute` instead.
- The token loop of `_new_token` is a parameter: the token it ends with.
- Real time, backoff durations and acquire-wait metrics: the clock is an integer, waiting ends by a step of the environment; a lease wait that times out is the `NoWorker` step of a route.
- WorkerPool: no claim about wake-ups or fairness with per-profile caps, since a notified waiter may be unable to use the freed slot; the caps count leases, not processes.
- The pool's methods take one lock each, so runs are arbitrary sequences of method calls; the get_worker calls in progress are the ghost field `calls`.
- Task cancellation is modelled for limiter waiters and for the owners of batched steps; the tasks of the routes are not cancelled.
- Batcher: asyncio locks are first in, first out; the model lets any waiting batch take a free lock, which allows every real run and more.
- Journal: one process at a time uses the journal file; a record that is not a dictionary is not modelled.
- The legacy REPL path, configuration, snippet splitting, message normalisation and the mining scripts.
