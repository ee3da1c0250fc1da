# Proofs about the dynamic graph engine

This project models the dynamic-graph engine in `crates/aether-graph` (a single-writer, many-reader
store of persistent, scapegoat-balanced C-trees in an arena that recycles its slots) together with two
lock-free protocols beside it: the tagged free list of `crates/aether-mem` and the seqlock feature
table of `crates/aether-stream`.

How the files fit together:

- `Sorted`, `Chunk`, `Trees`, `Paths`, `Balance` say what a tree is, what it contains, which slots it
  uses and how deep it may be. `Balance` holds the scapegoat argument on its own: depth limit,
  over-deep paths, rebuilds, the integer prefilter.
- `Pending`, `Arena`, `Build`, `CTree` are the sequential write path as it runs: allocation, retirement,
  balanced builds, traversal with an explicit stack, and insertion. Ghost results name the new tree and
  account for each slot that an operation used, superseded or lost. `Headroom` is about the traversal stack.
- `Batches`, `StaleMarks`, `Climb` are runs of the writer from an empty graph.
- `Ownership`, `Merge`, `RootTable`, `Graph`, `Compact` are the graph and its writer guard. `Graph.Valid`
  ties the roots, the trees, the retire log, the leaks, the edge count, the snapshot table and the
  write-ahead log together; every operation keeps it, with the one exception below, of which `StaleMarks` is a run.
- `Wal`, `Recovery` are the log and what a crash at any moment leaves of the edges.
- `Gate`, `FreeList`, `Seqlock`, `Dirty` are machines of small steps for what runs concurrently: an
  inductive invariant each, then statements over all runs, and what an operation does when nothing comes
  between its steps (the lemmas named `Alone`). `Pins` is the pin registry behind `Gate`,
  and `Span` the span coalescer.

Interleavings are sequentially consistent. What the environment decides (what each
scan and pin read returns, what a write to the file answers, how the shared clock moves) is an input or an
arbitrary value; which allocation finds room then follows.

## Where the code and its promises part

- **A batch that fails twice can leave a published slot in the retire log.** A chain of path copies
  remembers the lengths of the retire log before its first try (`crates/aether-graph/src/writer.rs:398-399`).
  When the first try finds no room the log is stamped, which empties it, but the second try still cuts
  back to those lengths. `Graph.InsertEdgesSorted` proves when this does harm, meaning that a slot of a
  published tree is logged: exactly when the log was not empty at the call, a chain failed twice, and the second
  had inserted something (`HarmIff`; with no tree at the vertex there is nothing to harm, and that branch is not
  taken). In every other case the graph stays valid. An empty log at the call rules it out, and `Starved`
  is a condition before the call that makes it certain. `StaleMarksRun` is a run from the empty graph that
  ends there. After a full arena the guard goes on, and its next stamp queues the slot for reuse while
  it is still reachable (`StampHarmed`). After a failed append the guard refuses inserts and drops the log at its end, so
  that `Commit` leaves a valid, poisoned graph.
- **The two-snapshot test of a remote reader is not sound under two overlapping writes.** The contract at
  `crates/aether-stream/src/feature_table.rs:345-375` claims it without that condition. `TwoWritesTear`
  is a run that accepts a torn row; `PairNeverTorn` is the contract with at most one overlapping write.
- **A poisoned slot restarts its versions**, so a local read that spans a poisoning can return a torn row
  (`PoisonTears`); without one it cannot (`ReadNeverTorn`).
- The comment at `crates/aether-graph/src/ctree.rs:631-633` says every rebuilt interior is 2/3-balanced.
  Two-leaf nodes of 16 to 22 elements are not (`BuiltBalancedIff`). The depth proof goes through the height of the rebuilt
  subtree and does not use the claim.
- **Traversals can overrun their stack.** `MAX_DEPTH` is called structural at `crates/aether-graph/src/ctree.rs:75-80`,
  but the guard at `crates/aether-graph/src/ctree.rs:296` runs before a leaf split, so after failed rebuilds a path can
  have one interior more. A traversal needs as many entries as some path has left turns (`CollectInto`,
  `RetireSubtree`, `StackSuffices`), and the next index panics. From a tree that fits, an overrun comes exactly when
  an insertion goes left past 64 interiors to a full leaf, and then in one of two places. If the copy's root is
  unbalanced, the insertion's own rebuild collects the whole copy and panics (`OverrunIff`): nothing is
  published and the graph is poisoned. If the root is balanced and there is no room for the rebuild
  below it, the insertion succeeds and every later read of its neighbours panics. Both halves can be read off the
  tree and the stock before the call (`OverflowIff`, `InsertAndRead`). `InsertPanics` and `ReadPanics` are runs from the
  empty graph, one to each place. `PathFits` shows that both need failed rebuilds.

## Model

| member | source | states |
|---|---|---|
| `Gate.GraceSafety` | crates/aether-graph/src/arena.rs:70-139 | In every run, as long as a reader stays inside the gate, each tree it loaded lies in memory node for node as it did and none of its slots is free or private to the writer, with stripes scanned one by one and a bucket chosen from an arbitrarily stale phase |
| `Gate.SnapshotIsolation` | crates/aether-graph/src/snapshot.rs:119-132 | Until released, a pinned snapshot names exactly the roots of its commit and every tree under them lies unchanged in memory, whatever guards insert, retire or recycle |
| `Gate.MinPinnedMonotone` | crates/aether-graph/src/arena.rs:208-260 | Once a graph exists the minimum pinned epoch never falls, so a stale read of it is conservative |
| `Gate.AcquireAfterEpoch` | crates/aether-graph/src/snapshot.rs:246-289 | A snapshot acquired after a commit has moved the clock is that commit or a newer one, and holds exactly the roots its commit published |
| `Gate.CommitRecords` | crates/aether-graph/src/snapshot.rs:271-286 | The commit that moves the clock records the live roots under a fresh epoch |
| `Gate.RecycleUnobserved` | crates/aether-graph/src/arena.rs:638-688 | A slot that reclamation frees is in no tree held by a reader inside the gate and in no pinned snapshot |
| `Gate.Preserve` | crates/aether-graph/src/arena.rs:105-139 | Every step of readers, writer, pins and clock keeps the invariant that ties the place of a slot to the phase, the bucket of each holder and the epoch of each pin |
| `Gate.AdvanceOk` | crates/aether-graph/src/arena.rs:127-138 | Advancing past a bucket that a whole scan found empty leaves no reader that could still hold a slot whose grace phase has come |
| `Gate.ScanNext` | crates/aether-graph/src/arena.rs:119-123 | A stripe found at zero holds no reader of that bucket, and readers that enter a scanned stripe later hold live slots only |
| `Gate.LoadOk` | crates/aether-graph/src/graph.rs:268-274 | A root loaded inside the gate is live at that moment, even behind a running scan |
| `Gate.StampOk` | crates/aether-graph/src/arena.rs:937-983 | Stamping the log with the phase two advances away respects every present holder, and the old part every pin |
| `Gate.CoalesceOk` | crates/aether-graph/src/arena.rs:353-377 | A batch that takes over later requirements of another is still held back long enough |
| `Gate.RecycleOk` | crates/aether-graph/src/arena.rs:671-688 | Freeing a ready slot and writing its link disturbs no published, held or pinned tree |
| `Gate.PublishOk` | crates/aether-graph/src/writer.rs:259-265 | A root store makes the new tree live and only logs what it superseded, so holders and snapshots of the old tree keep it |
| `Gate.SwapOk` | crates/aether-graph/src/snapshot.rs:275-284 | A new snapshot reaches live slots only, so nothing logged or pending at its commit is under it |
| `Gate.OpenOk` | crates/aether-graph/src/arena.rs:536-548 | Slots past the cursors when a guard opens are reached by no committed snapshot, which is why young slots may skip the pins |
| `Gate.WriteReaders` | crates/aether-graph/src/arena.rs:903-923 | Writing a slot that is private or free disturbs no reader |
| `Gate.PublishMeans` | crates/aether-graph/src/writer.rs:259-265 | After a root store the new tree is the live one, its slots are live, every slot that only the old tree used is logged, and all else is where it was |
| `Gate.ReaderAlone` | crates/aether-graph/src/arena.rs:103-109 | At any moment a reader can enter at any stripe and bucket, its count goes up by one, it loads a root and holds exactly the live tree, and its leaving undoes all of it |
| `Gate.LeafAlone` | crates/aether-graph/src/arena.rs:871-912 | Under an open guard any free or unused slot can be taken, written and published |
| `Gate.SnapshotAlone` | crates/aether-graph/src/snapshot.rs:246-250 | Outside a commit anyone can pin the latest snapshot, share the pin and release it, and only the pins change |
| `Gate.CommitAlone` | crates/aether-graph/src/writer.rs:653-697 | A commit that nothing comes between can always be taken: the latest snapshot is the live roots under the next epoch, its predecessor is unpinned, and each logged slot waits for that epoch and two phases on |
| `Gate.ReclaimAlone` | crates/aether-graph/src/arena.rs:638-671 | Nothing waits for ever: once the readers have left and no pin is older than its stamp, the writer alone can advance the phase and free any pending slot, and no other slot moves |
| `Pins.PinRegistry.Register` | crates/aether-graph/src/arena.rs:228-240 | One more ticket of that epoch and no other change; at or above the minimum it leaves the minimum alone |
| `Pins.PinRegistry.Release` | crates/aether-graph/src/arena.rs:242-255 | One ticket less, and the minimum does not fall |
| `Pins.PinRegistry.Search` | crates/aether-graph/src/arena.rs:230 | Finds the entry of an epoch or the place where it belongs |
| `Pins.MinIsLowest` | crates/aether-graph/src/arena.rs:235-239 | The cached minimum is pinned and is the lowest pinned epoch |
| `Pins.Added` | crates/aether-graph/src/arena.rs:228-240 | Both ways of registering, a count raised and an entry inserted, add exactly one ticket and keep the order |
| `Pins.Removed` | crates/aether-graph/src/arena.rs:242-255 | Both ways of releasing take exactly one ticket and keep the order |
| `Pending.EnqueueKeeps` | crates/aether-graph/src/arena.rs:353-377 | Stamps and grace phases stay nondecreasing along the queue and neighbours keep exceeding the coalescing limit together |
| `Pending.EnqueueBag` | crates/aether-graph/src/arena.rs:353-377 | Coalescing loses no slot and duplicates none |
| `Pending.FrontDecides` | crates/aether-graph/src/arena.rs:656-670 | Stopping at the first batch that is not ready frees every ready batch |
| `Pending.BatchCountBound` | crates/aether-graph/src/arena.rs:56-61 | The number of queued batches is at most twice the pending slots over the coalescing limit, plus one |
| `Pending.PartBag` | crates/aether-graph/src/arena.rs:949-965 | The young and the old part of a log hold its slots, each once |
| `Pending.PartSides` | crates/aether-graph/src/arena.rs:953-966 | The young part holds exactly the entries at or past the start and the old part those below it, both in the order of the log |
| `Pending.NewFate` | crates/aether-graph/src/arena.rs:937-983 | A retired slot is free or in one batch of its own side, under exactly the stamp and grace of its retirement; it is free only after its grace and, if older than the guard, only if no pin is older than its stamp |
| `Pending.OldFate` | crates/aether-graph/src/arena.rs:353-377 | A slot that was queued before stays under requirements no lesser than its own until these are met, and only a batch within the coalescing limit takes on greater ones |
| `Arenas.Arena.constructor` | crates/aether-graph/src/arena.rs:479-506 | An empty arena of the requested bytes rounded down to an interior slot |
| `Arenas.Arena.PopFreeChunk` | crates/aether-graph/src/arena.rs:691-702 | Takes a slot that was not in use off the list, and fails only on an empty list |
| `Arenas.Arena.PopFreeInterior` | crates/aether-graph/src/arena.rs:704-715 | The same for interior slots |
| `Arenas.Arena.BumpChunk` | crates/aether-graph/src/arena.rs:718-729 | Hands out a slot never handed out before, failing exactly when the regions would meet |
| `Arenas.Arena.BumpInterior` | crates/aether-graph/src/arena.rs:731-749 | The same from the top, failing also at the index that would read as the null root |
| `Arenas.Arena.AllocChunk` | crates/aether-graph/src/arena.rs:871-886 | A slot not in use, or failure only with an empty free list, a spent cursor, and nothing queued that the readers' last answer lets go; slots in use and pending are undisturbed; with idle queues it fails exactly when both are spent, and takes one chunk of the stock |
| `Arenas.Arena.AllocInterior` | crates/aether-graph/src/arena.rs:888-899 | The same for interior slots |
| `Arenas.Arena.AllocWriteChunk` | crates/aether-graph/src/arena.rs:903-912 | The fresh slot holds the chunk and nothing in use changed |
| `Arenas.Arena.AllocWriteInterior` | crates/aether-graph/src/arena.rs:915-924 | The same for an interior node |
| `Arenas.Arena.FreeBatch` | crates/aether-graph/src/arena.rs:673-688 | All slots of the batch go on their free lists in order, and every slot is still in exactly one place |
| `Arenas.Arena.ReclaimReady` | crates/aether-graph/src/arena.rs:638-671 | A batch leaves the young queue exactly if its grace is at most the phase, and the old queue exactly if besides its stamp is at most the lowest pin; the phase moves exactly when a front batch that no pin holds waits for it, past each bucket scanned empty |
| `Arenas.Arena.Retire` | crates/aether-graph/src/arena.rs:937-984 | The log leaves use and ends empty. A logged slot below the cursors of the guard start is never queued as young and is free only if the stamp is at most the lowest pin; any is free only if the phase has moved two on, and otherwise queued under exactly this stamp and that phase; slots queued before are held as long as before, and nothing ready is left; from idle queues and with no reader in the gate, a young log goes to the free lists slot for slot |
| `Arenas.Arena.Partition` | crates/aether-graph/src/arena.rs:957-970 | The entries at or past the start, and those below it, each in the order of the log and none lost |
| `Arenas.Arena.BeginGuard` | crates/aether-graph/src/arena.rs:536-548 | Slots allocated from here on are young |
| `Arenas.Arena.CommitRegions` | crates/aether-graph/src/arena.rs:799-808 | The cursors cover exactly the slots that region writers filled |
| `Arenas.OnePlace` | crates/aether-graph/src/arena.rs:673-715 | Every slot below a cursor is in use, pending or free, one of them and once |
| `Arenas.FreeChunkSlot` | crates/aether-graph/src/arena.rs:673-680 | Threading a slot onto the chunk list keeps both lists spelled out by their links and moves the slot from pending to free |
| `Arenas.PaidThen` | crates/aether-graph/src/arena.rs:871-899 | With idle queues, slots asked for one after the other find room together or not at all, and cost what they cost together, whichever region and free list they come from |
| `Balance.LimitIff` | crates/aether-graph/src/ctree.rs:467-473 | A depth is within the limit exactly when three to the depth is at most the larger of the count and two, times two to the depth |
| `Balance.LimitMonotone` | crates/aether-graph/src/ctree.rs:467-473 | A larger tree may be deeper |
| `Balance.PrefilterSafe` | crates/aether-graph/src/ctree.rs:351-359 | The integer log prefilter never suppresses a rebuild the limit asks for |
| `Balance.BalancedPathFits` | crates/aether-graph/src/ctree.rs:476-484 | A path whose every node is weight-balanced is within the limit of its count |
| `Balance.OverdeepHasScapegoat` | crates/aether-graph/src/ctree.rs:486-520 | A path deeper than the limit has a node out of weight balance |
| `Balance.RebuildFits` | crates/aether-graph/src/ctree.rs:505-547 | Rebuilding below balanced ancestors brings the path back within the limit |
| `Balance.BuiltFits` | crates/aether-graph/src/ctree.rs:626-652 | A perfectly built tree is within the limit |
| `Balance.LeavesIff` | crates/aether-graph/src/ctree.rs:653-663 | The leaves of a build are the fewest chunks that hold its ids |
| `Balance.BuiltBalancedIff` | crates/aether-graph/src/ctree.rs:626-646 | A built interior is weight-balanced exactly when it holds at least 23 elements, where the comment says always |
| `Balance.StackHeadroom` | crates/aether-graph/src/ctree.rs:75-80 | Below 2^33 elements the limit is under 58, below the fixed traversal depth |
| `Chunks.Search` | crates/aether-graph/src/chunk.rs:102-112 | Whether the value is present, and its place among the ascending elements |
| `Chunks.Insert` | crates/aether-graph/src/chunk.rs:123-141 | The elements with the value in its place, or nothing exactly when it was there |
| `Chunks.Split` | crates/aether-graph/src/chunk.rs:145-157 | Two valid chunks that together are the full one, the lower half first |
| `Sorted.InsMembers` | crates/aether-graph/src/chunk.rs:118-141 | Ordered insertion adds the value and nothing else |
| `Sorted.InsAscending` | crates/aether-graph/src/chunk.rs:118-141 | Ordered insertion of a new value keeps strict order |
| `Sorted.AscendingUnique` | crates/aether-graph/src/writer.rs:351-391 | A strictly ascending list is determined by its members |
| `Trees.OrderedElems` | crates/aether-graph/src/ctree.rs:104-118 | In-order contents are strictly ascending and as many as the root records |
| `Trees.StoredFrame` | crates/aether-graph/src/ctree.rs:240-243 | A version reads the same in any memory that kept its slots |
| `Trees.StoredUnique` | crates/aether-graph/src/ctree.rs:136-150 | A root slot denotes one tree |
| `Builds.SlotCount` | crates/aether-graph/src/ctree.rs:653-663 | A tree has one chunk slot a leaf and one interior fewer |
| `Builds.BuildBalanced` | crates/aether-graph/src/ctree.rs:634-652 | The built tree holds exactly the list, in the one perfect shape of its length, on exactly the slots allocated; what was in use is untouched; with idle queues it succeeds exactly when there is room for its leaves and interiors, and takes exactly those |
| `Builds.CollectInto` | crates/aether-graph/src/ctree.rs:677-733 | The in-order contents are appended if no root-to-leaf path turns left more than 64 times, and otherwise the traversal runs past its 64 stack entries; until then the stack peaks at exactly the most left turns on any path |
| `Builds.RetireSubtree` | crates/aether-graph/src/ctree.rs:563-590 | Every slot of the tree is logged exactly once if no path turns left more than 64 times, and otherwise the 64 stack entries do not suffice; what was logged before stays in front |
| `Paths.StackSuffices` | crates/aether-graph/src/ctree.rs:563-590 | A traversal stack of n entries suffices exactly when no root-to-leaf path turns left more than n times |
| `CTrees.Contains` | crates/aether-graph/src/ctree.rs:206-223 | Answers membership in the in-order contents |
| `CTrees.Descend` | crates/aether-graph/src/ctree.rs:281-308 | Finds the one leaf where the value belongs, and refuses exactly the paths of more than 64 interiors |
| `CTrees.SplitInsert` | crates/aether-graph/src/ctree.rs:319-334 | Splitting around the middle and inserting on one side is ordered insertion; both sides keep 7 to 9 elements |
| `CTrees.InsertLeaf` | crates/aether-graph/src/ctree.rs:317-349 | The replacement of the leaf holds ordered insertion of its elements, or the value was there |
| `CTrees.CopyPath` | crates/aether-graph/src/ctree.rs:361-388 | Copying the ancestors bottom-up carries an insertion below to an insertion in the whole tree, replacing exactly the old path |
| `CTrees.FindScapegoat` | crates/aether-graph/src/ctree.rs:505-519 | The highest weight-unbalanced node of the path: all above it are balanced, and none is only if the whole path is |
| `CTrees.Rebalance` | crates/aether-graph/src/ctree.rs:486-559 | The rebuilt tree has the same elements and is within the height bound, with the replaced subtree and path logged once; a path past the limit always has an unbalanced node to rebuild; it panics exactly when the subtree to rebuild has a path of more than 64 left turns, before anything is allocated or logged |
| `CTrees.InsertWithScratch` | crates/aether-graph/src/ctree.rs:264-428 | Old set plus value in order, with correct counts and keys; duplicate exactly when present on a path within the guard; each superseded slot logged once and disjoint from the new tree; earlier versions untouched; the depth bound kept; a failure, a failed rebuild or a leak only when a region can hand out nothing or the path is past the guard; with idle queues a new value within the guard fails exactly without room for the leaf and its path, and a due rebuild fails exactly without room for it as well; a panic of the rebuild comes only where the tree before the insertion says so, and then instead of a success |
| `CTrees.CostAt` | crates/aether-graph/src/ctree.rs:505-547 | What the rebuild after an insertion will cost can be read off the tree before it: the leaves and interiors of the highest node that the new value unbalances, and the ancestors above it once more |
| `CTrees.PathSteps` | crates/aether-graph/src/ctree.rs:364-388 | A copied path has the left turns of the old one, and exactly one more at a leaf that was split |
| `CTrees.StepsAt` | crates/aether-graph/src/ctree.rs:505-530 | The left turns of the copy that a rebuild will traverse can be read off the tree before the insertion |
| `Headroom.OverflowIff` | crates/aether-graph/src/ctree.rs:264-428 | With idle queues and from a tree that traversals fit, one that an insertion makes, or one that its rebuild visits, overruns a stack exactly when the insertion goes left past 64 interiors to a full leaf and either leaves the root unbalanced or has no room for copy and rebuild together; tree and stock before the call decide it |
| `Headroom.OverrunIff` | crates/aether-graph/src/ctree.rs:505-530 | An insertion into a tree that traversals fit panics in its own rebuild exactly when it goes left past 64 interiors to a full leaf and leaves the root unbalanced |
| `Headroom.InsertAndRead` | crates/aether-graph/src/ctree.rs:264-428 | On an arena with idle queues and room for the copy: the insertion panics exactly on that condition; otherwise the value is in and a traversal afterwards panics exactly when the path was such and the rebuild found no room; else it reads the old elements and the new one in order |
| `Climb.Level` | crates/aether-graph/src/writer.rs:187-216 | Eight inserts of ever smaller neighbours turn a left spine of k interiors over a full leaf into one of k+1, each with the stock metered to the copy by updates of small trees; what lies right of the root stays |
| `Climb.Brink` | crates/aether-graph/src/writer.rs:187-216 | Two runs from the empty graph, by batches and single inserts, to a left spine of 64 interiors over a full leaf, with room for one more copy and for no rebuild: one with a leaf right of the root, one with 480 elements there |
| `Climb.InsertPanics` | crates/aether-graph/src/writer.rs:195-216 | The first run goes on: the root comes out unbalanced, the last insert panics in its own rebuild, and dropping the guard leaves the published tree at its 64 interiors, without the edge, and the graph poisoned |
| `Climb.ReadPanics` | crates/aether-graph/src/graph.rs:302-306 | The second run goes on: the root stays balanced, the last insert succeeds and its edge is in, and reading the neighbours of the vertex panics |
| `CTrees.RebuildAccounted` | crates/aether-graph/src/ctree.rs:390-428 | After a rebalance the logged slots are exactly the old tree and the fresh nodes minus the new tree |
| `CTrees.CopyHeight` | crates/aether-graph/src/ctree.rs:291-303 | A copied path without room for a rebuild is at most one past the guard |
| `Paths.SeekDecides` | crates/aether-graph/src/ctree.rs:206-223 | A value is in a tree exactly when it is in the leaf its search path ends at |
| `Paths.InsertOrdered` | crates/aether-graph/src/ctree.rs:364-388 | Insertion into one child is insertion into the parent, with order, keys and counts kept |
| `Paths.RecopyOrdered` | crates/aether-graph/src/ctree.rs:531-547 | Replacing a child by a tree with equal elements keeps the parent as it was in meaning |
| `Ownership.OwnedOnce` | crates/aether-graph/src/writer.rs:287-302 | No slot of one vertex is logged, leaked or used by another vertex |
| `Ownership.Publish` | crates/aether-graph/src/writer.rs:259-272 | One root store moves every slot of the old version and of the operation to the new version, the log or the leaks |
| `Ownership.Retired` | crates/aether-graph/src/writer.rs:201-212 | Stamping the log leaves every published tree as it was |
| `Ownership.Leak` | crates/aether-graph/src/writer.rs:236-256 | What a failed operation allocated belongs to nobody, and all else is as before |
| `Ownership.AccountedTrans` | crates/aether-graph/src/writer.rs:387-391 | A chain of insertions logs each superseded slot once, intermediate trees included |
| `RootTables.WithLeaves` | crates/aether-graph/src/snapshot.rs:71-98 | Each touched leaf holds the current roots; every other leaf is the same shared node |
| `RootTables.ReadCopied` | crates/aether-graph/src/snapshot.rs:63-69 | Reading the copied table gives the live root under touched leaves and the old table elsewhere |
| `RootTables.FromRoots` | crates/aether-graph/src/snapshot.rs:100-105 | A full table reads the live root of every vertex |
| `RootTables.Empty` | crates/aether-graph/src/snapshot.rs:53-61 | A new table covers every vertex and reads null everywhere |
| `Merges.MergeNew` | crates/aether-graph/src/writer.rs:460-496 | The ascending union, and exactly the destinations that are new |
| `Graphs.Graph.constructor` | crates/aether-graph/src/graph.rs:114-143 | A valid graph without edges whose first snapshot equals it |
| `Graphs.Graph.OpenGuard` | crates/aether-graph/src/writer.rs:25-63 | One guard at a time, none on a poisoned graph; the stamp is above every epoch so far and slots from here on are young |
| `Graphs.Graph.InsertEdge` | crates/aether-graph/src/writer.rs:195-216 | A new edge is logged and published alone; any other outcome leaves edges, counters and snapshot as they were; full only when the log has been stamped and a region can hand out nothing, not even by reclaiming, or the path is past the guard; a log failure only when a spill was needed; a new least neighbour with room for the copy alone, at once or after the log is stamped, is in at exactly the cost of the copy; a panic only for a new edge whose rebuild overruns its traversal, always there with room for the copy, and never one that leaves a published tree broken |
| `Graphs.Graph.InsertEdgeInner` | crates/aether-graph/src/writer.rs:218-277 | Log before publish; a failed append restores the retire log and leaks only the unpublished nodes; a published edge leaks nothing unless a rebuild of the vertex found no room, so that all it superseded is logged or retired, and leaves the log below its watermark |
| `Graphs.Graph.InsertSortedByPathCopy` | crates/aether-graph/src/writer.rs:392-448 | A success publishes old and dsts and counts the new; a failure leaves the root, and is reported full only when a region can hand out nothing or the chain reached a path past the guard; after a second failure the log is exactly the second chain cut to the lengths from before the first; it is certain to fail twice when no chunk is to be had and stamping frees room for the first destination but not for all |
| `Graphs.Graph.HarmIff` | crates/aether-graph/src/writer.rs:398-424 | After a second failure a logged slot is still reached by a published tree exactly when the log was not empty before the first try, the vertex had a tree, and the second chain had inserted something |
| `Graphs.Graph.ValidUnharmed` | crates/aether-graph/src/writer.rs:290-300 | In a valid graph no logged slot is reached by a published tree, which is what a stamp takes for granted |
| `Graphs.Graph.StampHarmed` | crates/aether-graph/src/writer.rs:411-428 | A stamp of a harmed log puts into the queues for reuse a slot that a published tree still reaches |
| `StaleMarks.StaleMarksRun` | crates/aether-graph/src/writer.rs:398-424 | A run from the empty graph: three batches that rebuild, then a batch whose first chain finds no room and whose second inserts one of two destinations and finds none for the other; a published leaf is left logged and the next stamp queues it for reuse |
| `Graphs.Graph.InsertSortedByRebuild` | crates/aether-graph/src/writer.rs:454-534 | A success publishes old and dsts, counts the new and logs every slot of the old tree; any failure leaves the graph valid and the root as it was, and is reported full only when the log has been stamped and a region can hand out nothing, not even by reclaiming; it panics exactly when the old tree has a path of more than 64 left turns; bare room for the compact tree of the union is enough for success |
| `Graphs.Graph.InsertEdgesSorted` | crates/aether-graph/src/writer.rs:355-424 | Whichever strategy is picked, the new neighbours are the old ones and dsts and the count is how many were new, and the log is below its watermark; a chain that needed one try leaks nothing unless a rebuild found no room; range errors name a real offender and change nothing; a failure leaves the graph valid, or harmed exactly when the log was not empty, a chain failed twice, and the second had inserted something; a panic publishes nothing, leaves published trees whole, and needs a traversal that overruns, of the old tree or in a chain |
| `Graphs.StrategiesAgree` | crates/aether-graph/src/writer.rs:341-391 | Two outcomes of one batch have the same neighbours in the same order and the same count |
| `Graphs.PathCopyIff` | crates/aether-graph/src/writer.rs:740-749 | The chain is picked exactly when the slots of its copied paths are fewer than two for each leaf of the union |
| `Graphs.Graph.NoteRootStore` | crates/aether-graph/src/writer.rs:570-582 | Exactly the leaf of the source joins the touched leaves, deduplicated or not, and their buffer stays below 1024 or twice the leaves it names |
| `Graphs.Graph.PublishCommit` | crates/aether-graph/src/snapshot.rs:251-289 | After a commit the table equals the live roots at every vertex and the snapshot count is the sum of the degrees |
| `Graphs.Graph.Commit` | crates/aether-graph/src/writer.rs:653-697 | The log is durable before anything is published; a failure poisons, publishes nothing and leaves the arena as it was, and needs an earlier append failure or a refused write or barrier; a clean commit leaves the snapshot equal to the live graph and the log settled, leaks nothing, and every slot that was logged is out of use: free if pins and readers allow, else queued on its side under exactly the published epoch and the phase two on, and nothing ready is left queued; after a failed append even a harmed log ends in a valid, poisoned graph |
| `Graphs.Graph.DropPanicking` | crates/aether-graph/src/writer.rs:628-651 | Also out of the middle of an insertion: poisoned, published trees still whole, nothing that was logged ever reused, staged records gone and the durable ones still in the file |
| `Graphs.Graph.Release` | crates/aether-graph/src/writer.rs:703-712 | What a failed guard had logged is never reused, and all slots stay accounted for |
| `Graphs.Graph.HasEdgeNow` | crates/aether-graph/src/graph.rs:310-313 | Agrees with the edge set; out-of-range reads as absent |
| `Graphs.Graph.NeighborsInto` | crates/aether-graph/src/graph.rs:302-306 | The neighbours in ascending order, out-of-range reading as none, or a panic exactly when a path of the tree turns left more than 64 times |
| `Graphs.PathFits` | crates/aether-graph/src/ctree.rs:75-80 | A vertex whose rebuilds found room is at most 57 interiors deep in any graph of 32-bit ids |
| `Graphs.BoundKept` | crates/aether-graph/src/ctree.rs:400-428 | An insertion keeps the depth bound of its vertex unless its rebuild failed |
| `Graphs.ChainPublish` | crates/aether-graph/src/writer.rs:387-391 | Publishing the last tree of a chain accounts for every slot of every intermediate tree |
| `Graphs.RecordedUpdate` | crates/aether-graph/src/writer.rs:536-566 | Records and edges stay the same set when a batch is logged and published |
| `Wals.WalWriter.FlushBuf` | crates/aether-graph/src/wal.rs:334-362 | File and buffer together stay the same bytes whatever part of a spill fails; it fails only on a refusal, and answers that always take a byte empty the buffer |
| `Wals.WalWriter.AppendEdges` | crates/aether-graph/src/wal.rs:311-333 | All records are staged or none, each as source and destination in four bytes, lowest first, and the checksum of those eight; file and buffer are always the header and every successful append in order; a buffer without room is spilled first |
| `Wals.WalWriter.Sync` | crates/aether-graph/src/wal.rs:387-408 | Success with anything pending makes every record durable; failure forgets nothing and needs a refused write or barrier |
| `Wals.WalWriter.DiscardPending` | crates/aether-graph/src/wal.rs:569-580 | The file stays a prefix of the log and keeps what was durable |
| `Wals.ReplayRecords` | crates/aether-graph/src/wal.rs:666-722 | Byte for byte: each record delivered is two little-endian numbers followed by the checksum of those eight bytes; replay stops where no whole record is left or that checksum differs, and says where to cut |
| `Wals.CreateOrOpen` | crates/aether-graph/src/wal.rs:229-305 | A file of sixteen bytes or more is accepted exactly if it begins with the eight magic bytes and version 1, and refused for what it has instead; a shorter one gets a fresh header or is left a prefix of it |
| `Wals.Resume` | crates/aether-graph/src/wal.rs:210-219 | The tail is cut where replay stopped, durably, before anything can be appended after it |
| `Wals.ReplayStartsWith` | crates/aether-graph/src/wal.rs:666-722 | Whatever follows an encoded log, replay delivers all of that log first |
| `Wals.ReplayOfPrefix` | crates/aether-graph/src/wal.rs:666-722 | A log cut at any byte replays exactly the records that fit before the cut |
| `Wals.TruncateKeeps` | crates/aether-graph/src/wal.rs:690-712 | A truncated log, however corrupt it was, replays the same records again |
| `Wals.RecordRoundTrip` | crates/aether-graph/src/wal.rs:323-330 | Decoding an encoded record gives it back with a matching checksum |
| `Wals.CleanEncode` | crates/aether-graph/src/wal.rs:690-716 | The accepted part of a log is byte for byte the encoding of its records |
| `Wals.EncodeLayout` | crates/aether-graph/src/wal.rs:323-330 | An encoded log is its records one after the other, twelve bytes each, in that layout |
| `Wals.CrashRecovery` | crates/aether-graph/src/wal.rs:200-219 | Any surviving prefix at least as long as the durable part replays a prefix of the appended records with every durable one, and the truncated file replays the same with no tear |
| `Wals.CrashWithJunk` | crates/aether-graph/src/wal.rs:708-714 | Durable records are delivered first even when bytes of any kind follow them |
| `Recovery.Apply` | crates/aether-graph/src/graph.rs:190-217 | Replaying records into a fresh graph makes its edges exactly the records, or names an offending record, or needs an arena without room, or panics where a record overruns a traversal and leaves published trees whole |
| `Recovery.OpenWithWal` | crates/aether-graph/src/graph.rs:170-221 | The opened graph has exactly the edges of the clean records, a snapshot equal to it, and the log cut and attached; each error needs its cause: a bad header or refused write, an offending record, no room, or a record that overruns a traversal |
| `Recovery.CrashKeepsEdges` | crates/aether-graph/src/graph.rs:145-156 | A graph recovered after a crash has no edge the old one lacked and every edge that was durable |
| `Recovery.CommittedSurvives` | crates/aether-graph/src/writer.rs:653-697 | After a clean commit that appended, a crash at any surviving length recovers exactly the edges of the graph |
| `Compaction.RegionWriter.BuildBalancedRegion` | crates/aether-graph/src/ctree.rs:664-670 | The build takes exactly the slots of its cost formula, the next ones of the region, and writes no other |
| `Compaction.Partition` | crates/aether-graph/src/compact.rs:74-82 | Contiguous ranges that cover all vertices, each ending at the first vertex whose edges begin at its thread's even share |
| `Compaction.FairShare` | crates/aether-graph/src/compact.rs:74-82 | Short of its last vertex, no range in the middle has more edges than an even share |
| `Compaction.RangeCost` | crates/aether-graph/src/compact.rs:84-98 | The counts of a range are the difference of the prefix costs at its ends |
| `Compaction.BuildAll` | crates/aether-graph/src/compact.rs:107-148 | Each region is used up exactly, regions tile without overlap, and each tree lies on its own tile |
| `Compaction.SnapshotCsr` | crates/aether-graph/src/graph.rs:338-358 | Offsets and edges spell out every neighbour list, or some vertex has a path of more than 64 left turns |
| `Compaction.CapacityFits` | crates/aether-graph/src/compact.rs:91-96 | A count that fits the requested bytes fits the rounded arena and never reaches the reserved index |
| `Compaction.PackedState` | crates/aether-graph/src/compact.rs:107-156 | The packed trees own the arena slot for slot, hold the same lists, and are all within the depth bound |
| `Compaction.CompactWithCapacity` | crates/aether-graph/src/compact.rs:45-158 | Every neighbour list is unchanged, nothing is leaked, and the arena is exactly full of live trees; each refusal, and the panic on a vertex that a traversal does not fit, happens exactly on its condition and changes nothing |
| `FreeLists.NoDoubleLease` | crates/aether-mem/src/ring.rs:263-432 | Between two acquisitions of one index there is a release of it, in every interleaving of any number of threads, whatever releases panic on the way |
| `FreeLists.EmptyIff` | crates/aether-mem/src/ring.rs:313-322 | In every reachable state an acquisition gives up exactly when the stack is empty |
| `FreeLists.AcquireAlone` | crates/aether-mem/src/ring.rs:313-356 | An acquisition that nothing comes between leases the index on top and leaves the rest of the stack, which is lost only where the link of that index was cut |
| `FreeLists.ReleaseAlone` | crates/aether-mem/src/ring.rs:384-432 | A release of held indices that nothing comes between puts those in range on top of the stack in their order; the others are skipped |
| `FreeLists.FailsByProgress` | crates/aether-mem/src/ring.rs:340-355 | A swap of an acquisition that must fail does so because another thread has changed the head |
| `FreeLists.Preserve` | crates/aether-mem/src/ring.rs:312-432 | Every load, store, swap and compare-and-swap, a panicking one included, keeps each index in one place and the stack acyclic and in range, given no tag wrap between a load and its swap |
| `FreeLists.PopReal` | crates/aether-mem/src/ring.rs:236-254 | A successful swap pops the real top, and its real link unless a panicking release cut it |
| `FreeLists.Splice` | crates/aether-mem/src/ring.rs:384-432 | A private chain whose tail links to the top becomes the front of the stack |
| `FreeLists.PanicIff` | crates/aether-mem/src/ring.rs:398-404 | A release panics exactly on an index that nobody holds |
| `FreeLists.StackShape` | crates/aether-mem/src/ring.rs:271-310 | The stack can be walked up to a cut: in range, nothing twice, and no thread holds what is on it |
| `FreeLists.CutByPanic` | crates/aether-mem/src/ring.rs:398-404 | A link is cut only by a panicking release of its index |
| `Seqlock.ReadNeverTorn` | crates/aether-stream/src/feature_table.rs:376-440 | A read that returns true hands back the whole payload of one completed write unless a write was poisoned during it |
| `Seqlock.ReadIsCurrent` | crates/aether-stream/src/feature_table.rs:425-433 | That payload was the current one within the read: when this read loaded the head again no writer was inside and the words in the slot, and the last completed write, were exactly it; the reader has taken no step since |
| `Seqlock.ReadAlone` | crates/aether-stream/src/feature_table.rs:403-441 | In every run, between writes a read that nothing comes between returns the row of the last write |
| `Seqlock.UnwrittenIff` | crates/aether-stream/src/feature_table.rs:404-411 | A read answers that there is no row exactly when the head is zero; on any even head it copies, on an odd one it tries again |
| `Seqlock.WriteAlone` | crates/aether-stream/src/feature_table.rs:270-328 | A write that nothing comes between publishes exactly its payload under the next even version, head and tail alike |
| `Seqlock.PairAlone` | crates/aether-stream/src/feature_table.rs:345-375 | In every run, between writes a pair of snapshots that nothing comes between is accepted with the row of the slot |
| `Seqlock.PoisonTears` | crates/aether-stream/src/feature_table.rs:72-92 | A run in which a poisoning during the read makes it return a row nobody wrote |
| `Seqlock.PairNeverTorn` | crates/aether-stream/src/feature_table.rs:345-375 | An accepted pair of snapshots is the whole payload of one completed write if at most one write overlaps the pair, in any order of reads |
| `Seqlock.TwoWritesTear` | crates/aether-stream/src/feature_table.rs:345-375 | A run in which two overlapping writes make the pair test accept a row nobody wrote |
| `Seqlock.Preserve` | crates/aether-stream/src/feature_table.rs:253-440 | Every step of racing writers and readers keeps the invariant that an even nonzero version is a complete payload |
| `Seqlock.CompletedByWrite` | crates/aether-stream/src/feature_table.rs:320-328 | A payload is complete only once its writer has stored the final head |
| `Dirty.Bitmap.MarkSorted` | crates/aether-graph/src/dirty.rs:28-55 | Exactly the in-range vertices of the slice are set besides those set before |
| `Dirty.Bitmap.DrainDirty` | crates/aether-graph/src/dirty.rs:80-102 | Exactly the marked in-range vertices, ascending, and no mark left |
| `Dirty.MarksConserved` | crates/aether-graph/src/dirty.rs:34-102 | Under any interleaving each raised mark is returned by one drain, dropped by one clear, or still set |
| `Dirty.MarkFate` | crates/aether-graph/src/dirty.rs:66-79 | A mark stays set until the first later swap of its word, and a drain then returns it |
| `Spans.CoalesceSpans` | crates/aether-stream/src/span.rs:25-60 | Ascending spans with a gap between neighbours that hold exactly the bytes below the limit whose granule some row touches |
| `Spans.CoverIsTight` | crates/aether-stream/src/span.rs:10-24 | The rounded and clamped ranges of the rows are exactly the bytes below the limit that share a granule with some row |

## Left out

- `depth_limit` in floating point: modelled as the greatest k with 3^k at most max(n, 2) times 2^k; the rounding of the constant is not modelled.
- Word widths: ids, indices, counts, epochs, phases and versions are unbounded, except where width decides (record fields, the reserved index, the ABA tag, saturating span ends).
- Byte layout of slots: a slot is a kind and an index, and the two regions are kept apart by the cursors; tag bits, prefetch, padding and uninitialised memory are not modelled.
- Hardware memory ordering: fences and acquire/release pairs appear as the order of steps.
- Gate.Preserve: the reader's walk is one fact about memory (its tree stays stored) rather than one step a node, and a root names its tree directly.
- Gate.StampOk: takes the caller's contract that logged slots are unpublished; `ValidUnharmed` gives it for every valid graph, and the chain that fails twice breaks it as described above. That each graph operation is a sequence of `Gate` steps is not proved.
- Graphs.Graph.DropPanicking: covers a panic between operations and one of a traversal inside an insertion; a panic elsewhere inside an operation is not modelled.
- `insert_edges` over many sources: it range-checks, sorts, groups and calls the one-source batch.
- Gate.MinPinnedMonotone: the registry's entries and its cached minimum change in one step, as they do under the registry's lock.
- Graphs.Graph.Commit: dirty marking and its flush are modelled in `Dirty` alone and not called from the guard.
- Compaction.CompactWithCapacity: regions are built one after the other; their disjointness is what makes the order irrelevant.
- Recovery.OpenWithWal: records are all read before the first is applied, where the code alternates; the file lock, and a read error in the middle, are not modelled.
- Wals.WalWriter.Sync: the io_uring commit path and the directory sync of a new file are not modelled.
- Wals.WalWriter.AppendEdges: appending after a discard that follows a partly failed spill is not covered; the graph is poisoned by then.
- CRC-32: any fixed function of the payload bytes.
- FreeLists.Preserve: assumes fewer than 2^32 head changes between a load and its swap, the limit documented at `crates/aether-mem/src/ring.rs:246-253`; a thread whose release panicked takes no further step and keeps its unfinished chain.
- Seqlock.ReadNeverTorn: the spin loops are retries from the start, and payload words are numbers.
- Spans.CoalesceSpans: the granule is any positive number, of which powers of two are a case; starts beyond the limit are excluded because the code's subtraction would go below zero.
- `Chunk::merge`, CSR loaders, samplers, ingest drivers, embedding caches, memory mapping, device paths and the Python layer.
