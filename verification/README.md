# Memory deduplication and page management, verified

A Dafny model of the SmartNIC page deduplication engine in `codes/bask` and of the page management
code in `codes/mm` that surrounds it, with proofs of what each of them keeps, step by step and over
whole runs.

## What is modelled

**The deduplication engine.** A host sends page tables; for every entry the engine hashes the page
and decides whether it can share a frame with another page. It keeps an rmap tree of items keyed by
process and address, a stable hash table whose values head doubly linked chains of nodes of at most
256 sharing items, and an unstable hash table of items that wait for a partner. Items are Volatile,
Unstable or Stable. Everything the host has to do is appended to a log; merges that fail on the host
come back as error records in the next iteration.

- `KsmTypes`, `KsmSpec`: the state as a value (`World`) and every operation as a function. A fatal
  stop of the program is the outcome `Stopped`.
- `KsmInvariant`, `KsmIterations`: the invariant, and that every step, error undo, clean-up and prune
  keeps it and never stops, over any number of iterations.
  They cover the three ways in which the server runs (`Mode`): with smart scan, without it, and
  unoptimised.
- `KsmReplay`: the log explains the state. `KsmSoundness`: what is merged had the digest of its
  partner. `KsmUndo`: failed merges are undone exactly. `KsmPrune`: what pruning removes and logs.
  `KsmHost`: what the log of a whole iteration tells the host.
- `KsmOutcome`: what every page comes to, told from the tables alone and not from the operations: which
  node it joins, with whom it pairs up, or that it waits; that of equal pages all but one are merged;
  and what an iteration forgets.
- `KsmWitness`: runs from the empty engine that meet every assumption and end where the two conditions
  below, on re-keying and on pruning, fail.
- `KsmEngine`: the imperative engine. Class `Engine` holds the tables, the items and nodes by key and
  by address, and the `next` and `previous` links, and each method is proved to do what the function
  of `KsmSpec` says. `LogTable`: the growable log array.
- `PreHash` and `BatchPipeline`: the concurrent parts, as step relations over the program counters of
  the threads, quantified over every interleaving.

**The kernel side.**

- `FolioLock`: lockers, stealers, wakers and signals on one folio lock, as a step relation for any
  number of threads. `FolioWait`: who wakes a waiter and what a wait returns. `FolioWake`: when a
  wake-up can be lost.
- `FastGup`: grabbing user pages without locks, level by level, with all the ways back.
- `Vmemmap`: remapping the struct pages of a huge page, its rollback and its inverse.
- `DmaGeometry`, `DmaPool`: cutting pages into DMA blocks, and the pool of blocks as heap objects.
  `DmaWidth`: the same cutting loop in the 32 bits of the program.
- `Cma`: the bitmap allocator of contiguous pages with concurrent callers.
- `Hmm`: the retry walk that mirrors page tables into an array of requests.
- `Pkmap`: permanent kernel mappings with lazy flushing.

Where a lock is dropped, the other callers are a method `Others` whose contract says what they may
do: anything that keeps the invariant and leaves alone what the caller holds (blocks in `DmaPool`,
ranges in `Cma`, kernel mappings in `Pkmap`, recorded pages in `FastGup`), which is what the
operations of the same class do to other callers' holdings. `Arithmetic` and `Wrappers` are shared
helpers.

Hashes are opaque values with equality. Page contents, page tables, allocation outcomes and
schedules are inputs over which the theorems quantify.

## Assumptions and exact conditions

- No page hashes to the null digest, and the pages of one iteration have distinct keys
  (`KsmIterations.DistinctPages`). A host error record names a live merge (`LegalError`).
- Re-keying a chain does not look for another chain at the new digest. The re-key keeps the
  invariant if and only if there is none (`RekeySoundIff`, and `ScanSoundIff` for a whole page);
  whole runs assume it (`CollisionFree`). The case arises: `CollisionIsReachable` gives a run from
  the empty engine after which a page breaks the invariant.
- Pruning logs only the last page of each node that disappears, not every pruned member. The log
  explains the prune if and only if every pruned Stable page is alone on its node
  (`PruneExplainedIff`; `IterationTellsIff` for a whole iteration). The other case arises as well:
  `PruneGapIsReachable`.
- A successful `hmm_range_fault` meets every request, except that a hugetlb page is checked against
  the request of its first entry only, and a device page of the caller's own is reported without a
  write fault; `HugetlbIsMetIff` and `OwnPrivateIsMetIff` say for which requests that matters.
- Some interleaving lets the batch reader finish if and only if every page table has an entry
  (`FinishesIff`). An empty table past the guard on its first address leaves the reader waiting for
  ever (`EnteringHangs`, `EmptyTableHangs`).
- A DMA pool computes its offsets in 32 bits. For accepted arguments that gives the specified cuts if
  and only if the rounded block size is less than 2^31 (`WidthSuffices`); the class works with
  unbounded numbers.
- No wake-up of the folio lock is lost if and only if exclusive waiters are not interrupted, or the lock
  is handed over from the first pass on, or there are fewer than three threads (`WakeupsAreKeptIff`):
  an interrupted waiter that is woken on its way out takes the wake-up with it (`WakeupCanBeLost`).
- The walker of page tables hands out runs of pages that lie under one entry (`Hmm.UnderOneEntry`).
- The kernel promises that the pages of a huge entry that is still in place belong to one folio
  (`WholeFolios`).

## Model

| member | source | states |
|---|---|---|
| KsmInvariant.MergeOneKeepsInv | codes/bask/server.c:568-766 | The merge step reaches no fatal stop and keeps the whole invariant: Stable items are in exactly the node they point to, counts are tree sizes in 1..256, digests agree along chains, chains are acyclic and only their heads are in the table, and the unstable table holds exactly the Unstable items |
| KsmInvariant.ScanKeepsInv | codes/bask/server.c:298-347 | Looking a page up and merging it, for a page not yet scanned in the iteration, never stops and keeps the invariant |
| KsmOutcome.VolatilePage | codes/bask/server.c:677-762 | A Volatile or new page, with or without smart scan: passed over while its skip count is positive; with the digest it had before it joins the first node of that digest with room, all nodes before it being full, else pairs up with the page that waits on one new node, else waits itself; with another digest it remembers that. Item, nodes, table and log are given exactly |
| KsmOutcome.VolatilePageOld | codes/bask/server.c:868-945 | The same for the unoptimised step, where a page joins a node with room at once |
| KsmOutcome.MovedPage | codes/bask/server.c:585-604 | A shared page on another frame leaves its node, an emptied node leaves its chain, the log says which of the two, and the page is only remembered in that scan |
| KsmOutcome.MovedPageOld | codes/bask/server.c:783-799 | In the unoptimised step it leaves its node and then joins a node with room at once, if there is one |
| KsmOutcome.PageInPlace | codes/bask/server.c:605-676 | A shared page in its place stays shared; with a new digest exactly its chain and the items on it are relabelled |
| KsmOutcome.RoomIsFound | codes/bask/server.h:602-627 | The search finds a node exactly when some node of the digest has fewer than 256 members, and then the first of the chain |
| KsmOutcome.GraceDoubles | codes/bask/server.h:170-188 | The skip count is 0 for a page that is not volatile, and otherwise doubles with the grace score from 1 to 8 |
| KsmOutcome.ScanAllMerges | codes/bask/server.c:677-762 | Of two pages of a scan that come with the one digest both had before, one is merged, and the other is merged or waits |
| KsmOutcome.TwinsMerge | codes/bask/server.c:1267-1380 | Of new pages with one digest that keep it for two iterations all but at most one are merged at the end, whatever else is scanned, undone or pruned |
| KsmInvariant.LookupKeepsInv | codes/bask/server.c:535-566 | A new or known item is stamped with the iteration and its frame without disturbing the tables, whatever its uninitialised fields hold |
| KsmInvariant.RekeyForm | codes/bask/server.c:605-668 | The re-key gives the new digest to every node and every sharing item of the chain; the table has the same chain at the new digest and none at the old one, and no other item, node or table entry changes |
| KsmInvariant.RekeySoundIff | codes/bask/server.c:621-664 | The re-key keeps the invariant if and only if no other chain is at the new digest |
| KsmInvariant.ScanSoundIff | codes/bask/server.c:298-347 | A legal page, in any mode, never stops, and the invariant survives it if and only if it does not re-key a chain to the digest of another |
| KsmWitness.CollisionIsReachable | codes/bask/server.c:621-664 | A legal run from the empty engine merges two pairs under two digests; then one page of a pair takes the digest of the other, and the scan of that legal page breaks the invariant |
| KsmInvariant.MergeIntoStableKeepsInv | codes/bask/server.h:451-469 | Joining a node with room keeps the invariant |
| KsmInvariant.MergeWithUnstableKeepsInv | codes/bask/server.c:700-753 | Pairing with an unstable item creates one node with two members, leaves the unstable table without the partner, and keeps the invariant |
| KsmInvariant.RemoveNodeRestoresInv | codes/bask/server.h:649-693 | Removing an emptied node, as head, in the middle, at the end or alone, leaves chains and table consistent |
| KsmInvariant.SplitKeepsInv | codes/bask/server.c:585-604 | A Stable page that has moved to another frame leaves its node, removes it if it was the last, and the invariant holds |
| KsmIterations.SharedCountsAddUp | codes/bask/server.h:451-474 | The share counts of all nodes add up to the number of Stable items |
| KsmInvariant.MergeOneOldKeepsInv | codes/bask/server.c:768-948 | The unoptimised merge step keeps the same invariant and never stops |
| KsmIterations.UndoKeepsInv | codes/bask/server.c:950-1062 | Undoing a live merge of either kind never stops and keeps the invariant and the scan stamps |
| KsmIterations.CleanUpKeepsInv | codes/bask/server.h:750-776 | After the clean-up nothing is Unstable, only formerly Unstable items changed, and the invariant holds |
| KsmIterations.PruneGuardNeverWraps | codes/bask/server.h:856-864 | The unsigned subtraction that guards the prune is the number of items not scanned in the iteration |
| KsmIterations.PruneRmapKeepsInv | codes/bask/server.h:803-854 | When the prune runs, exactly the items not seen in the last two iterations go, every other item keeps its state, and no freed item or node is touched |
| KsmIterations.PruneMetadataKeepsInv | codes/bask/server.h:856-864 | The end of an iteration never stops and keeps the invariant, pruning or not |
| KsmOutcome.IterationForgets | codes/bask/server.h:803-864 | An iteration forgets exactly the items that were scanned neither in it nor in the one before, and only if more than a thousand known items were not scanned in it |
| KsmIterations.IterateKeepsResting | codes/bask/server.c:1267-1380 | One whole iteration, error records first, then pages, clean-up and prune, leads from a resting engine to a resting engine with an empty log |
| KsmIterations.EmptyRests | codes/bask/server.c:1267-1380 | The engine with empty metadata is at rest |
| KsmIterations.RunNeverStops | codes/bask/server.c:1267-1380 | Over any number of iterations, in any of the three modes, no fatal stop is reached and the engine is at rest again |
| KsmReplay.ScanReplays | codes/bask/server.c:585-753 | Replaying the entries one page has appended, in any mode, turns the old map from pages to shared frames into the new one |
| KsmReplay.ScanAllReplays | codes/bask/server.h:408-445 | The same for any sequence of scanned pages, an unstable merge taking the frame of both pages from the shadow table |
| KsmSoundness.ScanSound | codes/bask/server.c:677-762 | A page that becomes Stable had the same digest at its two latest examinations, and it is the digest of its node; a remembered digest is null or the latest one |
| KsmSoundness.RunSound | codes/bask/server.h:728-739 | Every merge of every iteration of a run is sound in this sense |
| KsmUndo.StableMergeRoundTrip | codes/bask/server.c:994-1027 | A stable merge and its failure restore every table, chain and count; the item is Volatile on its own frame with the null digest and a higher volatility |
| KsmUndo.UnstableMergeRoundTrip | codes/bask/server.c:1028-1050 | An unstable merge, any later joiners and its failure restore nodes and chains exactly and reset the pair and every joiner |
| KsmPrune.PruneAllThins | codes/bask/server.h:828-854 | Pruning in any order removes exactly the given items; a node survives iff a member does, keeps exactly its surviving members, and one stale entry is logged for each node that goes |
| KsmPrune.PruneExplainedIff | codes/bask/server.h:839-844 | Replaying the entries of a prune explains it if and only if every pruned Stable page is alone on its node |
| KsmWitness.PruneGapIsReachable | codes/bask/server.h:828-864 | A legal run from the empty engine leaves a pair on one node that is due to be pruned, and the log of that prune does not explain it |
| KsmHost.IterationTellsIff | codes/bask/server.c:1267-1380 | Replaying the log of a whole iteration, undo entries included, on the old map without the failed merges gives the new map if and only if no prune is due or every pruned Stable page is alone on its node |
| KsmEngine.Engine.FindStable | codes/bask/server.h:602-627 | Following the next links from the head in the table, it finds the first node with fewer than 256 members; None means that the digest has no entry or every node on the way is full |
| KsmEngine.Engine.InsertStableNode | codes/bask/server.h:629-647 | A new node becomes the head of a new chain or is linked behind the last one |
| KsmEngine.Engine.RemoveStableNodeNoItem | codes/bask/server.h:649-693 | Table and both link directions are mended in all four positions of the node |
| KsmEngine.Engine.FindHead | codes/bask/server.c:605-620 | Walking the back links from any node of a chain ends at its head |
| KsmEngine.Engine.RekeyChain | codes/bask/server.c:621-664 | The loop over the chain performs exactly the specified re-key and moves the head to the new digest |
| KsmEngine.Engine.InsertItemToNode | codes/bask/server.h:451-469 | The item enters the tree of the node, is Stable, points back to it and carries its digest, and the count goes up |
| KsmEngine.Engine.FindUnstable | codes/bask/server.h:728-739 | The waiting item of the digest is returned and leaves the table |
| KsmEngine.Engine.CmpAndMergeOne | codes/bask/server.c:568-766 | The merge step does what the specification says, and so what `KsmOutcome` says of it, from any state with the invariant, and goes round its loop at most twice |
| KsmEngine.Engine.CmpAndMergeOneOld | codes/bask/server.c:768-948 | The same for the unoptimised merge step |
| KsmEngine.Engine.LookupRmapItem | codes/bask/server.c:535-566 | Finding or creating the item of a page |
| KsmEngine.Engine.ShouldSkip | codes/bask/server.h:170-202 | With smart scan, an item that is neither Stable nor without a state is passed over while its skip count is positive, which goes down, and otherwise gets a new count; every other item is left alone and never passed over |
| KsmEngine.Engine.UndoStableMerge | codes/bask/server.c:994-1027 | The undo of a failed stable merge follows its specification |
| KsmEngine.Engine.UndoUnstableMerge | codes/bask/server.c:1028-1050 | The undo of a failed unstable merge resets all members of the node and removes it |
| KsmEngine.Engine.CleanUpUnstableTable | codes/bask/server.h:755-776 | Every item of the unstable table becomes Volatile and the table is empty |
| KsmEngine.Engine.CollectStale | codes/bask/server.h:803-826 | The walk over the tree collects exactly the items not seen in the last two iterations, each once and the last one first, and meets no illegal state |
| KsmEngine.Engine.PruneRmapTree | codes/bask/server.h:828-854 | The items that the walk collects are dropped in the order of its list, as specified |
| KsmEngine.Engine.RunIteration | codes/bask/server.c:1267-1380 | A whole iteration of the imperative engine, in any mode, is the specified one |
| KsmEngine.Engine.RunIterations | codes/bask/server.c:1267-1380 | The imperative loop over any number of iterations ends resting, in the state of the specified run |
| LogTable.LogTable.Insert | codes/bask/server.h:371-401 | The entry is appended, the array doubling when it is full; if it cannot grow the entry is dropped and nothing else changes |
| LogTable.InsertAll | codes/bask/server.h:371-406 | The growable array refines appending to a sequence |
| PreHash.RunKeepsInv | codes/bask/server.h:259-336 | The invariant of the page worker and the hashing thread holds in every interleaving, across stops, restarts and clearing |
| PreHash.LookupIsDirect | codes/bask/server.h:317-336 | A digest that was looked up is the one the page worker would have computed; the index is never invalid and no access leaves the chunk |
| PreHash.HitsIff | codes/bask/server.h:317-336 | A lookup hits exactly when so many pages of the chunk have been published since it was handed over that its page is among them |
| PreHash.UndisturbedHashesAll | codes/bask/server.h:279-315 | A hashing thread that nobody stops has published its whole chunk when it reports that it is done |
| PreHash.StopIsPrompt | codes/bask/server.h:279-315 | After a stop request at most one more page is hashed before the thread reports that it is done |
| BatchPipeline.PagesListsAll | codes/bask/server.c:429-488 | The reference list has every page of every table exactly once, in order, each with its own shadow entry |
| BatchPipeline.RunKeepsInv | codes/bask/server.c:298-347 | In every interleaving of reader and page worker no released buffer is used and the hand-off invariant holds |
| BatchPipeline.ProcessesEveryPageOnce | codes/bask/server.c:349-533 | What has been processed is always a prefix of that list; at the end it is all of it, the returned count is the sum of the table sizes, and every buffer is released |
| BatchPipeline.EmptyTableHangs | codes/bask/server.c:490-510 | Once the reader is in an empty table, the final wait never ends and nothing more is processed, whatever anybody does |
| BatchPipeline.EnteringHangs | codes/bask/server.c:490-510 | Every run in which the reader reaches the final wait of an empty table is stuck there |
| BatchPipeline.FinishesIff | codes/bask/server.c:349-533 | Some interleaving lets the reader finish the batch if and only if every table has an entry |
| FolioLock.RunKeepsInv | codes/mm/filemap.c:1081-1329 | The invariant of bit, wait queue, flags and walker holds in every interleaving |
| FolioWait.EnqueueWaitsIff | codes/mm/filemap.c:1240-1244 | A thread that tries the bit under the queue lock and finds it set is queued last and sleeps; one that finds it clear is woken on the spot and, if exclusive, owns the lock; the waiters flag is set |
| FolioWait.FlagTellsWake | codes/mm/filemap.c:1081-1191 | In every run a waiter is marked woken exactly when, since its pass began, it found the bit clear itself or another thread marked it while walking the queue |
| FolioWait.SleepsUntilWoken | codes/mm/filemap.c:1263-1277 | A sleeper that nobody woke goes on only by a signal |
| FolioWait.SharedWaitReturns | codes/mm/filemap.c:1242-1328 | A shared wait returns 0 iff somebody woke it; -EINTR means nobody did and it left on a signal; the lock is not touched |
| FolioLock.MutualExclusion | codes/mm/filemap.c:1179-1190 | The bit is set iff somebody owns the lock, and at most one thread does: a holder, an exclusive waiter marked done, or the one it is being handed to |
| FolioLock.ReturnTellsOwnership | codes/mm/filemap.c:1305-1328 | An exclusive wait returns 0 iff the caller owns the lock, and -EINTR never leaves it owned |
| FolioLock.PassesAreBounded | codes/mm/filemap.c:1218-1224 | A waiter makes at most unfairness + 1 passes, because the lock is handed over in the last |
| FolioLock.UnlockReleases | codes/mm/filemap.c:1469-1477 | The owner finds the bit set when it unlocks, and afterwards nobody owns the lock |
| FolioWake.NothingIsLost | codes/mm/filemap.c:1081-1157 | In a run without interrupted exclusive waiters, or with hand-over from the first pass, or among two threads: whenever the bit is clear and somebody sleeps, some thread will look at the head of the queue or take the bit |
| FolioWake.WakeupCanBeLost | codes/mm/filemap.c:1263-1328 | With three threads and unfairness a run ends with the lock free, one thread asleep and all others out: the wake-up went to a waiter that had left on a signal |
| FolioWake.WakeupsAreKeptIff | codes/mm/filemap.c:1195-1328 | No run loses a wake-up if and only if exclusive waiters are not interrupted, or the lock is handed over from the first pass on, or there are fewer than three threads |
| FolioWake.WalkTurnsTo | codes/mm/filemap.c:1081-1103 | A walk ends when nobody is queued; it wakes the first in the queue if it is shared, and an exclusive one only while the bit is clear, which is set for it if it has waited too long |
| FolioWake.OneExclusivePerWalk | codes/mm/filemap.c:1081-1130 | In every run a walk wakes at most one exclusive waiter |
| FastGup.Walk.TryGetFolio | codes/mm/gup.c:71-98 | References taken on a folio from which the page is splitting off are given back; on success exactly the folio of the page is referenced |
| FastGup.Walk.TryGrabFolio | codes/mm/gup.c:126-187 | Succeeds exactly when the page may be grabbed, and then holds exactly the references and pins of n grabs; otherwise nothing is held |
| FastGup.Walk.PutFolio | codes/mm/gup.c:189-203 | Gives back exactly what n grabs of the folio take |
| FastGup.Walk.Undo | codes/mm/gup.c:2532-2545 | Gives back every page from nrStart on and leaves one grab for each page before it |
| FastGup.OwesStays | codes/mm/gup.c:81-95 | The account of recorded pages and held references stays right while other folios are split |
| FastGup.Walk.GupPte | codes/mm/gup.c:2567-2661 | A page is recorded exactly when its entry is accessible as asked, unchanged at the second look, neither special nor secret, may be held and pinned as asked, and is writable or need not be unshared; every failing check leaves no grab behind |
| FastGup.Walk.GupDeviceHuge | codes/mm/gup.c:2682-2733 | Device memory under a huge entry is grabbed page by page, all of it or none |
| FastGup.Walk.GupHuge | codes/mm/gup.c:2864-2991 | A huge entry contributes consecutive pages, each mapped there and given by an entry that is accessible, unchanged and free to be held as asked, page by page for a device; or it contributes nothing and some address under it is not given |
| FastGup.Walk.GupRange | codes/mm/gup.c:2993-3109 | At every level, each recorded page is the one mapped at its address; the walk ends early only before a page that cannot be had |
| FastGup.Walk.UnpinAll | codes/mm/gup.c:443-458 | Unpinning run by run gives everything back |
| FastGup.Walk.LocklessPages | codes/mm/gup.c:3128-3175 | pages[k] is mapped at start + k, under tables down to its entry, and was given: accessible, unchanged at the second look, not secret, free to be pinned as asked; a result that is too short stops before an address that no page is given for; exactly one grab is held for each page and nothing else, also after a retry, which returns 0 |
| FastGup.LookTells | codes/mm/gup.c:2567-3109 | What the walk sees at an address is what the entry at the end of the tables over it says, level by level |
| FastGup.RunIsOwed | codes/mm/gup.c:2770-2779 | One grab of n references pays for n recorded pages of the folio |
| FastGup.SameEntry | codes/mm/gup.c:2881-2882 | Addresses under one entry have its number, and their offsets in it go up one by one |
| Vmemmap.Walk.RemapRange | codes/mm/hugetlb_vmemmap.c:136-229 | After m entries those map the reused page, read-only but for the head, and the list holds their pages in reverse |
| Vmemmap.Walk.RestoreRange | codes/mm/hugetlb_vmemmap.c:250-271 | The entries get pages from the list back, writable; the consistency check never fires |
| Vmemmap.RemapFree | codes/mm/hugetlb_vmemmap.c:313-378 | Success leaves all entries on one head page; a failure after any number of entries is rolled back |
| Vmemmap.RollbackIsInjective | codes/mm/hugetlb_vmemmap.c:354-375 | After a rollback every address is writable and on a page of its own, none of which is freed |
| Vmemmap.RollbackConserves | codes/mm/hugetlb_vmemmap.c:354-375 | Mapped pages and pages to free are the original ones and the new head, exactly one of which is freed when there is one |
| Vmemmap.FreedConserves | codes/mm/hugetlb_vmemmap.c:313-353 | A successful walk frees every page but the head that stays mapped |
| Vmemmap.RemapAlloc | codes/mm/hugetlb_vmemmap.c:380-433 | Restoring with new pages succeeds or changes nothing |
| Vmemmap.GivenBackIsInjective | codes/mm/hugetlb_vmemmap.c:415-433 | Optimising and restoring gives every entry a writable page of its own again |
| DmaGeometry.CreateIsSane | codes/mm/dmapool.c:224-252 | Accepted arguments give blocks that are large enough, windows that hold a block, and multiples of the alignment |
| DmaGeometry.CreateIff | codes/mm/dmapool.c:224-252 | A pool is created exactly when alignment and boundary are powers of two, the size is accepted and the boundary holds a block, with the least multiple of the alignment that holds size and header, a page that holds a block, and windows no larger than boundary or page |
| DmaGeometry.CarveIsExact | codes/mm/dmapool.c:300-332 | In unbounded numbers the loop cuts exactly the slots that fit their window and the page, and it ends although a step may leave the offset alone |
| DmaGeometry.CarveIsDisjoint | codes/mm/dmapool.c:300-332 | The specified blocks of a page do not overlap and lie inside it |
| DmaGeometry.BlocksAreAligned | codes/mm/dmapool.c:224-252 | Every block has the requested alignment |
| DmaGeometry.BlocksDoNotStraddle | codes/mm/dmapool.c:300-332 | No block crosses a multiple of the requested boundary, also when the pool works with a smaller window |
| DmaWidth.WidthSuffices | codes/mm/dmapool.c:300-332 | For accepted arguments the loop in 32 bits ends with exactly the specified cuts if and only if the rounded block size is less than 2^31 |
| DmaPool.DmaPool.Pop | codes/mm/dmapool.c:181-190 | A free block is taken, never an outstanding one |
| DmaPool.DmaPool.InitialisePage | codes/mm/dmapool.c:300-332 | The blocks of a new page, linked in order, lie in front of the old free list, and the counters agree |
| DmaPool.DmaPool.Alloc | codes/mm/dmapool.c:404-438 | Null exactly when the free list is empty and no page can be had, and then nothing changes; otherwise a block that the caller did not hold, while all that it held stays outstanding. From the free list exactly that block becomes outstanding; otherwise it is the first cut of the new page |
| DmaPool.DmaPool.AllocFromPage | codes/mm/dmapool.c:424-436 | The first block of a new page, never carved before, becomes outstanding and nothing else does |
| DmaPool.DmaPool.Free | codes/mm/dmapool.c:450-461 | The block leaves the outstanding ones and heads the free list |
| DmaPool.BlocksAreDisjoint | codes/mm/dmapool.c:181-332 | Two blocks of a pool never share memory, neither by address nor by bus address |
| Cma.AcceptedIsWholeBits | codes/mm/cma.c:187-195 | The checks at initialisation make base and size of an area whole bits |
| Cma.BitIsAlignedPage | codes/mm/cma.c:58-75 | A bit found with the mask and the offset is a page aligned to the requested order |
| Cma.AlignedPageIsBit | codes/mm/cma.c:58-75 | And a page aligned as asked that starts a bit is at a bit that mask and offset accept |
| Cma.BitsAreInArea | codes/mm/cma.c:77-81 | Bits inside the bitmap are pages inside the area, the last one rounded up |
| Cma.BitsJustHold | codes/mm/cma.c:77-81 | The number of bits holds the pages, and one bit less would not |
| Cma.PageToBit | codes/mm/cma.c:83-95 | The bits of an allocation are found again from its first page |
| Cma.TakeKeepsCover | codes/mm/cma.c:459-478 | Marking a free run keeps the set bits the disjoint union of all held ranges |
| Cma.GiveKeepsCover | codes/mm/cma.c:83-95 | Clearing a held range does too |
| Cma.SameHoldersSameBits | codes/mm/cma.c:475-489 | The ranges that are held determine the bitmap |
| Cma.NextAligned | codes/mm/cma.c:496 | The retry skips no aligned place |
| Cma.Area.Attempt | codes/mm/cma.c:459-489 | One round reserves the lowest free aligned place that nobody holds, lets the others run, and keeps it iff the pages could be migrated; otherwise we hold exactly what we held, the bits of the place are clear, and the bitmap is the old one if the others did nothing |
| Cma.Area.Alloc | codes/mm/cma.c:429-529 | Ends; a granted run is aligned, inside the area, and its range, which starts at the bit of its first page and is just large enough, was neither ours nor of others when it was taken and is all that we hold in addition. Every earlier try was a round whose migration was busy. Without a run we hold what we held, and the last migration failed for good or every page of the area that starts a bit and is aligned as asked was tried, or a page of its run was held or outside the bitmap when a recorded round passed over it |
| Cma.Area.Release | codes/mm/cma.c:560-579 | Pages outside the area are refused and nothing changes; otherwise exactly the range of the allocation is given back |
| Hmm.Walk.RangeNeedFault | codes/mm/hmm.c:120-145 | The loop with its two short cuts finds the union of the needs of all pages |
| Hmm.Walk.HandlePte | codes/mm/hmm.c:223-318 | One entry is reported iff it is accepted as requested; otherwise it is left alone, and the walk fails or starts again there |
| Hmm.Walk.HandleHuge | codes/mm/hmm.c:187-208 | A huge entry is reported as a whole iff all its requests are met, each page with the frame that lies as far into it |
| Hmm.Walk.HandleHugetlb | codes/mm/hmm.c:473-520 | A hugetlb page is reported iff the first request is met, each page with the frame that lies as far into it |
| Hmm.Walk.WalkHole | codes/mm/hmm.c:147-169 | Unmapped pages are reported empty, pages without a vma as errors, unless a fault is requested |
| Hmm.Walk.WalkRange | codes/mm/hmm.c:320-397 | The entries up to where the walk stopped hold reports, all others their requests, and the cause of the stop is named |
| Hmm.Walk.RangeFault | codes/mm/hmm.c:587-613 | Whatever the page tables do between rounds: all entries below the last stop are settled by some round, all others still hold their requests, and success settles all. Each round starts where the one before it stopped busy, the first at 0; Busy means all rounds were used, Stale that the notifier changed before the next round, and any other error that the last round stopped there for that reason |
| Hmm.MirroredIsMet | codes/mm/hmm.c:587-613 | A settled entry says truly what its round saw there, frame and access, and meets its request, or the first one of its hugetlb page, or is a device page of the caller's own and valid |
| Hmm.AcceptedIffMet | codes/mm/hmm.c:86-118 | A page needs no fault exactly when its report meets the request, hugetlb pages and device pages of the caller's own aside |
| Hmm.ReportIsTrue | codes/mm/hmm.c:171-318 | A report has the frame that lies as far into the huge page as the address does, or the frame of the entry; valid iff accessible, write iff also writable; holes are empty and what cannot be mirrored carries the error |
| Hmm.HugetlbIsMetIff | codes/mm/hmm.c:490-517 | A request inside a hugetlb page is sure to be met if and only if it asks for no more than the first |
| Hmm.OwnPrivateIsMetIff | codes/mm/hmm.c:246-258 | A request on a device page of the caller's own is sure to be met if and only if it does not ask for writing |
| Pkmap.Pkmap.FlushAllZero | codes/mm/highmem.c:185-225 | Exactly the slots without users are unmapped, and the result tells whether there were any |
| Pkmap.Pkmap.Search | codes/mm/highmem.c:243-255 | Ends after at most one wrap, at the first free slot after the last one, and gives up only when every slot has a user |
| Pkmap.Pkmap.MapNewVirtual | codes/mm/highmem.c:234-286 | A page gets one slot, its own or the one somebody else gave it meanwhile; pages in use keep theirs |
| Pkmap.Pkmap.KmapHigh | codes/mm/highmem.c:296-312 | The page has one user more and a count of at least 2; the caller sleeps only while every slot is in use |
| Pkmap.Pkmap.KunmapHigh | codes/mm/highmem.c:348-389 | The page has one user less, the count never reaches 0, and a waiter is woken exactly when the last user left |
| Pkmap.SleepMeansFull | codes/mm/highmem.c:258-268 | When a caller sleeps, as many different pages are in use as there are slots |

## Left out

- RDMA and verbs set-up, completion polling, timers, statistics, printing, command-line flags and the single-operation loop of the server: input and output.
- XXH3 and XXH64: a digest is an input with equality; that equal digests mean equal pages is not claimed.
- Item and node objects as heap references: `Engine` keeps them in stores by key and by address, so aliasing of two references to one object is not expressed; addresses are not reused.
- The 16-bit width of `age` and `last_access`, and the width of the volatility score: unbounded here.
- The shape of the rmap tree: what its walk enumerates is an input, any order of the keys; the lemmas on pruning hold for every order.
- KsmSoundness.ScanSound: with and without smart scan, but not for the unoptimised step, which joins a stable node at the first examination of a page.
- The log of the engine is a sequence; that the array refines it is proved in `LogTable`, and a failed realloc, which drops the entry, is modelled there only. The table is cleared at the end of an iteration here and at the start of the next in the program, with nothing in between.
- Lookups of pre-computed digests outside a held batch buffer: value correctness is claimed only while the page worker holds the batch.
- Fairness of the scheduler and of the folio lock beyond the number of passes: a thread that carries a wake-up is not forced to run. Shared waiters and waiters that drop their reference are treated alike, and the queue functions of the scheduler are taken at their word.
- Architecture-specific huge page directories, pagemap reference counts and the referenced bit in the lockless walk; p4d, pud, pmd and pgd ranges are one method with a level.
- FastGup.Walk.GupHuge: that the pages of an unchanged huge entry belong to one folio is the kernel's promise, a condition on the environment of the walk here.
- DmaPool.DmaPool.InitialisePage: cuts in unbounded numbers; what 32 bits change is stated in `DmaWidth`.
- Page contents, TLB flushes and PMD splitting in the vmemmap code; the entry at which a walk fails is an input.
- The debugging variants of the DMA pool, pool destruction and sysfs; dma_alloc_coherent is a contract on the page it returns.
- Cma.Area.FindZeroArea: stands for the bitmap search of the kernel library; the answers of alloc_contig_range are inputs.
- Several reads of one pmd before it is stable in the mirroring walk, and pages that handle_mm_fault brings in: a round sees one arbitrary but fixed observation of every page.
- Pkmap.Pkmap.Others: fairness of wake-ups; how often a sleeper is woken is an input. Cache colours other than the default, kmap_high_get and local mappings.
- Other files of `codes/mm` and the Python scripts: they depend mostly on code that is not shown or would add small facts.
