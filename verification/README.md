# Verification model of the storage, worker and master modules

This project models, in Dafny, the three server modules of the system and the
protocol and codecs between them, and proves what they keep over whole runs.
`dafny verify dfyconfig.toml` checks all of it.

Each subsystem has the same three layers. Functions on values say what an
operation does (`BlockStore`, `Memory`, `FlatMemory`, `Scheduler`, `Preemption`,
`Wire`, `BlockList`). Lemmas prove properties of those functions: what every
operation keeps, what a run refines, when a hazard strikes. Classes with loops
and fields updated in place, in the source's own shape (`Storage`, `Worker`,
`Planner`, `Interpreter`, `Buffer`), have methods whose contracts equate their
new state and result with those functions.

## Storage: a copy-on-write, deduplicating block store

`BlockStore` holds the metadata of each file:tag (TAMAÑO, BLOCKS, ESTADO), the
block files with their hard-link counts, the bitmap and the hash index. One
`Step` serves one request, taken atomically, checks first. `StoreSafety.Safe` is
the invariant that ties the four redundant structures together. `StoreRefinement`
proves that the store then behaves as a plain map from file:tag to contents
(`PlainStore`, written without blocks, links, bitmap or index).

The refinement needs a guard on two requests, stated so that it can be checked
before the request is served. A COMMIT has to be faithful: no two contents it
compares by hash differ. A DELETE has to be harmless. Both conditions are exact
(`CommitKeepsContents`, `DeleteSafeIff`), and deleting only tags in progress,
with collision-free hashes, meets them (`UncommittedDeletesSuffice`).
`UnguardedDelete` shows, by thirteen concrete requests to a fresh store, what goes
wrong otherwise: a third tag's content changes although no two contents whatever
share a hash.
`StoreLinks.LinkCountsOverRuns` needs no guard at all.

The hash index maps a content's hash to one block. Freeing a block removes the
entry of its content's hash, whichever block that entry names
(`storage/src/storage.c:381-394`), and the model does the same: the index tells
the truth, but it is not complete.

## Worker: paged memory

`Memory` is the worker's frames, page tables, global page list and clock hand.
`MemoryInvariant.Inv` is the frame-table invariant. `Clock` describes the victim
of CLOCK-M without the scan, and `Worker.PickClockM` proves the scan, which the
source writes as an endless loop, to end there. `FlatMemory` proves that
multi-page transfers refine a flat byte space while the pages are resident, and
that a request is served whole exactly when its offset and length fit in the
pages its length alone fills: the source counts pages by length only
(`worker/src/memoria.c:326-327`, `457`). `Fetching` does away with residence: what
READ returns and WRITE leaves when pages have to be brought in, others being sent
away meanwhile. `Refusals` says which code a request fails with when the storage
refuses a page, and `Replacement` who leaves memory under each policy: the policy
the source calls LRU evicts the page brought in longest ago, as hits do not reorder
its list.

Two hazards of replacement are kept as the code has them, each with its exact
condition: going on with a table freed by the eviction it caused (`DanglingIff`
for one access, `ServeDanglesIff` for a request; the outcome `Dangling`, which
runs exclude), and writing a victim back under another page's number
(`WriteBackHitsItsPageIff`). `MemoryHazards` shows runs in which each of them
strikes, and a condition on the request that rules the first one out
(`RoomSuffices`). `Flush` and `FlushAll` join worker and storage and prove FLUSH
through the store's write isolation, when it succeeds and when it is refused midway.

## Master: the query scheduler

`Scheduler` is a step machine over the queues and lists, one atomic step per
event: a query arrives, is made ready, dispatched, answered about, aged,
disconnected, released; a worker connects or is lost. An event carries the
choices the library leaves open: where a sorted list takes an element among
ties, and the order sorting leaves. `New`, `Ready`, `Execute`, `Desalojo` and
`Exit` are the fields `arrived`, `ready`, `executing`, `evicted` and `done`;
`semWaiting`, `semReady`, `semExit` are `semQueryEsperandoReady`,
`semQueryReady`, `semQueryExit`. The action codes CREACION, ESPERA, EJECUCION,
DESALOJO and FIN are `Created`, `Waiting`, `Running`, `Evicting` and `Finished`.

A disconnection taken while in Ready leaves a token behind
(`master/src/planificacion.c:73-82`); `FaultPossibleIff` says exactly when a
worker can then dequeue from an empty Ready, and `StrayToken` is a run in which it
does. `Aging` ties the action codes to the lists and says exactly whose priority can
improve; `QueueOrder` says in which order the queues are served and what answers,
losses and disconnections do to them. FIFO order is proved under its exact condition, on the master's events
(`FifoInOrderIff`) and on what the workers execute (`FifoSystem`), and
`StaleInterrupt` shows by a concrete run of master and worker that the condition
can fail.

## Preemption

`Preemption` joins the scheduler with the workers through their message channels:
every dispatch, interrupt and answer travels. `PreemptionRuns` proves that, for
any schedule, the lines executed for a query are 0, 1, 2, ... in order, once
each. Two side conditions are the code's own: a script ends in END and has no
other END (`WellEnded`), and no interrupt is consumed on END, where the code would
dereference the query it has just released (`Crashes`,
`worker/src/ejecucion.c:106-118` after `218-223`);
`StaleInterrupt.InterruptMeetsEnd` is a run in which that happens. `Readings` counts
the results of READ lines over whole runs: one for each line that succeeds, received,
on its way, or lost with its worker.

## Codecs

`BlockList` is the textual list of blocks; `Wire` and `PacketModule` are the
messages and the cursor buffer. Words are 32 bits in two's complement, the least
significant byte first.

## Model

| member | source | states |
|---|---|---|
| StoreRefinement.StoreRefinesPlain | tp-2025-2c-main/storage/src/operaciones.c:3-249 | over every guarded run of a freshly formatted store, the replies and the final state are those of a plain map from file:tag to (size, contents, committed): each request acts as its plain counterpart, READ_BLOCK returns the map's value, a write may instead be turned down for space, changing nothing |
| StoreRefinement.StepRefines | tp-2025-2c-main/storage/src/operaciones.c:3-249 | one guarded request: the abstract state and the reply are the plain ones, a request that fails changes nothing at all, and the invariant is kept |
| StoreRefinement.UncommittedDeletesSuffice | tp-2025-2c-main/storage/src/operaciones.c:218-249 | with collision-free hashes a run that deletes no committed tag is a guarded run |
| StoreRefinement.CommittedReadsTheSame | tp-2025-2c-main/storage/src/operaciones.c:193-216 | a committed tag reads the same in every later state of a guarded run that does not delete it |
| PlainStore.CommittedIsFrozen | tp-2025-2c-main/storage/src/operaciones.c:286-450 | in the plain map a committed tag stays, contents and size, until it is deleted |
| StoreRefinement.StructuresAgree | tp-2025-2c-main/storage/src/storage.c:262-342 | in every state of a guarded run: a bit is set iff the block's link count exceeds 1 iff some entry of BLOCKS names it; every index entry names an allocated block whose content hashes to its key and which a committed tag references; block 0 holds zeros and is allocated |
| StoreLinks.LinkCountsOverRuns | tp-2025-2c-main/storage/src/storage.c:278-317 | over every run, guarded or not: each link count is 1 plus the number of (file, tag, position) entries naming the block, the logical links are BLOCKS position by position, and for every tag BLOCKS has as many entries as blocks fit whole in its size: n blocks with n * blockSize <= size < (n + 1) * blockSize, none when the size is negative |
| StoreLinks.StepBookkept | tp-2025-2c-main/storage/src/operaciones.c:3-249 | each request keeps link counts, logical links and directories in step |
| StoreLinks.StepSized | tp-2025-2c-main/storage/src/operaciones.c:41-61 | each request keeps every BLOCKS as long as blocks fit whole in the size |
| StoreLinks.TruncateLength | tp-2025-2c-main/storage/src/operaciones.c:41 | TRUNCATE leaves n blocks with n * blockSize <= size < (n + 1) * blockSize, and none for a negative size: the quotient is truncated |
| StoreRefinement.CommitIsCanonical | tp-2025-2c-main/storage/src/operaciones.c:121-140 | after COMMIT each position holds the block the index names for its content, so two positions share a block iff their contents are equal |
| StoreOperations.CommitKeepsContents | tp-2025-2c-main/storage/src/operaciones.c:121-140 | COMMIT leaves what the tag reads unchanged if and only if blocks of the tag with equal hashes, and blocks the index offers for them, have equal contents |
| StoreOperations.CommitSafe | tp-2025-2c-main/storage/src/operaciones.c:105-145 | COMMIT keeps the invariant, every stored block and every other tag, and allocates nothing |
| StoreOperations.DedupSafe | tp-2025-2c-main/storage/src/operaciones.c:124-138 | the loop from any position on: contents stay, the index only grows, no bit is set, the list still matches the links, even when one block occurs at several positions and is freed midway |
| StoreOperations.DedupStepSafe | tp-2025-2c-main/storage/src/storage.c:302-317 | one turn of that loop: redirecting a link frees the old block exactly when nobody names it |
| StoreOperations.CommitLoop | tp-2025-2c-main/storage/src/operaciones.c:121-140 | the whole loop as COMMIT starts it: every position ends at the block the final index gives for its hash, and old index entries stay |
| StoreOperations.IndexOrigin | tp-2025-2c-main/storage/src/storage.c:396-414 | what COMMIT puts at a position is the old index's block for its hash, or one of the tag's own blocks with that hash |
| StoreWrites.WriteIsolation | tp-2025-2c-main/storage/src/operaciones.c:156-184 | a successful write changes what is seen at its own logical position and at no other of the whole store, and sets one free bit iff the block was shared |
| StoreWrites.WriteFailsIff | tp-2025-2c-main/storage/src/operaciones.c:165-176 | an otherwise valid write fails with ERROR_INSUFICIENTE iff the block is shared and every bit is set, and then nothing changes |
| StoreWrites.SharedIff | tp-2025-2c-main/storage/src/operaciones.c:162 | a link count other than 2 means exactly that another position of the store names the block |
| StoreWrites.InPlaceIsUnpinned | tp-2025-2c-main/storage/src/operaciones.c:162-164 | an in-place write never hits block 0 nor an indexed block |
| StoreWrites.WriteShape | tp-2025-2c-main/storage/src/operaciones.c:156-184 | the block written: the position's own when nobody else names it, else a free one, with the list entry, bit and contents that follow |
| StoreWrites.OthersMiss | tp-2025-2c-main/storage/src/operaciones.c:156-184 | no other position of any tag names the block that is written |
| StoreWrites.WriteSafe | tp-2025-2c-main/storage/src/operaciones.c:147-191 | a write to a tag in progress keeps the invariant |
| StoreWrites.DeleteSafeIff | tp-2025-2c-main/storage/src/operaciones.c:218-249 | DELETE keeps the invariant if and only if another committed tag holds block 0 and every index entry names a block another committed tag holds or goes away because a block of its hash is freed |
| StoreWrites.DeleteEffect | tp-2025-2c-main/storage/src/storage.c:287-300 | exactly what DELETE leaves: the other tags' links, and the index without the hashes of the blocks it freed, removed by content whichever block they named |
| StoreWrites.DeleteOfUncommittedIsHarmless | tp-2025-2c-main/storage/src/operaciones.c:218-249 | deleting a tag in progress always meets that condition |
| UnguardedDelete.UnguardedDeleteCorrupts | tp-2025-2c-main/storage/src/operaciones.c:218-249 | without the condition: thirteen requests to a freshly formatted store, under a hash without any collision, all of them successful; the ninth deletes a committed tag, in a state that satisfies the invariant, and COMMIT of a third tag turns what that tag reads from [1] into [2] |
| UnguardedDelete.StartIsReached | tp-2025-2c-main/storage/src/operaciones.c:3-216 | that state is what the first eight of them, every one answered CORRECTO, make of a freshly formatted store |
| UnguardedDelete.NothingCollides | tp-2025-2c-main/storage/src/storage.c:344-362 | the hash of that run is injective, the very hypothesis under which deleting uncommitted tags only is enough |
| UnguardedDelete.StartIsSafe | tp-2025-2c-main/storage/src/operaciones.c:218-249 | the state the deletion meets satisfies the invariant, by the general theorem on guarded runs |
| StoreRefinement.TruncateRefines | tp-2025-2c-main/storage/src/operaciones.c:39-61 | TRUNCATE appends zero blocks or keeps a prefix, for every count, and touches no other tag and no stored content |
| StoreOperations.TagSafe | tp-2025-2c-main/storage/src/operaciones.c:78-95 | TAG yields an equal snapshot under new metadata, allocates nothing, changes no other tag |
| StoreOperations.SetLengthSafe | tp-2025-2c-main/storage/src/operaciones.c:43-59 | growing and shrinking keep bitmap, counts and index truthful, stored contents as they were and every indexed block pinned |
| StoreOperations.CreateSafe | tp-2025-2c-main/storage/src/operaciones.c:3-29 | CREATE of a new file keeps the invariant |
| StoreRefinement.FreshSafe | tp-2025-2c-main/storage/src/storage.c:201-245 | the freshly formatted file system satisfies the invariant |
| StoreSafety.SoleHolder | tp-2025-2c-main/storage/src/operaciones.c:162 | a link count of 2 means a single logical holder |
| StoreSafety.UnusedIffAlone | tp-2025-2c-main/storage/src/storage.c:292 | a link count of 1 means no logical holder |
| StoreSafety.DropLinkSound | tp-2025-2c-main/storage/src/storage.c:287-300 | removing one link keeps bitmap, counts and index truthful, freeing the block exactly when its last link goes |
| StoreSafety.DropAllSound | tp-2025-2c-main/storage/src/operaciones.c:230-234 | removing a list of links, in order, keeps them truthful and removes from the index exactly the hashes of the blocks left without holders |
| StoreLinks.LinkFromLinks | tp-2025-2c-main/storage/src/operaciones.c:89-93 | the linking loop adds exactly the listed positions |
| StoreLinks.DropAllLinks | tp-2025-2c-main/storage/src/operaciones.c:53-58 | the unlinking loop removes exactly the listed positions |
| Common.FindFree | tp-2025-2c-main/storage/src/storage.c:262-276 | the first clear bit from a position on, or none when all are set (also the worker's scan) |
| StorageModule.Storage.constructor | tp-2025-2c-main/storage/src/storage.c:167-245 | formats: every block zero, block 0 linked by initial_file:BASE, its bit set, its hash indexed |
| StorageModule.Storage.FindFreeBlock | tp-2025-2c-main/storage/src/storage.c:262-276 | the scan loop finds the first clear bit |
| StorageModule.Storage.AddHardLink | tp-2025-2c-main/storage/src/storage.c:278-285 | link: adds the name and counts it, nothing when the name exists |
| StorageModule.Storage.RemoveName | tp-2025-2c-main/storage/src/storage.c:290 | unlink: the opposite |
| StorageModule.Storage.DropHardLink | tp-2025-2c-main/storage/src/storage.c:287-300 | unlink, then free the block and drop its hash when its count is 1 |
| StorageModule.Storage.Redirect | tp-2025-2c-main/storage/src/storage.c:302-317 | moves a name to another block and frees the old one when its count is 1, the index untouched |
| StorageModule.Storage.Check | tp-2025-2c-main/storage/src/operaciones.c:286-450 | the checks, in the source's order, with their error codes |
| StorageModule.Storage.Create | tp-2025-2c-main/storage/src/operaciones.c:3-29 | the new state is that of CREATE |
| StorageModule.Storage.Truncate | tp-2025-2c-main/storage/src/operaciones.c:31-67 | the new state is that of TRUNCATE, and BLOCKS has as many entries as blocks fit whole in the size |
| StorageModule.Storage.LinkZeros | tp-2025-2c-main/storage/src/operaciones.c:43-50 | the growing loop links block 0 at each new position, in order |
| StorageModule.Storage.Grow | tp-2025-2c-main/storage/src/operaciones.c:43-61 | growth, with BLOCKS and the size written back |
| StorageModule.Storage.UnlinkTail | tp-2025-2c-main/storage/src/operaciones.c:51-59 | the shrinking loop unlinks from the last position down |
| StorageModule.Storage.Shrink | tp-2025-2c-main/storage/src/operaciones.c:51-61 | shrinking, with BLOCKS and the size written back |
| StorageModule.Storage.MakeTag | tp-2025-2c-main/storage/src/operaciones.c:69-103 | the new state is that of TAG |
| StorageModule.Storage.DedupOne | tp-2025-2c-main/storage/src/operaciones.c:126-137 | one turn of the COMMIT loop: a new content is indexed, a known one redirects the position |
| StorageModule.Storage.Commit | tp-2025-2c-main/storage/src/operaciones.c:105-145 | the loop, replacing list entries as it goes, ends in the state of COMMIT; a second COMMIT does nothing |
| StorageModule.Storage.MoveHardLink | tp-2025-2c-main/storage/src/operaciones.c:178-179 | the link of a position moves to the block just written |
| StorageModule.Storage.Write | tp-2025-2c-main/storage/src/operaciones.c:147-191 | the new state and the code are those of WRITE_BLOCK |
| StorageModule.Storage.Delete | tp-2025-2c-main/storage/src/operaciones.c:218-249 | the unlinking loop ends in the state of DELETE |
| StorageModule.Storage.Serve | tp-2025-2c-main/storage/src/storage.c:478-505 | serves one request: new state and reply are those of the step that the refinement is about |
| Clock.Choose | tp-2025-2c-main/worker/src/memoria.c:51-77 | the victim is, cyclically from the hand, the first entry neither used nor modified; else the first unused modified one, with the use bits before it cleared; else, all cleared, the first unmodified one; else the entry at the hand; with the exact number of probes, at most 3n+1 |
| Clock.ChoiceIsUnique | tp-2025-2c-main/worker/src/memoria.c:51-77 | that description determines the victim, the cleared bits and the number of probes |
| WorkerModule.Worker.PickClockM | tp-2025-2c-main/worker/src/memoria.c:51-84 | the unbounded scan over a full table stops within 3n+1 probes at that victim, which leaves the list; the hand ends one past it modulo n; use bits are cleared exactly where the second kind of round passed |
| WorkerModule.Worker.Scan | tp-2025-2c-main/worker/src/memoria.c:51-77 | the loop over the rounds, endless in the source, ends within four rounds at that victim |
| WorkerModule.Worker.ScanRound | tp-2025-2c-main/worker/src/memoria.c:55-74 | one round of the hand: it takes the victim, or nothing had the flags it looks for |
| WorkerModule.Worker.ProbeAll | tp-2025-2c-main/worker/src/memoria.c:56-73 | the probes of one round, up to the one that stops it |
| WorkerModule.Worker.Probe | tp-2025-2c-main/worker/src/memoria.c:56-73 | one probe of a round |
| WorkerModule.ProbeMeans | tp-2025-2c-main/worker/src/memoria.c:58-72 | the flags a probe sees, after earlier clearing, stop it iff the entry had the wanted flags when the scan began |
| WorkerModule.ChosenAt | tp-2025-2c-main/worker/src/memoria.c:51-77 | a probe that stops does so at the choice |
| MemoryRuns.FrameTableOverRuns | tp-2025-2c-main/worker/src/memoria.c:103-206 | over every run of reads, writes, flushes and evictions that runs into no freed table: present pages have distinct frames, set bits are the frames of present pages, the global list is the present pages, modified implies present, and under CLOCK-M entry i holds frame i |
| MemoryRuns.ServeInv | tp-2025-2c-main/worker/src/memoria.c:305-629 | a READ, WRITE or FLUSH, complete or refused midway, keeps the invariant |
| MemoryRuns.InvMeans | tp-2025-2c-main/worker/src/memoria.c:103-206 | the invariant in those terms |
| MemoryRuns.EmptyInv | tp-2025-2c-main/worker/src/memoria.c:3-12 | the empty memory satisfies it |
| MemoryRuns.DanglingIff | tp-2025-2c-main/worker/src/memoria.c:362 | the append branch goes on with a table it has just freed if and only if memory is full and the victim is the last present page of that same table |
| MemoryRuns.WriteBackHitsItsPageIff | tp-2025-2c-main/worker/src/memoria.c:86-101 | a modified victim is written back under its own page number if and only if no later page of its table, absent ones included, carries the same frame number |
| MemoryHazards.ServeDanglesIff | tp-2025-2c-main/worker/src/memoria.c:305-575 | a READ or WRITE goes on with a freed table if and only if at one of its turns, in the state the turns before it reach, memory is full, the page lies beyond its table and the victim is the last present page of that table |
| MemoryHazards.WriteDanglesIff | tp-2025-2c-main/worker/src/memoria.c:352-427 | the same of the WRITE loop from any page and offset on, by induction on its turns |
| MemoryHazards.ReadDanglesIff | tp-2025-2c-main/worker/src/memoria.c:486-571 | the same of the READ loop |
| MemoryHazards.RoomSuffices | tp-2025-2c-main/worker/src/memoria.c:354-413 | known before the call: when the pages covered lie within the table, or as many frames are free, no READ or WRITE does |
| MemoryHazards.OneFrameDangles | tp-2025-2c-main/worker/src/memoria.c:362 | the hazard strikes: in an empty memory of one frame, a WRITE of two pages goes on with the table it has freed, under either policy |
| MemoryHazards.WriteBackMisses | tp-2025-2c-main/worker/src/memoria.c:86-121 | the other hazard strikes: after two writes to pages 0 and 2 in a memory of two frames, the next victim is page 0, modified, and is written back as page 1 |
| MemoryInvariant.AssignTidy | tp-2025-2c-main/worker/src/memoria.c:228-243 | a frame handed out is nobody's, free or evicted, and everybody else keeps theirs |
| MemoryInvariant.EvictTidy | tp-2025-2c-main/worker/src/memoria.c:14-42 | an eviction leaves one hole in the frame table and the tables without empty ones |
| MemoryInvariant.FullWhenNoneFree | tp-2025-2c-main/worker/src/memoria.c:228-243 | no clear bit means the global list is full; otherwise the first clear bit is the length of the list |
| MemoryInvariant.PickIsPicked | tp-2025-2c-main/worker/src/memoria.c:44-84 | either policy only takes one entry out of the list, and may clear use bits |
| MemoryInvariant.FreeFacts | tp-2025-2c-main/worker/src/memoria.c:103-130 | freeing a victim clears its bit, writes it back if modified, and destroys its table exactly when no page of it is present |
| MemoryInvariant.RegisterTidy | tp-2025-2c-main/worker/src/memoria.c:146-184 | registering the page fills the hole, at the end of the list or at the position of its frame |
| MemoryAccess.LoadAbsentBringsIn | tp-2025-2c-main/worker/src/memoria.c:390-413 | a miss on an absent page: the invariant, the page present with its flag, other present pages where they were |
| MemoryAccess.LoadNewBringsIn | tp-2025-2c-main/worker/src/memoria.c:187-206 | a miss beyond the table or without table: the same |
| MemoryAccess.HitInv | tp-2025-2c-main/worker/src/memoria.c:381-389 | a hit sets the modified flag and keeps the invariant |
| MemoryAccess.FilledInv | tp-2025-2c-main/worker/src/memoria.c:545-548 | copying the block read keeps the invariant |
| FlatMemory.WriteRefinesFlat | tp-2025-2c-main/worker/src/memoria.c:305-435 | WRITE on resident pages: the bytes transferred land at base, base+1, ... of the flat space of that file:tag, and every other resident byte of every tag is unchanged |
| FlatMemory.ReadRefinesFlat | tp-2025-2c-main/worker/src/memoria.c:437-575 | READ on resident pages returns the bytes at base, base+1, ... and changes no resident byte |
| FlatMemory.TransferIsWholeIff | tp-2025-2c-main/worker/src/memoria.c:326-327 | with block size s, offset o and length L at least 1 the bytes transferred are exactly min(L, ceil(L/s)*s - o), so the request is served whole iff o + L <= ceil(L/s)*s |
| FlatMemory.ResidentWrite | tp-2025-2c-main/worker/src/memoria.c:352-427 | the WRITE loop, by induction on its turns: content laid out page after page, nothing else |
| FlatMemory.ResidentRead | tp-2025-2c-main/worker/src/memoria.c:486-571 | the READ loop, by induction on its turns |
| FlatMemory.MovedIs | tp-2025-2c-main/worker/src/memoria.c:631-646 | what a number of turns moves: what fits up to the end of the last page |
| FlatMemory.VisitedIff | tp-2025-2c-main/worker/src/memoria.c:316-327 | the pages the turns visit are exactly the pages that hold a transferred byte |
| FlatMemory.PokeFrames | tp-2025-2c-main/worker/src/memoria.c:640-642 | copying into one frame leaves every other frame as it was |
| FlatMemory.WriteLoopInv | tp-2025-2c-main/worker/src/memoria.c:352-427 | the WRITE loop keeps the invariant wherever it stops |
| FlatMemory.ReadLoopInv | tp-2025-2c-main/worker/src/memoria.c:486-571 | the READ loop keeps the invariant wherever it stops |
| Fetching.TouchContents | tp-2025-2c-main/worker/src/memoria.c:380-422 | an access that goes through: on a hit every page holds what it held; on a miss a read finds in the page exactly the block the storage answered and a write what the frame held; every other page still in memory holds what it held |
| Fetching.HitOnlyFlags | tp-2025-2c-main/worker/src/memoria.c:381-389 | a hit sets the modified flag of its page to the access, a READ clearing it, and changes nothing else: not the use bit, not the list |
| Fetching.ReadFetches | tp-2025-2c-main/worker/src/memoria.c:437-575 | READ, whatever is in memory: the bytes returned are those at base, base+1, ... of what its pages are seen as, each page in its turn: what it holds when it is in memory then, else the block the storage answers; pages left in memory hold what was seen of them or what they held |
| Fetching.ReadOver | tp-2025-2c-main/worker/src/memoria.c:486-571 | the same of the READ loop from any page and offset on, by induction on its turns |
| Fetching.FreeFramesSee | tp-2025-2c-main/worker/src/memoria.c:486-571 | with as many free frames as turns, known before the call: a page in memory is seen as it is, any other as the storage answers it |
| Fetching.WriteChunkContents | tp-2025-2c-main/worker/src/memoria.c:352-427 | one turn of WRITE: the chunk is in the page, and outside it the page is what it was, or, when it was not in memory, what its frame held, the old block not being copied |
| Fetching.WriteLands | tp-2025-2c-main/worker/src/memoria.c:305-435 | WRITE, whatever is in memory: every address it covers that is in memory afterwards holds its byte of the content, and pages it does not visit hold what they held |
| Fetching.WriteOver | tp-2025-2c-main/worker/src/memoria.c:352-427 | the same of the WRITE loop, by induction on its turns |
| Refusals.ServeFailsIff | tp-2025-2c-main/worker/src/memoria.c:305-575 | a READ or WRITE fails with a code if and only if it is the one the storage gives for the first page, not in memory when its turn comes, that it refuses |
| Refusals.WriteFailsAt | tp-2025-2c-main/worker/src/memoria.c:417-420 | a WRITE loop that fails stops at a turn whose page is not in memory and which the storage refuses with that code |
| Refusals.WriteStopsThere | tp-2025-2c-main/worker/src/memoria.c:417-420 | and at such a turn it does stop, with that code, in the state the turns before it reach |
| Refusals.ReadFailsAt | tp-2025-2c-main/worker/src/memoria.c:561-563 | the same of the READ loop |
| Refusals.ReadStopsThere | tp-2025-2c-main/worker/src/memoria.c:561-563 | the same of the READ loop |
| Refusals.TouchFailsIff | tp-2025-2c-main/worker/src/memoria.c:417-420 | one access fails with a code if and only if its page is not in memory and the storage refuses it with that code |
| Replacement.OldestIsEvicted | tp-2025-2c-main/worker/src/memoria.c:44-49 | under LRU, in every reachable state: the next victim is in memory for longer than any other page in it, by the record of the order in which pages were brought in |
| Replacement.RunOrder | tp-2025-2c-main/worker/src/memoria.c:146-184 | over every run the global list of LRU is in the order in which its pages were last brought in |
| Replacement.TouchList | tp-2025-2c-main/worker/src/memoria.c:146-184 | a miss puts its page at the end of the list, whose head has made room when no frame was free, and is recorded; a hit moves nothing |
| Replacement.LruEvictsHead | tp-2025-2c-main/worker/src/memoria.c:44-49 | under LRU the victim is the head of the list and the list left is its tail |
| Replacement.ClockEvicts | tp-2025-2c-main/worker/src/memoria.c:51-84 | under CLOCK-M the victim is the entry of the choice, counted from the hand modulo the number of frames; it leaves the list, and the hand stops one past it |
| Replacement.ClockClears | tp-2025-2c-main/worker/src/memoria.c:51-77 | and each entry loses its use bit just when the choice says so, no page changing otherwise |
| WorkerModule.Worker.AdvanceHand | tp-2025-2c-main/worker/src/memoria.c:79-84 | one forward, modulo the number of frames |
| WorkerModule.Worker.PickLru | tp-2025-2c-main/worker/src/memoria.c:44-49 | the victim is the head of the list, and the list left is its tail |
| WorkerModule.Worker.FindPageNumber | tp-2025-2c-main/worker/src/memoria.c:86-101 | the last page of the table with that frame number, present or not |
| WorkerModule.Worker.FindNonePresent | tp-2025-2c-main/worker/src/memoria.c:138-144 | whether no page of the table is present |
| WorkerModule.Worker.LeaveFrame | tp-2025-2c-main/worker/src/memoria.c:103-121 | the victim leaves its frame, written back first when modified |
| WorkerModule.Worker.Free | tp-2025-2c-main/worker/src/memoria.c:103-130 | and its table goes when it was the last present page |
| WorkerModule.Worker.FindFreeFrame | tp-2025-2c-main/worker/src/memoria.c:232-239 | the scan loop finds the first clear bit |
| WorkerModule.Worker.Assign | tp-2025-2c-main/worker/src/memoria.c:228-243 | the first free frame, or the victim's |
| WorkerModule.Worker.FindEntry | tp-2025-2c-main/worker/src/memoria.c:169-180 | the first entry of the list with that frame |
| WorkerModule.Worker.AddToGlobalList | tp-2025-2c-main/worker/src/memoria.c:146-184 | sets the bit and enters the list according to the policy |
| WorkerModule.Worker.AppendPage | tp-2025-2c-main/worker/src/memoria.c:690-714 | absent pages up to the position, then the page |
| WorkerModule.Worker.AppendAbsent | tp-2025-2c-main/worker/src/memoria.c:706-714 | the loop that adds the absent pages |
| WorkerModule.Worker.CopyIn | tp-2025-2c-main/worker/src/memoria.c:631-646 | copies into a frame at an offset |
| WorkerModule.Worker.CopyOut | tp-2025-2c-main/worker/src/memoria.c:648-688 | copies out of a frame at an offset |
| WorkerModule.Worker.BringAbsent | tp-2025-2c-main/worker/src/memoria.c:397-408 | present, flags set, a frame, the list, in the source's order |
| WorkerModule.Worker.BringNew | tp-2025-2c-main/worker/src/memoria.c:362-368 | a frame, the appended page, the list; or the answer that the eviction has freed this very table |
| WorkerModule.Worker.Miss | tp-2025-2c-main/worker/src/memoria.c:390-415 | a page brought in and, for a read, filled with its block |
| WorkerModule.Worker.Access | tp-2025-2c-main/worker/src/memoria.c:380-422 | one turn of the transfer loops up to the copy: hit, refusal, miss, or a freed table |
| WorkerModule.Worker.WritePage | tp-2025-2c-main/worker/src/memoria.c:352-427 | one turn of the WRITE loop |
| WorkerModule.Worker.ReadPage | tp-2025-2c-main/worker/src/memoria.c:486-571 | one turn of the READ loop |
| WorkerModule.Worker.Write | tp-2025-2c-main/worker/src/memoria.c:305-435 | the loop over pages has the outcome of the transfer of the refinement, and its state unless it ran into a freed table |
| WorkerModule.Worker.Read | tp-2025-2c-main/worker/src/memoria.c:437-575 | the loop over pages has the outcome of the transfer and reads what it reads, and leaves its state unless it ran into a freed table |
| Flush.FlushWritesBack | tp-2025-2c-main/worker/src/memoria.c:597-629 | a FLUSH that succeeds: the storage block of every page whose modified bit was set equals its frame, no page of the tag stays modified, every other logical block of the store is unchanged, and the store keeps its invariant |
| Flush.FlushFromCorrect | tp-2025-2c-main/worker/src/memoria.c:610-626 | the same from any page of the table on, by induction |
| Flush.FlushRefused | tp-2025-2c-main/worker/src/memoria.c:613-625 | a FLUSH that is refused, at some page: that page and those before it are clean, those after it as they were; the modified pages before it are in their blocks and nothing else of the store changes; the code is the storage's answer to that page |
| Flush.PersistRefused | tp-2025-2c-main/worker/src/memoria.c:597-629 | FLUSH of a file:tag fails only so, and never without a table |
| Flush.PageWritten | tp-2025-2c-main/storage/src/operaciones.c:147-191 | the block write of one page changes the plain map at that block only |
| Flush.PersistPage | tp-2025-2c-main/worker/src/memoria.c:613-625 | one page: sent when modified, marked clean whatever the answer |
| Flush.PersistPages | tp-2025-2c-main/worker/src/memoria.c:610-626 | the loop over the worker and the storage objects, stopping at a refusal |
| Flush.PersistTag | tp-2025-2c-main/worker/src/memoria.c:597-629 | FLUSH on both objects; a success that does nothing without table |
| Flush.PersistIsRequest | tp-2025-2c-main/worker/src/memoria.c:597-629 | whatever the storage answers, a FLUSH marks the pages up to some one clean and changes nothing else of the memory: a request of the runs over which the frame table is kept |
| FlushAll.EverythingWrittenBack | tp-2025-2c-main/worker/src/memoria.c:577-595 | writing back every table before an eviction, when it succeeds: every modified page in memory is in its storage block, no page stays modified, every other logical block is unchanged |
| FlushAll.PersistAllWritesBack | tp-2025-2c-main/worker/src/memoria.c:577-595 | the same for any list of tables, by induction on the list |
| FlushAll.PersistAllRefused | tp-2025-2c-main/worker/src/memoria.c:577-595 | it fails only at the first table whose FLUSH fails, with its code, the tables after it being left as they are |
| FlushAll.PersistAllIsRun | tp-2025-2c-main/worker/src/memoria.c:577-595 | complete or cut short by a refusal, it is a run of FLUSH requests, so the frame table is kept |
| FlushAll.PersistTables | tp-2025-2c-main/worker/src/memoria.c:577-595 | the loop over the list of all tables, stopping at a refusal |
| SchedulerRuns.QueriesConserved | tp-2025-2c-main/master/src/planificacion.c:50-101 | in every reachable state each admitted, unreleased query is in exactly one of New, Ready, Execute, Desalojo and Exit, once, with an id below the next one; it is in Execute iff a connected worker runs it, and at most one worker does |
| SchedulerRuns.TokensMirrorQueues | tp-2025-2c-main/master/src/planificacion.c:59-101 | in every reachable state semQueryEsperandoReady = size of New + size of Desalojo, semQueryExit = size of Exit and semQueryReady = size of Ready + the number of disconnections taken while in Ready |
| SchedulerRuns.FaultPossibleIff | tp-2025-2c-main/master/src/planificacion.c:164-165 | in a reachable state some possible step takes from an empty list if and only if Ready is empty, such a disconnection left a token, and a worker is idle |
| SchedulerRuns.NoFaultUnlessWithdrawn | tp-2025-2c-main/master/src/planificacion.c:164-165 | in runs without such disconnections no worker dequeues from an empty Ready |
| StrayToken.WithdrawalFaults | tp-2025-2c-main/master/src/planificacion.c:73-82 | the fault strikes: in either mode, one query arrives, is made ready and withdrawn, a worker joins, and its dispatch, which the token allows, takes from an empty Ready |
| SchedulerRuns.StepInv | tp-2025-2c-main/master/src/planificacion.c:50-262 | every step keeps the scheduler's invariant |
| SchedulerPolicies.ListsStaySorted | tp-2025-2c-main/master/src/planificacion.c:366-405 | under priorities Ready and Execute are sorted by priority in every reachable state |
| SchedulerRuns.StepOrdered | tp-2025-2c-main/master/src/planificacion.c:366-405 | Ready and Execute stay sorted by priority through insertion, removal, aging and sorting |
| SchedulerRuns.TickOrdered | tp-2025-2c-main/master/src/planificacion.c:110-123 | an aging turn lowers by one the priority number, positive before, of a query no worker runs, and of no other, and leaves Ready a sorted permutation and Execute sorted |
| SchedulerRuns.StepPaired | tp-2025-2c-main/master/src/planificacion.c:152-242 | busy workers and Execute stay paired |
| SchedulerRuns.StepTokens | tp-2025-2c-main/master/src/planificacion.c:59-101 | every step keeps the semaphores in step with the queues |
| SchedulerRuns.StepStrays | tp-2025-2c-main/master/src/planificacion.c:73-82 | only a disconnection taken while in Ready leaves a token behind |
| SchedulerInvariant.StepShelved | tp-2025-2c-main/master/src/planificacion.c:50-262 | every step moves queries between the lists without losing or repeating any |
| SchedulerInvariant.FaultsOnlyOnStrayTokens | tp-2025-2c-main/master/src/planificacion.c:125-141 | no other step can fault: there is always a query to make ready, a worker to interrupt and a query to release |
| SchedulerPolicies.DispatchTakesBest | tp-2025-2c-main/master/src/planificacion.c:164-171 | under priorities a dispatch sends a query of minimal priority number of Ready, with the program counter the master holds |
| SchedulerPolicies.PreemptionIsJustified | tp-2025-2c-main/master/src/planificacion.c:125-141 | in every reachable state a query made ready or aged evicts a running one if and only if every worker is busy and some running query is strictly worse; the one evicted is a worst one of Execute, asked of the worker that runs it |
| SchedulerPolicies.PreemptIff | tp-2025-2c-main/master/src/planificacion.c:125-141 | the same of the check by itself |
| Aging.AgingIff | tp-2025-2c-main/master/src/planificacion.c:110-123 | in every reachable state the aging thread of a query can improve it if and only if the query is in Ready or Desalojo, its client is there and its priority is above 0 |
| Aging.ChallengerWaits | tp-2025-2c-main/master/src/planificacion.c:125-141 | in every run, whoever displaces a running query is in New, Ready or Desalojo: a query that runs or has ended evicts nobody |
| Aging.CodeTellsList | tp-2025-2c-main/master/src/planificacion.c:50-262 | in every reachable state the action code of a query tells its list: CREACION in New, ESPERA in Ready and Desalojo, EJECUCION or DESALOJO in Execute, FIN in Exit |
| Aging.AgingFollowsSetup | tp-2025-2c-main/master/src/planificacion.c:103-108 | in every reachable state: with aging on, under priorities, every query in Ready whose priority can improve has an aging thread; else no query has one |
| Aging.PriorityOnlyAges | tp-2025-2c-main/master/src/planificacion.c:110-118 | a query enters with the priority its client gave; only its own aging turns change it, by one each |
| Aging.StepTold | tp-2025-2c-main/master/src/planificacion.c:50-262 | every step keeps codes and lists in agreement |
| QueueOrder.NothingStuck | tp-2025-2c-main/master/src/planificacion.c:59-101 | in every reachable state the ready thread can move exactly when a query is in New or Desalojo, an idle worker can be given a query exactly when one is in Ready or a token was left over, and the exit thread exactly when a query is in Exit: nothing waits for want of a token |
| QueueOrder.NewWaitsForEvicted | tp-2025-2c-main/master/src/planificacion.c:250-259 | in every run a query goes from New to Ready only while Desalojo is empty, and it is the first of New |
| QueueOrder.NewServedInOrder | tp-2025-2c-main/master/src/planificacion.c:250-259 | in every reachable state New holds the latest queries in order of admission, every other query being older |
| QueueOrder.ReadyServes | tp-2025-2c-main/master/src/planificacion.c:85-101 | one turn of the ready thread takes the head of Desalojo, or of New when Desalojo is empty; Ready gains that query and the other queues stay |
| QueueOrder.QueuesServe | tp-2025-2c-main/master/src/planificacion.c:50-262 | no other event takes from New or Desalojo; both and Exit gain at the end, and Exit loses its head |
| QueueOrder.AnswersAct | tp-2025-2c-main/master/src/planificacion.c:179-242 | in every reachable state an answer is about the query its worker runs: a result moves nothing; a finished query goes to the end of Exit; an evicted one keeps the line to go on from and goes to the end of Desalojo, or of Exit when its client is gone |
| QueueOrder.LossActs | tp-2025-2c-main/master/src/planificacion.c:207-216 | in every reachable state a lost worker takes its query to the end of Exit, and nobody is asked anything |
| QueueOrder.DisconnectionActs | tp-2025-2c-main/master/src/planificacion.c:66-83 | in every reachable state a disconnection asks the worker that runs the query, and no other, to evict it; takes a query in Ready to Exit; and changes nothing when it is in New, Desalojo or Exit |
| QueueOrder.AskedAreEvicting | tp-2025-2c-main/master/src/planificacion.c:125-141 | in every run a query whose eviction is asked for is in Execute with code DESALOJO |
| FifoSystem.FifoOrderIffUnspoiled | tp-2025-2c-main/worker/src/ejecucion.c:104-118 | master and workers joined, in FIFO mode: every run keeps dispatched queries, Ready and New in admission order with Desalojo empty if and only if in no run a line other than END of a query whose client is still there is executed with the interrupt flag set |
| FifoSystem.FifoKeepsOrder | tp-2025-2c-main/master/src/planificacion.c:245-270 | run by run: without such a turn the order holds at every event of the master |
| FifoSystem.SpoiledIsGivenBack | tp-2025-2c-main/master/src/planificacion.c:179-233 | run by run: after such a turn the master needs only take answers for the order to break |
| SchedulerPolicies.FifoInOrderIff | tp-2025-2c-main/master/src/planificacion.c:245-270 | in FIFO mode, over a whole run, dispatched queries then Ready then New stay in admission order, with Desalojo empty, if and only if no worker gives back a query whose client is still there |
| SchedulerPolicies.StepInOrderIff | tp-2025-2c-main/master/src/planificacion.c:366-371 | one step in FIFO mode keeps that order if and only if it is not such an answer |
| SchedulerPolicies.FifoDispatchesOnce | tp-2025-2c-main/master/src/planificacion.c:163-171 | in those runs no query is dispatched twice, and every dispatched one was admitted before every waiting one |
| SchedulerPolicies.FifoEvictsOnlyTheDisconnected | tp-2025-2c-main/master/src/planificacion.c:66-83 | in FIFO mode the master asks for the eviction only of a query whose client has just left |
| StaleInterrupt.StillWantedIsEvicted | tp-2025-2c-main/worker/src/ejecucion.c:43-54 | the FIFO claim does not hold unconditionally: a run of master and worker in FIFO mode, the scripts ending well, in which a query whose client never left is evicted, by an interrupt meant for a query that had just ended |
| StaleInterrupt.InterruptMeetsEnd | tp-2025-2c-main/worker/src/ejecucion.c:106-118 | why the interrupt on END is excluded: a run with scripts that end well after which executing END makes the code dereference the query it has just released |
| SchedulerModule.Planner.constructor | tp-2025-2c-main/master/src/planificacion.c:29-48 | empty queues, zero semaphores |
| SchedulerModule.Planner.Admit | tp-2025-2c-main/master/src/planificacion.c:50-60 | one step of the scheduler: the query gets its id and waits in New |
| SchedulerModule.Planner.AddWorker | tp-2025-2c-main/master/src/planificacion.c:158-159 | a worker joins, idle |
| SchedulerModule.Planner.EnterReady | tp-2025-2c-main/master/src/planificacion.c:87-92 | the next query, evicted ones first, enters Ready in its place |
| SchedulerModule.Planner.MakeReady | tp-2025-2c-main/master/src/planificacion.c:85-101 | one turn of the ready thread is one step of the scheduler, messages included |
| SchedulerModule.Planner.CheckPreemption | tp-2025-2c-main/master/src/planificacion.c:125-141 | marks the worst running query and asks its worker, exactly when the check says so |
| SchedulerModule.Planner.StartAging | tp-2025-2c-main/master/src/planificacion.c:103-108 | starts aging unless started, off or FIFO |
| SchedulerModule.Planner.SettleReady | tp-2025-2c-main/master/src/planificacion.c:94-98 | the check, the aging, the token |
| SchedulerModule.Planner.WorkerExecuting | tp-2025-2c-main/master/src/planificacion.c:338-347 | the search finds a worker that runs the query, or there is none |
| SchedulerModule.Planner.AllWorkersBusy | tp-2025-2c-main/master/src/planificacion.c:440-449 | the search says whether every worker has a query |
| SchedulerModule.Planner.PlaceFor | tp-2025-2c-main/master/src/planificacion.c:366-383 | at the end in FIFO mode, else where the list stays sorted |
| SchedulerModule.Planner.SortByPriority | tp-2025-2c-main/master/src/planificacion.c:401-405 | a sorted permutation of the list |
| SchedulerModule.Planner.RemoveElement | tp-2025-2c-main/master/src/planificacion.c:394-398 | the list without the first occurrence |
| SchedulerModule.Planner.Dispatch | tp-2025-2c-main/master/src/planificacion.c:164-171 | a worker's turn is one step of the scheduler, or the fault of an empty Ready |
| SchedulerModule.Planner.EvictQuery | tp-2025-2c-main/master/src/planificacion.c:218-233 | an evicted query is taken back as the step of the scheduler takes it |
| SchedulerModule.TakenBackHeld | tp-2025-2c-main/master/src/planificacion.c:218-233 | taking a query back loses and repeats none |
| SchedulerModule.FinishedHeld | tp-2025-2c-main/master/src/planificacion.c:235-242 | finishing a query loses and repeats none |
| SchedulerModule.WithdrawalHeld | tp-2025-2c-main/master/src/planificacion.c:76-81 | withdrawing a query from Ready loses and repeats none and leaves one token more than queries |
| SchedulerModule.Planner.SendExit | tp-2025-2c-main/master/src/planificacion.c:235-242 | a finished query leaves Execute as the step of the scheduler has it |
| SchedulerModule.Planner.Respond | tp-2025-2c-main/master/src/planificacion.c:179-202 | an answer is one step of the scheduler |
| SchedulerModule.Planner.LoseWorker | tp-2025-2c-main/master/src/planificacion.c:207-216 | the loss of a busy worker is one step of the scheduler |
| SchedulerModule.Planner.RemoveWorker | tp-2025-2c-main/master/src/planificacion.c:331-335 | the worker leaves the list of workers |
| SchedulerModule.Planner.Withdraw | tp-2025-2c-main/master/src/planificacion.c:76-81 | the disconnection step of a query in Ready |
| SchedulerModule.Planner.Hangup | tp-2025-2c-main/master/src/planificacion.c:66-83 | a disconnection is one step of the scheduler |
| SchedulerModule.Planner.Improve | tp-2025-2c-main/master/src/planificacion.c:116-118 | the aging turn that goes on |
| SchedulerModule.Planner.Age | tp-2025-2c-main/master/src/planificacion.c:110-123 | a turn of the aging thread is one step of the scheduler, or its end |
| SchedulerModule.Planner.Release | tp-2025-2c-main/master/src/planificacion.c:143-150 | the exit thread frees the first query of Exit |
| PreemptionRuns.ExecutedOnceInOrder | tp-2025-2c-main/worker/src/ejecucion.c:72-132 | for any schedule of preemptions, requeues, disconnections and worker changes, the line indices executed for a query are 0, 1, 2, ... with no gap or repeat, none beyond END |
| PreemptionRuns.ResumesWhereItStopped | tp-2025-2c-main/master/src/planificacion.c:218-220 | a waiting query is next sent the line after the last one executed, and that line exists |
| PreemptionRuns.NeverSilent | tp-2025-2c-main/worker/src/ejecucion.c:90-145 | a worker that runs a query has a line of it to execute, its launch in the channel, or its last answer on its way |
| PreemptionRuns.SystemStepSteady | tp-2025-2c-main/worker/src/ejecucion.c:4-151 | every step of master, channels and workers keeps one token per query |
| PreemptionRuns.DispatchSteady | tp-2025-2c-main/master/src/planificacion.c:164-169 | a dispatch puts the token in the worker's channel |
| PreemptionRuns.AnswerSteady | tp-2025-2c-main/master/src/planificacion.c:179-201 | an answer brings it back, with the counter of the last line executed |
| PreemptionInvariant.TurnCarried | tp-2025-2c-main/worker/src/ejecucion.c:90-132 | a line executed moves the token on by one line, to the next line or to the answer |
| PreemptionInvariant.HearCarried | tp-2025-2c-main/worker/src/ejecucion.c:18-37 | reading a message moves the token into the interpreter, or leaves it |
| PreemptionInvariant.InterruptCarried | tp-2025-2c-main/master/src/planificacion.c:137-141 | an interrupt on its way changes nothing of where the token is |
| PreemptionInvariant.AnswerCarried | tp-2025-2c-main/master/src/planificacion.c:182-201 | an eviction answer carries exactly the number of lines executed |
| Readings.EveryReadAnswered | tp-2025-2c-main/worker/src/ejecucion.c:179-192 | over every run, the READ lines of a query that succeeded are as many as the results its client got, plus those on their way, plus those lost with a worker |
| Readings.TurnAnswers | tp-2025-2c-main/worker/src/ejecucion.c:90-132 | unless it meets an interrupt at an END that succeeds a turn goes through; it answers one result exactly when it is at a READ that succeeds, before anything else; it ends the hold on the query exactly when the line fails, is END, or meets an interrupt, which is used up, and then names the next line when the memory was written back |
| Readings.MessagesObeyed | tp-2025-2c-main/worker/src/ejecucion.c:4-54 | an interrupt read while a line is to be executed is obeyed right after that line, unless it is END: the worker lets go of the query, naming the next line when the line succeeds and the memory is written back; a launch takes the query at the line it names and leaves a pending interrupt pending |
| Readings.StepBalanced | tp-2025-2c-main/worker/src/ejecucion.c:179-192 | every step of master, channels and workers keeps that balance |
| InterpreterModule.TurnsCarried | tp-2025-2c-main/worker/src/ejecucion.c:90-145 | any stretch of the loop executes consecutive lines from the counter it was given, and reports the next one |
| InterpreterModule.Interpreter.Listen | tp-2025-2c-main/worker/src/ejecucion.c:18-32 | takes one message: a query to run or an interrupt |
| InterpreterModule.Interpreter.TakeInterrupt | tp-2025-2c-main/worker/src/ejecucion.c:43-54 | reads and clears the flag |
| InterpreterModule.Interpreter.ExecuteLine | tp-2025-2c-main/worker/src/ejecucion.c:153-234 | a line that fails or is END answers that the query has finished, a READ that succeeds one result, any other line nothing; the rest of the turn is that of a turn without interrupt |
| InterpreterModule.Interpreter.TakeTurn | tp-2025-2c-main/worker/src/ejecucion.c:92-132 | one turn: fetch, execute, look for an interrupt, go on; one result for a READ that succeeds and none else; a crash exactly when an interrupt is taken on END |
| InterpreterModule.Interpreter.Interpret | tp-2025-2c-main/worker/src/ejecucion.c:72-145 | the loop is the iteration of its turns, with the lines it executed |
| BlockList.ParsedPrinted | tp-2025-2c-main/utils/src/utils/utils.c:49-88 | parsing the printed list gives back any list of integers, the empty one and negative ones included |
| BlockList.PrintedInjective | tp-2025-2c-main/utils/src/utils/utils.c:72-88 | different lists never print alike |
| BlockList.AtoiItoa | tp-2025-2c-main/utils/src/utils/utils.c:61 | reading a printed number gives it back |
| BlockList.PrintedGrows | tp-2025-2c-main/utils/src/utils/utils.c:72-88 | the form of the text: brackets around numbers, each after the first preceded by a comma |
| BlockList.SplitJoined | tp-2025-2c-main/utils/src/utils/utils.c:56 | splitting at the commas gives back one text per number, and none for the empty list |
| BlockList.Print | tp-2025-2c-main/utils/src/utils/utils.c:72-88 | the loop that grows the text |
| BlockList.Parse | tp-2025-2c-main/utils/src/utils/utils.c:49-70 | the loop over the pieces; on a printed list it returns that list |
| Wire.DecodeEncode | tp-2025-2c-main/utils/src/utils/paquetes.c:12-20 | decoding what was encoded gives every item back and stops exactly where it ends, whatever follows |
| Wire.WordRoundTrip | tp-2025-2c-main/utils/src/utils/paquetes.c:12-20 | a 32-bit word survives its four bytes, negative ones included |
| Wire.WordIsLittleEndian | tp-2025-2c-main/utils/src/utils/paquetes.c:12-20 | the four bytes of a word are its base-256 digits, the least significant first, modulo 2^32 |
| Wire.QuerySizeIsExact | tp-2025-2c-main/utils/src/utils/serializacion.c:4 | the size computed for a query is exactly what its items take |
| Wire.QueryLayout | tp-2025-2c-main/utils/src/utils/serializacion.c:3-13 | a query travels as its id, priority, counter and action, each in four bytes, then the length of its path and the path |
| Wire.InstructionSizeIsExact | tp-2025-2c-main/utils/src/utils/serializacion.c:58-59 | the same for an instruction |
| Wire.InstructionLayout | tp-2025-2c-main/utils/src/utils/serializacion.c:57-81 | the fields of an instruction, in the order they travel, each text after its length |
| Wire.QueryReplySizeIsExact | tp-2025-2c-main/utils/src/utils/serializacion.c:115-116 | the same for an answer about a query |
| Wire.QueryReplyLayout | tp-2025-2c-main/utils/src/utils/serializacion.c:114-127 | the same of an answer about a query |
| Wire.StorageReplySizeIsExact | tp-2025-2c-main/utils/src/utils/serializacion.c:147 | the same for a storage answer |
| Wire.StorageReplyLayout | tp-2025-2c-main/utils/src/utils/serializacion.c:146-158 | the same of a storage answer |
| Wire.KindsAgree | tp-2025-2c-main/utils/src/utils/serializacion.c:3-171 | each reader expects the items its writer writes, in that order |
| Wire.InstructionInjective | tp-2025-2c-main/utils/src/utils/serializacion.c:57-81 | two instructions never have the same bytes |
| PacketModule.Buffer.constructor | tp-2025-2c-main/utils/src/utils/paquetes.c:4-10 | an empty buffer of that size |
| PacketModule.Buffer.Add | tp-2025-2c-main/utils/src/utils/paquetes.c:12-15 | copies the data at the cursor, what was written before stays, and moves the cursor |
| PacketModule.Buffer.Take | tp-2025-2c-main/utils/src/utils/paquetes.c:17-20 | copies from the cursor and moves it |
| PacketModule.SerializeQuery | tp-2025-2c-main/utils/src/utils/serializacion.c:3-13 | the buffer is exactly filled with the fields in order |
| PacketModule.SerializeInstruction | tp-2025-2c-main/utils/src/utils/serializacion.c:57-81 | the buffer is exactly filled with the fields in order |
| PacketModule.SerializeQueryReply | tp-2025-2c-main/utils/src/utils/serializacion.c:114-127 | the buffer is exactly filled with the fields in order |
| PacketModule.SerializeStorageReply | tp-2025-2c-main/utils/src/utils/serializacion.c:146-158 | the buffer is exactly filled with the fields in order |
| PacketModule.DeserializeQuery | tp-2025-2c-main/utils/src/utils/serializacion.c:15-27 | reads the fields the bytes hold, the cursor where they end |
| PacketModule.DeserializeInstruction | tp-2025-2c-main/utils/src/utils/serializacion.c:83-112 | reads the fields the bytes hold, the cursor where they end |
| PacketModule.DeserializeQueryReply | tp-2025-2c-main/utils/src/utils/serializacion.c:129-144 | reads the fields the bytes hold, the cursor where they end |
| PacketModule.DeserializeStorageReply | tp-2025-2c-main/utils/src/utils/serializacion.c:160-171 | reads the fields the bytes hold, the cursor where they end |
| PacketModule.QueryReadsBack | tp-2025-2c-main/utils/src/utils/serializacion.c:3-27 | what is read from the bytes of a query is that query, with nothing left |
| PacketModule.InstructionReadsBack | tp-2025-2c-main/utils/src/utils/serializacion.c:57-112 | what is read from the bytes of an instruction is that instruction, with nothing left |
| PacketModule.QueryReplyReadsBack | tp-2025-2c-main/utils/src/utils/serializacion.c:114-144 | the same for an answer about a query |
| PacketModule.StorageReplyReadsBack | tp-2025-2c-main/utils/src/utils/serializacion.c:146-171 | the same for a storage answer |
| PacketModule.PassInstruction | tp-2025-2c-main/utils/src/utils/serializacion.c:57-112 | an instruction written into a buffer and read from it is the same instruction |
| PacketModule.PassQuery | tp-2025-2c-main/utils/src/utils/serializacion.c:3-27 | the same for a query |
| PacketModule.PassQueryReply | tp-2025-2c-main/utils/src/utils/serializacion.c:114-144 | the same for an answer about a query |
| PacketModule.PassStorageReply | tp-2025-2c-main/utils/src/utils/serializacion.c:146-171 | the same for a storage answer |

## Left out

- Sockets, accept loops, handshakes, partial receives and the packet header: input and output of the operating system; only the message bodies and the channels between master and workers are here.
- Threads and mutexes: every request, event and turn is one atomic step. The mutex of a file:tag does not make "find a free block, mark it" atomic across tags (`storage/src/operaciones.c:166-183`), and aging runs beside dispatch, so nothing is claimed of interleavings.
- Files, directories, `link`, `unlink`, `stat` and `mmap`: maps and counted links. System calls succeed and hard links have no limit.
- The commons library, which is not part of this model: lists and dictionaries are sequences and maps, sorting and sorted insertion promise order and contents with ties anywhere, splitting an empty text gives no pieces, MD5 is an arbitrary function.
- Starting from an existing file system, logging, configuration, signals, delays and memory release.
- A block count that is not a multiple of 8: the bitmap is scanned in whole bytes, so the configuration is required to fill them.
- Write-back transparency across evictions, least-recently-used replacement (the list is in order of loading, `Replacement`), and coherence of the worker's pages after COMMIT, TAG, TRUNCATE or DELETE: the source does not give them. A READ hit clears the modified flag, a WRITE miss does not load the old block, hits do not reorder the list.
- READ results that contain a zero byte: the source appends them as text; the model returns bytes.
- What the storage answers to the write of an evicted page: the source ignores it (`worker/src/memoria.c:117-118`); the model records the writes sent.
- Pages are keyed by file:tag and number where the source has pointers, and the worker's bitmap and frame bytes are sequences in fields of the object rather than arrays, so sharing of those buffers is not modelled.
- The records of queries and of tag metadata are values in maps that the objects update, so aliasing of a query record between threads is not modelled.
- Integers are unbounded except on the wire; overflow of sizes, priorities and counters is not modelled. Texts on the wire are bytes.
- The meaning of each query line: the interpreter's lines are END, READ and others, each with the outcome the environment gives it. Lines after an END that is not last are not modelled.
- A worker that loses its connection while idle stays listed, as in the source.
- Query control, the system's client program.
- FlatMemory.WriteRefinesFlat: about pages that are resident; what a miss brings in, and what it leaves of the frame it takes, is in `Fetching`.
- StorageModule.Storage.Truncate: asks for a size above minus one block; at or below it the source removes from an empty list.
- StorageModule.Storage.Write: asks for at least a block of data; the source reads past anything shorter.
- StorageModule.Storage.Serve: asks for a request that is well formed in those two senses.
- WorkerModule.Worker.Write: asks for at least one byte; with none the source goes on to use a page it never set (`worker/src/memoria.c:428`). Of a transfer that runs into a freed table it gives the outcome, not the state: what the source then does is undefined.
- WorkerModule.Worker.Read: asks for a length of at least 1, for the same reason (`worker/src/memoria.c:572`), and gives the same of a freed table.
- PacketModule.DeserializeQuery: asks for bytes that hold such a message; the source checks no bounds.
- PacketModule.DeserializeInstruction: the same.
- PacketModule.DeserializeQueryReply: the same.
- PacketModule.DeserializeStorageReply: the same.
