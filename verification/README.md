# FluidMem's monitor in Dafny

FluidMem keeps most pages of a virtual machine's memory outside the host. A monitor process
handles the page faults: it moves pages between the application, a cache of prefetched pages, a
list of pages waiting to be written, and an external store, with a fault handler, a writer thread
and a prefetch thread working at the same time. This project models that monitor and the
structures it rests on, and proves what holds on every run.

## What is modelled

**The paging protocol** (`Monitor*`, `Coherence`, `Wakeups`, `Buffers`, `BufferLeaks`, `PagedRuns`,
`PrefetchRuns`, `LruHistory`). One machine for
`lib/userfault/userfault.c` with the page cache, the two lists, the LRU buffer and the store. A step
is one section under a lock, one semaphore operation, one store access or one kernel operation;
between any two steps any other thread and the application may step. The build options (page
cache, zero-page shortcut, threaded writes, threaded prefetch, asynchronous reads) and the sizes
are parameters, so each theorem is about every build. The outcome of a remap is chosen by the
environment.

The law at the centre is the one that `test/test_for_corruption.c` samples: the managed array
equals a shadow array. `Coherence.CoherentIff` decides it for every configuration that configure.ac
allows. It holds on all runs of exactly those that skip zero pages only with a page cache, and that
have room for a page when they read asynchronously, or else skip zero pages, write synchronously
and do not prefetch inline. For each of the others there is a run that loses a page, with no
interleaving that a lock forbids. Two families are worth a maintainer's attention: nothing in
configure.ac ties the zero-page shortcut to the page cache, and nothing keeps an operator from
resizing the LRU buffer to zero.

Coherence with prefetching is about a store whose reads return copies. The noop client hands out
its own buffers, and the page cache frees a buffer that it pushes out: `BufferLeaks.FreedIff` shows
that some run frees a buffer which the store still holds if and only if pages are prefetched. The
machine records freed buffers but lets their contents be, so what a read of freed memory returns is
outside the coherence theorem.

For the coherent configurations with room for a page there follow the location invariant, the
discipline of the write list, the safety of victims, the bound of the LRU buffer and the absence of
lost wake-ups. Buffers are accounted for on every run if and only if zero pages are not skipped and
nothing is prefetched: the shortcut never unmaps the buffer of the page it skips, and a prefetched
page shares the buffer of the store.

**The component structures**, each as the class the source has, proved against functions that the
machine uses: `ThreadedIo` (write and prefetch lists), `PageCache` and `PageCacheTables`,
`LruBuffer` and `PageKey`, `NoopStore`.

**The ring of pre-mapped pages** (`PageRing`, `RingMachine`, `RingProgress`): the class, and the two
threads with their two locks and two condition variables, interleaved at every slot. It never
sticks if and only if the batch is at most two less than the capacity.

**The kernel's `remap_pages`** (`Remap`): the loop over huge and small pages with every error it can
meet, and its documented return value.

**uthash** (`Links`, `UtHash`, `UtSort`): bucket chains and application order over the same nodes,
with doubling and the bottom-up mergesort. **The C LRU cache** (`LruCache`): a doubly linked queue
and a chained hash over the same nodes. Nodes are addresses, and each pointer field of the C
structs is a map from addresses, which the methods update.

## How the model reads the code

- Faults are handled one at a time, as the polling thread of `monitor/monitor.c:318-348` does, and
  resizes happen between faults. A fault may be raised for a page that is already present.
- A page is a descriptor between 1 and 4095 and a page-aligned 64-bit address.
  `PageKey.SameKey` shows what larger descriptors would do. Descriptors are not reused.
- The store is the in-memory map of the noop client. Its writes succeed and clients stay valid.
- COPY and ZEROPAGE fill a missing page and fail on a present one. REMAP moves a page, or a hole as
  a page of zeros, or fails and leaves the page where it is.
- `read_lock` and `pagecache_lock` only forbid interleavings; the machine does without them and so
  has more runs than the program.
- A semaphore post to the writer that the handler did not make may happen at any time, and so may a
  request to flush.
- A call that waits on a condition variable returns "nothing" in the sequential ring class and is a
  state of its own in the ring's machine.

Where code and comments differ the code is followed: `HASH_INITIAL_NUM_BUCKETS_LOG2` is 5 although
there are 512 buckets, and the selection loop's message counts as added the 101 pages that it has
only looked at.

## Model

| member | source | states |
|---|---|---|
| `Coherence.CoherentIff` | test/test_for_corruption.c:181-196 | For every configuration that configure.ac allows: no run, under any interleaving of handler, writer, prefetcher and application, lets a load see anything but the byte last stored (zero if none), if and only if (zero pages are skipped only with a page cache) and (an asynchronous read has room for its page, or zero pages are skipped, writes are synchronous and no read is an inline multi-read) |
| `MonitorRuns.SafeIsCoherent` | test/test_for_corruption.c:181-196 | A configuration with room for a page, and a page cache if zero pages are skipped, is coherent on every run |
| `MonitorRuns.MemoryPreserved` | lib/userfault/userfault.c:1061-1333 | At every moment of every run every byte of every page is the one last stored, in the one place (application, handler, write list, page cache, store) the state says is current |
| `MonitorRuns.ShadowIsLast` | test/test_for_corruption.c:195-196 | The shadow array is what its name says: per byte the last store, or the initial value |
| `MonitorRuns.ExecKeeps` | lib/userfault/userfault.c:72-1333 | Every step of every thread and of the application keeps the location-and-content invariant, with the shadow memory moving along |
| `MonitorRuns.RunKeeps` | lib/userfault/userfault.c:72-1333 | So does every run |
| `MonitorSteps.StoreKeeps` | test/test_for_corruption.c:195-196 | A store to a resident page keeps the invariant for the new memory |
| `MonitorSteps.CheckWriteKeeps` | lib/userfault/userfault.c:1079-1128 | The write-list check, with the page taken back from the list, keeps the invariant |
| `MonitorSteps.TopKeeps` | lib/pagecache/PageCacheImpl.cc:214-392 | Choosing pages to prefetch keeps it: every chosen page is at rest in the store |
| `MonitorSteps.VictimIsNotFaulting` | lib/userfault/userfault.c:386-394 | With room for one page the victim of an insertion is resident and not the page being faulted |
| `MonitorSteps.TrimInPlace` | lib/userfault/userfault.c:1299-1325 | Evicting the excess at the end of a fault pops no more than there is, and only resident pages |
| `MonitorSteps.ResizeInPlace` | lib/userfault/userfault.c:820-863 | So does a resize to any size |
| `MonitorMoves.MovedKeeps` | lib/userfault/userfault.c:885-954 | A successful remap leaves the page's content in the handler's hands and nowhere else |
| `MonitorMoves.EvictedKeeps` | lib/userfault/userfault.c:957-1032 | Skipping, listing or writing an evicted page keeps the invariant |
| `MonitorMoves.FlipKeeps` | lib/pagecache/PageCacheImpl.cc:528-552 | The ownership change after an eviction is always from the application, and makes the recorded owner the true one |
| `MonitorMoves.PlaceKeeps` | lib/userfault/userfault.c:1260-1286 | What is placed for a fault is the page's current content |
| `MonitorReads.BottomKeeps` | lib/pagecache/PageCacheImpl.cc:395-526 | The read through the page cache, in all ownership cases and with the inline multi-read of whatever keys are there, yields the current content |
| `MonitorReads.ReadMany` | lib/pagecache/PageCacheImpl.cc:472-500 | The inline multi-read caches only current copies of pages whose owner is external memory |
| `MonitorSteps.TopPrepares` | lib/pagecache/PageCacheImpl.cc:284-348 | Whenever the read will be an inline multi-read, its own top half has made the faulting page key 0 and the others pages that can be read |
| `MonitorThreads.WriterKeeps` | lib/userfault/userfault.c:79-238 | Every step of the writer keeps the invariant, also while the handler runs |
| `MonitorThreads.PrefetcherKeeps` | lib/userfault/userfault.c:249-367 | Every step of the prefetcher keeps the invariant, also while the handler runs |
| `MonitorRoom.RoomlessIsCoherent` | lib/userfault/userfault.c:1193-1247 | With skipped zero pages, a page cache and synchronous writes an asynchronous read is coherent at every capacity, although it may evict the page it is about to read |
| `MonitorExact.ForgetfulLosesPage` | lib/userfault/userfault.c:962-982 | Skipping zero pages without a page cache: a run after which a load sees an older value |
| `MonitorExact.NoRoomLosesPage` | lib/userfault/userfault.c:1233-1256 | Asynchronous reads at capacity zero without a page cache: a run that loses a page |
| `Coherence.SkippingLosesPage` | lib/userfault/userfault.c:1198-1247 | The same with page cache, skipped zero pages and threaded writes |
| `Coherence.StealingLosesPage` | lib/userfault/userfault.c:1186-1196 | The same with page cache, listed zero pages and threaded writes |
| `Coherence.OverwritingLosesPage` | lib/userfault/userfault.c:1006-1028 | The same with page cache, written zero pages and synchronous writes |
| `Coherence.StaleKeyLosesPage` | lib/pagecache/PageCacheImpl.cc:472-489 | The same with page cache, skipped zero pages, synchronous writes and inline multi-reads: the read takes the key that an earlier fault left, and the page gets the content of another one |
| `MonitorFacts.LocationInvariant` | lib/pagecache/PageCacheImpl.cc:164-202 | In every reachable state: cached iff owned by the cache; resident, listed for writing, listed for prefetching exclude one another; each fixes the owner |
| `MonitorFacts.NoUnexpectedOwner` | lib/pagecache/PageCacheImpl.cc:408-575 | A write is announced only for a page of the application, and a page taken back is external and not zero: those errors are unreachable, and so are a missing cached copy and a store miss. At a read the owner is the application, the other case logged as an error, if and only if the page is resident |
| `MonitorFacts.ResidentRead` | lib/pagecache/PageCacheImpl.cc:517-520 | That error is reached with every configuration that has a page cache: by a second fault on a resident page |
| `MonitorFacts.KeysAreOwn` | lib/pagecache/PageCacheImpl.cc:284-331 | In a coherent configuration with room for a page, key 0 of an inline multi-read is the faulting page, and what the keys read is current |
| `MonitorFacts.PrefetchIsFresh` | lib/pagecache/PageCacheImpl.cc:599-645 | What the prefetcher stores is the current content of a page still owned by external memory; the overwrite branch is unreachable and no prefetch read misses |
| `MonitorFacts.WriteListDiscipline` | lib/userfault/userfault.c:109-192 | Write-list keys stay unique without a check; entries in flight are exactly the writer's batch, of one descriptor and bounded; its deletes remove exactly the batch, which is in the store by then |
| `MonitorFacts.VictimSafety` | lib/userfault/userfault.c:386-454 | Every LRU member but the page being faulted is resident; a page handed to REMAP is resident, so no hole is evicted |
| `MonitorFacts.LruBound` | lib/userfault/userfault.c:1299-1325 | At most the capacity between faults and resizes, at most one more during a fault, at most the new size during a resize; no page twice |
| `Wakeups.NoLostWakeup` | lib/userfault/userfault.c:1079-1168 | A handler parked at count zero is owed a post by a thread that can step; a parked prefetcher with work, and a parked writer with a full batch, have a post pending |
| `Wakeups.WriteWaitEnds` | lib/userfault/userfault.c:160-230 | A page in flight leaves the write list within a bounded number of writer steps, whatever else is interleaved |
| `Wakeups.PrefetchWaitEnds` | lib/userfault/userfault.c:249-361 | While the handler waits for a prefetched page every prefetcher round shrinks the list, so the page leaves it within a bounded number of prefetcher steps |
| `Buffers.MappingConservation` | lib/userfault/userfault.c:160-223 | Prefetching or not, if zero pages are not skipped: every buffer ever mapped is in exactly one of write list, store, handler's hands, writer's hands, unmapped |
| `Buffers.BufferConservation` | lib/userfault/userfault.c:1278-1286 | Without prefetching every buffer is accounted for, the page cache and free included, and none is unmapped while it is being copied |
| `Buffers.NothingFreed` | lib/pagecache/PageCacheImpl.cc:127-148 | Without prefetching the page cache never frees a buffer |
| `BufferLeaks.LeakRun` | lib/userfault/userfault.c:968-981 | With zero-page skipping, whatever the other options: a run after which a mapped buffer is nowhere |
| `BufferLeaks.MappingIff` | lib/userfault/userfault.c:1042-1055 | The monitor's own unmapping conserves buffers on all runs if and only if zero pages are not skipped |
| `BufferLeaks.ConservationIff` | lib/userfault/userfault.c:1042-1055 | Every buffer is accounted for on all runs, the page cache and free included, if and only if zero pages are not skipped and nothing is prefetched |
| `BufferLeaks.SharedRun` | lib/pagecache/PageCacheImpl.cc:480-499 | With prefetching, whatever the other options: a run after which a buffer is in the store and also in the page cache or freed |
| `BufferLeaks.FreedIff` | lib/pagecache/PageCacheImpl.cc:127-148 | Some run frees a buffer that the store still holds, for a page whose next read is from the store, if and only if pages are prefetched (given pages enough to fill the cache) |
| `PrefetchRuns.FreedRun` | lib/pagecache/PageCacheImpl.cc:139-145 | That run, for every size of the page cache and all other options |
| `PrefetchRuns.HotFault` | lib/pagecache/PageCacheImpl.cc:284-348 | Two consecutive faults prefetch the next page, inline or by the prefetch thread, with the store's own buffer; a full cache frees its last one |
| `ThreadedIo.FindWriteInfo` | include/threaded_io.h:71-78 | Finds an entry with the key exactly if there is one |
| `ThreadedIo.DelWriteInfo` | include/threaded_io.h:98-111 | Removes one entry with the key if there is one, and no other |
| `ThreadedIo.DelWriteInfoUnique` | include/threaded_io.h:98-111 | With unique keys exactly the entry with the key goes |
| `ThreadedIo.MarkDiscipline` | lib/userfault/userfault.c:109-132 | Marking selects distinct keys of one descriptor; exactly those are in flight afterwards; keys and buffers are unchanged |
| `ThreadedIo.DelBatchDiscipline` | lib/userfault/userfault.c:185-188 | Every delete of the batch finds its entry, once; precisely the other entries stay |
| `ThreadedIo.PickDiscipline` | lib/userfault/userfault.c:266-283 | The prefetcher picks distinct keys, and at least one from a non-empty list |
| `ThreadedIo.DelPrefetchedDiscipline` | lib/userfault/userfault.c:346-350 | Deleting the picked keys removes exactly them |
| `ThreadedIo.IoLists.constructor` | include/threaded_io.h:26-27 | Both lists start empty |
| `ThreadedIo.IoLists.AddWriteInfo` | include/threaded_io.h:48-57 | The new entry is last and not in flight |
| `ThreadedIo.IoLists.ExtractPage` | include/threaded_io.h:118-131 | A page is extracted exactly if it is listed and not in flight; only its entry goes |
| `ThreadedIo.IoLists.MarkBatch` | lib/userfault/userfault.c:109-143 | The mark loop computes the batch and the marked list, within the arrays' bounds |
| `ThreadedIo.IoLists.DeleteBatch` | lib/userfault/userfault.c:185-188 | The delete loop computes the list without the batch |
| `ThreadedIo.IoLists.AddPrefetchInfo` | include/threaded_io.h:135-142 | The new key is last |
| `ThreadedIo.IoLists.PickBatch` | lib/userfault/userfault.c:266-283 | The pick loop computes the picked keys |
| `ThreadedIo.IoLists.DeletePrefetched` | lib/userfault/userfault.c:346-350 | The delete loop computes the list without them |
| `NoopStore.WriteToDistinct` | lib/externram/noop/externRAMClientImpl.cc:285-304 | With distinct keys a multi-write stores every pair, leaves other keys, and hands back the buffers held before |
| `NoopStore.CountFound` | lib/externram/noop/externRAMClientImpl.cc:236-248 | All keys are counted exactly if all are stored |
| `NoopStore.Client.constructor` | lib/externram/noop/externRAMClientImpl.cc:72-86 | The store starts empty |
| `NoopStore.Client.Write` | lib/externram/noop/externRAMClientImpl.cc:112-158 | The new buffer replaces the old one, which goes back to the caller |
| `NoopStore.Client.Read` | lib/externram/noop/externRAMClientImpl.cc:170-209 | A page-sized answer exactly for stored keys |
| `NoopStore.Client.MultiWrite` | lib/externram/noop/externRAMClientImpl.cc:285-304 | The writes in order, each handing back what it replaced; frees are announced exactly if something was replaced |
| `NoopStore.Client.MultiRead` | lib/externram/noop/externRAMClientImpl.cc:236-248 | One answer per key, and the number found |
| `NoopStore.Client.Remove` | lib/externram/noop/externRAMClientImpl.cc:315-347 | The entry goes and its buffer is unmapped |
| `PageCache.AddPageInv` | lib/pagecache/PageCacheImpl.cc:614-637 | Adding an uncached page keeps "cached iff owned by the cache" and puts it in front |
| `PageCache.PopLruInv` | lib/pagecache/PageCacheImpl.cc:127-151 | The page pushed out is owned by external memory again and its buffer is freed; nothing else changes owner |
| `PageCache.StorePageInv` | lib/pagecache/PageCacheImpl.cc:599-645 | Storing one page keeps the invariant; what may change is the page and what it pushes out |
| `PageCache.StorePagesInv` | lib/pagecache/PageCacheImpl.cc:647-657 | The same for any number of distinct pages |
| `PageCache.SelectOk` | lib/pagecache/PageCacheImpl.cc:284-348 | Distinct eligible pages ahead of the faulting one, never itself, at most the run, the configured size (at least one) and 101; array indices stay below MAX_MULTI_READ |
| `PageCache.SelectIsFirst` | lib/pagecache/PageCacheImpl.cc:298-348 | The loop picks exactly the first eligible pages of the horizon, in ascending order, as many as run and size allow |
| `PageCacheTables.WindowCountsRun` | lib/pagecache/PageCacheImpl.cc:218-225 | After any accesses the counter is the length of the longest run of consecutive pages they end in |
| `PageCacheTables.Tables.constructor` | lib/pagecache/PageCacheImpl.cc:68-77 | Empty tables, a window at address zero |
| `PageCacheTables.Tables.AdvanceWindow` | lib/pagecache/PageCacheImpl.cc:221-225 | One more access |
| `PageCacheTables.Tables.SelectKeys` | lib/pagecache/PageCacheImpl.cc:284-348 | The loop fills the array with the faulting page and the selected ones, and never writes past it |
| `PageCacheTables.Tables.ReadTop` | lib/pagecache/PageCacheImpl.cc:214-392 | The window advances; a miss on a stored page leaves the keys of the faulting page and the selected ones in the array, or the selected pages at the end of the prefetch list; otherwise array and count stay as they are |
| `PageCacheTables.Tables.ReadBottom` | lib/pagecache/PageCacheImpl.cc:395-526 | In place, through the store client, exactly what the machine's read step computes, in all ownership cases and for any keys in the array |
| `PageCacheTables.Tables.ReadMany` | lib/pagecache/PageCacheImpl.cc:472-500 | The inline multi-read of whatever keys are in the array: key 0 counts as the faulting page, the others enter the cache |
| `PageCacheTables.Tables.UpdateAfterWrite` | lib/pagecache/PageCacheImpl.cc:528-552 | In-place form of the ownership change after an eviction |
| `PageCacheTables.Tables.UpdateAfterSkippedRead` | lib/pagecache/PageCacheImpl.cc:554-578 | In-place form of the ownership change after a page was taken back |
| `PageCacheTables.Tables.PopLru` | lib/pagecache/PageCacheImpl.cc:127-151 | In-place form of the eviction from the page cache, with the free |
| `PageCacheTables.Tables.StorePage` | lib/pagecache/PageCacheImpl.cc:599-645 | In-place form of storing a page |
| `PageCacheTables.Tables.StorePages` | lib/pagecache/PageCacheImpl.cc:647-657 | The loop over the pages |
| `LruBuffer.ToFrontNoDup` | lib/lrubuffer/LRUBufferImpl.hh:63-70 | Insertion or relocation never makes a duplicate, and grows the list only for a new page |
| `LruBuffer.VictimsSplit` | lib/lrubuffer/LRUBufferImpl.cc:112-131 | The victims and the rest are disjoint and together the list |
| `LruBuffer.RecencyOrder` | lib/lrubuffer/LRUBufferImpl.hh:63-98 | After any insertions and pops the list is in strictly decreasing order of last insertion |
| `LruBuffer.VictimsAreLeastRecent` | lib/lrubuffer/LRUBufferImpl.cc:112-131 | Every victim was last inserted before every page that stays, and before later victims |
| `LruBuffer.PushFrontIsToFront` | lib/lrubuffer/LRUBufferImpl.hh:63-70 | On the hash-coded nodes insertion is move-to-front of pages: distinct pages are never confused |
| `LruBuffer.LruList.constructor` | lib/lrubuffer/LRUBufferImpl.cc:48-62 | Empty, with the configured bound |
| `LruBuffer.LruList.InsertCacheNode` | lib/lrubuffer/LRUBufferImpl.cc:83-110 | The page becomes the most recent; over the bound the least recent leaves and is returned |
| `LruBuffer.LruList.PopNLru` | lib/lrubuffer/LRUBufferImpl.cc:112-131 | As many pops as asked for and available, least recent first, each decoding to the page that was inserted |
| `LruBuffer.LruList.PopLru` | lib/lrubuffer/LRUBufferImpl.cc:133-151 | The least recent page |
| `LruBuffer.LruList.SetSize` | lib/lrubuffer/LRUBufferImpl.cc:193-205 | Only the bound changes; a negative size becomes a very large bound |
| `LruHistory.LruIsHistory` | lib/userfault/userfault.c:386-454 | On every run of every configuration the LRU buffer is the list that the run's insertions, evictions, trims and resizes make |
| `LruHistory.LeavesLeastRecent` | lib/userfault/userfault.c:777-863 | Whatever leaves the buffer in a step of a run was last inserted before everything that stays |
| `PageKey.MaskRecoversPage` | include/pagehash.h:6-9 | Adding the descriptor never wraps, and masking gives the page back, for every descriptor |
| `PageKey.SameKey` | include/pagehash.h:6-9 | Two keys are equal if and only if pages are equal and descriptors agree modulo the page size |
| `PageKey.KeyRoundTrip` | lib/userfault/userfault.c:393-394 | For valid pages: decoding recovers page and descriptor, no key is the empty answer, keys are injective |
| `RingMachine.RingSafety` | include/buffer_allocator_array.h:84-102 | With hand-out and refill interleaved at every slot: pages are handed out in the order they were mapped, each once, and a refill writes only to slots already handed out |
| `RingMachine.RingIndices` | include/buffer_allocator_array.h:166-192 | Current index plus number of initialized pages is the last initialized index around the circle, outside the two-update windows |
| `RingProgress.SafetyIff` | include/buffer_allocator_array.h:84-192 | The slots are safe on all runs if and only if the batch is not negative or there is one slot; the indices agree on all runs if and only if it is not negative |
| `RingMachine.CleanupUnmapsRest` | include/buffer_allocator_array.h:204-216 | What cleanup unmaps is exactly what was mapped and not handed out |
| `RingProgress.NeverStuck` | include/buffer_allocator_array.h:84-109 | With a batch of at most capacity minus two, one of the two threads can always step |
| `RingProgress.StuckRun` | include/buffer_allocator_array.h:166-175 | With a larger batch: a run that leaves both asleep |
| `RingProgress.ProgressIff` | include/buffer_allocator_array.h:166-198 | For every batch size: never stuck if and only if the batch is at most capacity minus two |
| `RingProgress.NegativeBatchCorrupts` | include/buffer_allocator_array.h:168-192 | A negative batch, with any capacity, drives the last index to minus one, and the indices disagree |
| `RingProgress.NegativeBatchOverruns` | include/buffer_allocator_array.h:176-187 | With two slots or more the next refill then writes before the start of the array |
| `RingProgress.OneSlotSafe` | include/buffer_allocator_array.h:84-192 | With one slot the slots are safe whatever the batch |
| `PageRing.AroundFirst` | include/buffer_allocator_array.h:94-100 | Taking the current page and wrapping the index removes the first of the ready pages |
| `PageRing.AroundExtend` | include/buffer_allocator_array.h:177-187 | Mapping into the slot behind the last ready page appends to them |
| `PageRing.Ring.constructor` | include/buffer_allocator_array.h:115-153 | All slots mapped and ready, in order |
| `PageRing.Ring.GetTmpPage` | include/buffer_allocator_array.h:77-113 | The first ready page, unless at most one is left; the producer is signalled exactly if a batch has room |
| `PageRing.Ring.MapPages` | include/buffer_allocator_array.h:176-187 | The loop appends freshly mapped pages to the ready ones and touches no other slot |
| `PageRing.Ring.Reinit` | include/buffer_allocator_array.h:155-202 | Refills all slots but one exactly if a batch has room |
| `PageRing.Ring.Cleanup` | include/buffer_allocator_array.h:204-225 | Unmaps exactly the ready pages |
| `Remap.RemapPages` | patches/kernel/old/4.13/0003-userfaultfd-remap_pages-UFFDIO_REMAP-preparation.patch:437-722 | A positive result: exactly that many pages moved, holes staying holes, the rest untouched, no hole passed unless allowed; negative: nothing moved; never zero; undisturbed and unobstructed: everything |
| `Remap.RemapLoop` | patches/kernel/old/4.13/0003-userfaultfd-remap_pages-UFFDIO_REMAP-preparation.patch:561-712 | The loop keeps source offset, destination offset and moved pages equal, under any errors and signals, and ends |
| `Remap.Iterate` | patches/kernel/old/4.13/0003-userfaultfd-remap_pages-UFFDIO_REMAP-preparation.patch:561-712 | One iteration, with its error |
| `Remap.MoveNext` | patches/kernel/old/4.13/0003-userfaultfd-remap_pages-UFFDIO_REMAP-preparation.patch:594-711 | Whole if the huge page can move, else split; the alignment assertion holds and the length is not overshot |
| `Remap.HugePart` | patches/kernel/old/4.13/0003-userfaultfd-remap_pages-UFFDIO_REMAP-preparation.patch:614-641 | The huge branch with a pending signal |
| `Remap.HugeStep` | patches/kernel/old/4.13/0003-userfaultfd-remap_pages-UFFDIO_REMAP-preparation.patch:62-167 | All pages of a huge page move, or none |
| `Remap.SmallPart` | patches/kernel/old/4.13/0003-userfaultfd-remap_pages-UFFDIO_REMAP-preparation.patch:644-711 | Tables are there when the small step needs them |
| `Remap.SmallStep` | patches/kernel/old/4.13/0003-userfaultfd-remap_pages-UFFDIO_REMAP-preparation.patch:233-390 | One page or one allowed hole moves, or nothing does and the error says why |
| `Remap.Tables` | patches/kernel/old/4.13/0003-userfaultfd-remap_pages-UFFDIO_REMAP-preparation.patch:644-683 | Allocating or splitting tables moves nothing; afterwards the asserted table states hold |
| `Remap.Directories` | patches/kernel/old/4.13/0003-userfaultfd-remap_pages-UFFDIO_REMAP-preparation.patch:566-583 | Finding or allocating directory entries moves nothing |
| `UtHash.ChainsAdd` | include/uthash.h:736-747 | Pushing an item to its bucket keeps all chains well formed |
| `UtHash.ChainsRemove` | include/uthash.h:750-760 | So does unlinking one |
| `UtHash.CountsAddUp` | include/uthash.h:400-450 | Bucket counts add up to the number of items |
| `UtHash.TableCounts` | include/uthash.h:400-450 | The same for every table that the operations produce |
| `UtHash.MaskIsRemainder` | include/uthash.h:320-323 | The bucket mask of a power of two is the remainder |
| `UtHash.IdealNonZero` | include/uthash.h:802-816 | The ideal chain length is never a zero divisor, although 512 buckets start with logarithm 5 |
| `UtHash.Table.constructor` | include/threaded_io.h:26-27 | The empty table is the empty map |
| `UtHash.Table.Find` | include/uthash.h:119-135 | Finds exactly what the plain map holds |
| `UtHash.Table.FindInBkt` | include/uthash.h:714-733 | The walk along a chain finds the key exactly if it is there |
| `UtHash.Table.Iterate` | include/uthash.h:993-1000 | Visits the items in application order |
| `UtHash.Table.ExpandBuckets` | include/uthash.h:791-837 | Twice the buckets for the same items, a power of two again: both linked structures stay well formed |
| `UtHash.Table.MoveChains` | include/uthash.h:806-825 | The two loops move every node of every chain once, to the bucket of its hash |
| `UtHash.Table.AddToBkt` | include/uthash.h:736-747 | The item enters its bucket, possibly with an expansion |
| `UtHash.Table.AppendItem` | include/uthash.h:225-231 | The item becomes the last in application order |
| `UtHash.Table.MakeTable` | include/uthash.h:172-189 | A well-formed table without items |
| `UtHash.Table.Register` | include/uthash.h:284-300 | The item has its key and hash and is last |
| `UtHash.Table.Add` | include/uthash.h:284-305 | A new key: the map gains it, the order gains it at the end, everything stays well formed |
| `UtHash.Table.DelInBkt` | include/uthash.h:750-760 | Exactly the item leaves its chain |
| `UtHash.Table.UnlinkItem` | include/uthash.h:348-367 | Exactly the item leaves the application order |
| `UtHash.Table.Delete` | include/uthash.h:337-370 | The map loses the key, the others keep their order |
| `UtHash.Table.FindRun` | include/uthash.h:860-868 | The length of the run and the node after it |
| `UtHash.Table.MergeTwo` | include/uthash.h:869-914 | Merges two runs stably onto the output and leaves the rest alone |
| `UtHash.Table.SortPass` | include/uthash.h:854-919 | One pass is the pass on sequences, with both links right |
| `UtHash.Table.SortList` | include/uthash.h:844-929 | The passes end; head, tail and both links are right |
| `UtHash.Table.Sort` | include/uthash.h:844-929 | The order becomes the stable sort of itself; keys, buckets and lookups are unchanged |
| `UtSort.SortIsStable` | include/uthash.h:844-929 | The bottom-up mergesort yields a sorted permutation that keeps the order of equal items |
| `UtSort.MergeSorts` | include/uthash.h:869-914 | Merging two stably sorted runs sorts them stably |
| `UtSort.PassDoubles` | include/uthash.h:854-919 | A pass doubles the length of the sorted runs |
| `LruCache.HoldsMostRecent` | lib/lrubuffer/lrucache.h:360-403 | After any references the cache holds the most recently referenced addresses, as many as fit, in that order |
| `LruCache.ReferenceTruncates` | lib/lrubuffer/lrucache.h:317-403 | One reference commutes with cutting the recency list to the frames |
| `LruCache.HashInsert` | lib/lrubuffer/lrucache.h:195-224 | Linking a new node at the end of its chain keeps the hash well formed |
| `LruCache.HashRemove` | lib/lrubuffer/lrucache.h:226-255 | Unlinking a node keeps it well formed |
| `LruCache.AddressMembers` | lib/lrubuffer/lrucache.h:178-193 | Queue and hash index the same addresses, each once |
| `LruCache.FoundIff` | lib/lrubuffer/lrucache.h:178-193 | A walk along the chain ends at a node exactly if the address is in the hash |
| `LruCache.FrontNode` | lib/lrubuffer/lrucache.h:377-399 | The pointer updates of a move to the front give a well-formed queue |
| `LruCache.RearNode` | lib/lrubuffer/lrucache.h:297-305 | So do those of the removal at the rear |
| `LruCache.Cache.constructor` | lib/lrubuffer/lrucache.h:74-161 | An empty cache |
| `LruCache.Cache.FindQNode` | lib/lrubuffer/lrucache.h:178-193 | The queue node of the address exactly if it is cached |
| `LruCache.Cache.InsertHash` | lib/lrubuffer/lrucache.h:195-224 | A new address gets a node, a known one keeps its own |
| `LruCache.Cache.RemoveHash` | lib/lrubuffer/lrucache.h:226-255 | Exactly the address leaves the hash, if it was there |
| `LruCache.Cache.DeQueue` | lib/lrubuffer/lrucache.h:276-313 | The last node leaves if its page could be evicted; otherwise nothing changes |
| `LruCache.Cache.Enqueue` | lib/lrubuffer/lrucache.h:317-358 | The new page is in front; a full cache gives up its last page, or stays unchanged if that fails |
| `LruCache.Cache.Promote` | lib/lrubuffer/lrucache.h:377-399 | The node moves to the front of the queue |
| `LruCache.Cache.ReferencePage` | lib/lrubuffer/lrucache.h:365-403 | Is one step of the LRU model on sequences; count never exceeds the frames; a failed eviction changes nothing |

## Left out

- Flushing: `flushed_write_sem` and what `flush_write_list` waits for are not part of this model; a flush request is only a reason for the writer to write.
- Tear-down: removal of a descriptor from LRU buffer, page cache and page hash, `PageCacheImpl::cleanup`, and reuse of descriptors.
- Eviction commanded from the user interface while a fault is handled; it takes no lock and is outside the one-thread discipline.
- Invalid descriptors: the paths taken when no client is found, in handler, writer and prefetcher.
- Failing `mmap` and `malloc`, in the monitor, the ring, uthash and the C cache.
- RAMCloud and memcached clients, sockets, the user interface, signals, statistics, timing, Zookeeper and pid tables.
- `pollfd_vector` would only add easy members.
- The other kernel patches, and the libvirt, qemu and nova ones.
- MonitorFacts.LocationInvariant: stated for configurations with a page cache; without one there is no ownership, and MonitorRuns.MemoryPreserved is what remains of it.
- The buffer pointers that an inline multi-read leaves behind when it misses: a miss places zeros, and the source then also looks at what an earlier read left. MonitorFacts.KeysAreOwn shows that reads do not miss in coherent configurations with room for a page.
- What memory holds after it was freed; see above.
- Resizes to a negative size: `evict_to_externram_multi` then reads past the list it was given.
- RingMachine.RingSafety: for batch sizes that are not negative; RingProgress.SafetyIff says exactly when it holds. The same goes for RingMachine.RingIndices, and RingMachine.CleanupUnmapsRest rests on both.
- BufferLeaks.ConservationIff: for configurations with room for a page; at capacity zero an asynchronous read that evicts its own page is covered by the coherence theorem only.
- Wakeups.WriteWaitEnds: counts the writer's own steps; that the scheduler lets the writer run is not modelled. The same holds for Wakeups.PrefetchWaitEnds.
- PageRing.Ring.MapPages: the loop alone; the room it needs is what the loop before it in `reinit_page_buffer` has waited for.
- Remap.RemapPages: addresses and lengths are counted in pages; changes that other threads make to the tables during the call appear only as the errors they cause, and the checks of the two mappings as two flags. Reference counts, locks and reverse maps of the kernel are not modelled.
- UtHash.Table.Add: for a new key, as the monitor's lists use it; the hash function is arbitrary, counters do not overflow, and the Bloom filter, `HASH_SELECT` and the in-order variants are not modelled.
- ThreadedIo.IoLists.ExtractPage: for unique keys, which MonitorFacts.WriteListDiscipline proves; with duplicates the entry found would depend on bucket order.
- LruBuffer.LruList.PopLru: for a list that is not empty; the source reads past the end of an empty one, and no caller does that. The same holds for PageCacheTables.Tables.PopLru.
- LruCache.Cache.ReferencePage: the Jenkins hash is an arbitrary function, freed nodes are only unlinked, and the page contents kept in the nodes are not modelled.
