/** lib/userfault/userfault.c: the fault handler, the asynchronous writer and the prefetcher as
    one machine. A step is one section under a lock, one semaphore operation, one access to the
    external store or one kernel operation; between any two steps any other thread, and the
    application, may step. */
module Monitor {
  import opened Pages
  import opened LruBuffer
  import opened ThreadedIo
  import opened PageCache
  import opened NoopStore

  // --------------------------------------------------------------------------- configuration

  /** The build options of configure.ac and the run-time options the steps depend on. `floor` is
      the smallest capacity the operator ever sets: 1, or 0 if an empty buffer is not excluded.
      `leftover` is what the uninitialised key array holds before its first use: anything. */
  datatype Config = Config(
    pageCache: bool,
    zeroOpt: bool,
    threadedWrite: bool,
    threadedPrefetch: bool,
    asynRead: bool,
    prefetch: bool,
    prefetchSize: int,
    pageCacheSize: nat,
    capacity: nat,
    floor: nat,
    leftover: seq<int>)

  /** What configure.ac enforces, and what `floor` means. */
  predicate ValidConfig(c: Config) {
    && (c.threadedPrefetch ==> c.pageCache)
    && c.floor <= 1 && c.floor <= c.capacity
  }

  // ----------------------------------------------------------------------------------- state

  /** What is to be placed at the faulting page: a zero page, or the data of a buffer, which is
      the handler's own exactly when it was taken from the write list. */
  datatype Placed = ZeroFill | Data(buf: Buffer, fromList: bool)

  function PlacedContent(d: Placed): (c: Content) {
    if d.ZeroFill? then ZeroPage() else d.buf.data
  }

  /** The rest of a fault or of a resize, once the eviction at hand is over: read the page and
      the prepared keys, place the data, end the fault, or evict further victims. */
  datatype After =
    | ToBottom(p: PageId)
    | ToPlace(p: PageId, data: Placed)
    | ToTrim(tmp: Option<Buffer>)
    | ToMulti(rest: seq<PageId>, newMax: Option<nat>)

  /** Where an eviction stands; `Go` means there is none and the rest is next. */
  datatype Evicting =
    | Go
    | Insert(p: PageId)
    | Remap(v: PageId, retry: nat)
    | Evicted(v: PageId, buf: Buffer)
    | Listed(v: PageId)
    | Flip(v: PageId, zero: bool)
    | Reinsert(v: PageId)

  datatype Stage = CheckWrite | PostWriter | ParkWrite | CheckPrefetch | PostPrefetcher | ParkPrefetch

  /** A fault first waits until its page is in neither list; `got` is the buffer it took from the
      write list. */
  datatype HandlerPc =
    | Idle
    | Wait(stage: Stage, p: PageId, got: Option<Buffer>)
    | Top(p: PageId)
    | PostTop(p: PageId)
    | Work(e: Evicting, k: After)

  datatype WriterPc =
    | WriterTop
    | Writing(batch: seq<WriteInfo>, returned: seq<Option<Buffer>>)
    | Deleting(batch: seq<WriteInfo>, returned: seq<Option<Buffer>>)
    | Freeing(returned: seq<Option<Buffer>>, waiting: bool)
    | WriterPost
    | WriterPark

  datatype PrefetcherPc =
    | PrefetcherTop
    | Reading(keys: seq<PageId>, bufs: seq<Option<Buffer>>)
    | Storing(keys: seq<PageId>, bufs: seq<Option<Buffer>>)
    | Unlisting(keys: seq<PageId>)
    | PrefetcherPost
    | PrefetcherPark

  /** The flags under `list_lock` and the semaphores. */
  datatype Sync = Sync(
    writerWaiting: bool,
    prefetcherWaiting: bool,
    handlerWaiting: bool,
    flushNeeded: bool,
    flushRemaining: bool,
    writerSem: nat,
    prefetcherSem: nat,
    handlerSem: nat)

  /** The monitor's own page mappings: ids below `next` were mapped, those in `unmapped` are gone. */
  datatype Mappings = Mappings(next: nat, unmapped: set<nat>)

  /** What reads remember from one fault to the next: the access window, and the addresses in
      `keys_for_mread`, the faulting page's first. */
  datatype Reader = Reader(window: Window, keys: seq<int>)

  datatype State = State(
    // application and kernel
    mem: map<PageId, Content>,
    // LRU buffer
    lru: seq<PageId>,
    lruMax: nat,
    // page cache
    pc: PageCacheState,
    reader: Reader,
    // the two lists, and what the threads signal each other
    wl: seq<WriteInfo>,
    pl: seq<PageId>,
    sync: Sync,
    // external memory
    kv: Kv,
    maps: Mappings,
    // the three threads
    h: HandlerPc,
    w: WriterPc,
    f: PrefetcherPc)

  function Init(c: Config): (s: State) {
    State(map[], [], c.capacity,
          PageCacheState(map[], [], c.pageCacheSize, {}), Reader(Window(0, 0), c.leftover),
          [], [], Sync(false, false, false, false, false, 0, 0, 0), map[], Mappings(0, {}),
          Idle, WriterTop, PrefetcherTop)
  }

  // --------------------------------------------------------------------------------- actions

  /** The outcome of the eviction's UFFDIO_REMAP. `Einval` stands for EINVAL and ESRCH, `Eother`
      for any other failure. Every failure leaves the page where it is. */
  datatype Outcome = Moved | Ebusy | Eagain | Enoent | Eexist | Einval | Eother

  datatype Action =
    | Load(p: PageId, off: nat)
    | Store(p: PageId, off: nat, v: byte)
    | Fault(p: PageId)
    | Resize(size: nat)
    | Handler(outcome: Outcome)
    | Writer
    | Prefetcher
    | SetFlush
    | SpuriousPost

  // ------------------------------------------------------------------- the application's steps

  function DoStore(s: State, p: PageId, off: nat, v: byte): (r: State)
    requires p in s.mem && off < PAGE_SIZE
  {
    s.(mem := s.mem[p := s.mem[p][off := v]])
  }

  // ----------------------------------------------------------------------- the handler's steps

  /** Where a fault continues once it no longer waits. */
  function AfterWaiting(c: Config, p: PageId, got: Option<Buffer>): (h: HandlerPc) {
    match got
    case None => Top(p)
    case Some(b) => Work(if c.asynRead then Insert(p) else Go, ToPlace(p, Data(b, true)))
  }

  function AfterWriteCheck(c: Config, p: PageId, got: Option<Buffer>): (h: HandlerPc) {
    if c.threadedPrefetch then Wait(CheckPrefetch, p, got) else AfterWaiting(c, p, got)
  }

  function FaultEntry(c: Config, p: PageId): (h: HandlerPc) {
    if c.threadedWrite then Wait(CheckWrite, p, None) else AfterWriteCheck(c, p, None)
  }

  function StepCheckWrite(c: Config, s: State, p: PageId): (r: State) {
    match FindWriteInfo(s.wl, p)
    case Some(w) =>
      if !w.inFlight then
        s.(wl := DelWriteInfo(s.wl, p),
           pc := if c.pageCache then UpdateAfterSkippedRead(s.pc, p) else s.pc,
           h := AfterWriteCheck(c, p, Some(w.buf)))
      else
        s.(sync := s.sync.(handlerWaiting := true), h := Wait(if s.sync.writerWaiting then PostWriter else ParkWrite, p, None))
    case None =>
      s.(sync := s.sync.(handlerWaiting := false), h := AfterWriteCheck(c, p, None))
  }

  function StepCheckPrefetch(c: Config, s: State, p: PageId, got: Option<Buffer>): (r: State) {
    s.(sync := s.sync.(handlerWaiting := p in s.pl),
       h := if p !in s.pl then AfterWaiting(c, p, got)
            else Wait(if s.sync.prefetcherWaiting then PostPrefetcher else ParkPrefetch, p, got))
  }

  function StepWait(c: Config, s: State, stage: Stage, p: PageId, got: Option<Buffer>): (r: State)
    requires stage in {ParkWrite, ParkPrefetch} ==> s.sync.handlerSem > 0
  {
    match stage
    case CheckWrite => StepCheckWrite(c, s, p)
    case PostWriter => s.(sync := s.sync.(writerSem := s.sync.writerSem + 1), h := Wait(ParkWrite, p, got))
    case ParkWrite => s.(sync := s.sync.(handlerSem := s.sync.handlerSem - 1), h := Wait(CheckWrite, p, got))
    case CheckPrefetch => StepCheckPrefetch(c, s, p, got)
    case PostPrefetcher => s.(sync := s.sync.(prefetcherSem := s.sync.prefetcherSem + 1), h := Wait(ParkPrefetch, p, got))
    case ParkPrefetch => s.(sync := s.sync.(handlerSem := s.sync.handlerSem - 1), h := Wait(CheckPrefetch, p, got))
  }

  function AfterTop(c: Config, p: PageId): (h: HandlerPc) {
    Work(if c.asynRead then Insert(p) else Go, ToBottom(p))
  }

  /** A miss on a stored page is the occasion to prefetch. */
  predicate Prefetches(c: Config, pc: PageCacheState, p: PageId) {
    && c.pageCache && c.prefetch
    && p in pc.hash && pc.hash[p].owner == ExternRam
    && !(c.zeroOpt && pc.hash[p].isZero)
  }

  function Selected(c: Config, s: State, p: PageId): (keys: seq<PageId>) {
    if Prefetches(c, s.pc, p) then
      Select(s.pc, Pending(WriteKeys(s.wl), s.pl, c.zeroOpt), p, Advance(s.reader.window, p.addr).numConseqAcc, c.prefetchSize)
    else []
  }

  function Addrs(pages: seq<PageId>): (keys: seq<int>)
    ensures |keys| == |pages|
    ensures forall i :: 0 <= i < |pages| ==> keys[i] == pages[i].addr
  {
    seq(|pages|, i requires 0 <= i < |pages| => pages[i].addr)
  }

  /** The pages that the keys stand for in a read of descriptor `ufd`. */
  function KeyPages(ufd: int, keys: seq<int>): (pages: seq<PageId>)
    ensures |pages| == |keys|
    ensures forall i :: 0 <= i < |keys| ==> pages[i] == PageId(ufd, keys[i])
  {
    seq(|keys|, i requires 0 <= i < |keys| => PageId(ufd, keys[i]))
  }

  /** The window advances with every read; the keys change only when a miss prepares an inline
      multi-read. */
  function ReaderAfter(c: Config, s: State, p: PageId): (r: Reader) {
    if !c.pageCache then s.reader
    else Reader(Advance(s.reader.window, p.addr),
                if Prefetches(c, s.pc, p) && !c.threadedPrefetch then [p.addr] + Addrs(Selected(c, s, p)) else s.reader.keys)
  }

  /** `readPageIfInPageCache_top`: the window advances; the selected pages go to the prefetch list,
      or to the keys to be read with the faulting page. Without a page cache there is nothing to do. */
  function StepTop(c: Config, s: State, p: PageId): (r: State) {
    s.(reader := ReaderAfter(c, s, p),
       pl := if c.threadedPrefetch then s.pl + Selected(c, s, p) else s.pl,
       h := if c.threadedPrefetch && Prefetches(c, s.pc, p) && s.sync.prefetcherWaiting then PostTop(p) else AfterTop(c, p))
  }

  const RETRIES: nat := 5

  /** `evict_if_needed` up to the choice of a victim. */
  function StepInsert(s: State, p: PageId, k: After): (r: State) {
    var l := ToFront(s.lru, p);
    var over := |l| > s.lruMax;
    s.(lru := if over then l[..|l| - 1] else l,
       h := Work(if over then Remap(l[|l| - 1], RETRIES) else Go, k))
  }

  /** One round of the retry loop of `evict_to_externram`: a fresh buffer and a REMAP that allows
      holes. A failed round unmaps its buffer. */
  function StepRemap(s: State, v: PageId, retry: nat, k: After, outcome: Outcome): (r: State) {
    if outcome == Moved then
      var content := if v in s.mem then s.mem[v] else ZeroPage();
      s.(mem := s.mem - {v}, maps := s.maps.(next := s.maps.next + 1),
         h := Work(Evicted(v, Buffer(s.maps.next, content)), k))
    else
      var next :=
        if outcome == Ebusy && !k.ToMulti? then Reinsert(v)
        else if retry > 1 && outcome in {Eagain, Enoent, Eexist} then Remap(v, retry - 1)
        else Go;
      s.(maps := Mappings(s.maps.next + 1, s.maps.unmapped + {s.maps.next}), h := Work(next, k))
  }

  function AfterWritten(c: Config, v: PageId, zero: bool): (e: Evicting) {
    if c.pageCache then Flip(v, zero) else Go
  }

  function FreeId(b: Option<Buffer>): (ids: set<nat>) {
    if b.Some? then {b.value.id} else {}
  }

  /** A page moved out of the application: skip it, list it, or write it. */
  function StepEvicted(c: Config, s: State, v: PageId, buf: Buffer, k: After): (r: State) {
    if c.zeroOpt && buf.data == ZeroPage() then
      s.(h := Work(AfterWritten(c, v, true), k))
    else if c.threadedWrite then
      var wl := s.wl + [WriteInfo(v, buf, false)];
      var next := if s.sync.writerWaiting && |wl| >= WRITE_BATCH_SIZE then Listed(v) else AfterWritten(c, v, false);
      s.(wl := wl, h := Work(next, k))
    else
      s.(kv := s.kv[v := buf], maps := s.maps.(unmapped := s.maps.unmapped + FreeId(Lookup(s.kv, v))),
         h := Work(AfterWritten(c, v, false), k))
  }

  /** What a store read answers: nothing for a key that was never written. */
  function ReadStore(kv: Kv, p: PageId): (d: Placed) {
    match Lookup(kv, p)
    case None => ZeroFill
    case Some(b) => Data(b, false)
  }

  function Entries(keys: seq<PageId>, bufs: seq<Option<Buffer>>): (es: seq<CacheEntry>)
    decreases |keys|
  {
    if keys == [] || bufs == [] then []
    else (if bufs[0].Some? then [CacheEntry(keys[0], bufs[0].value)] else []) + Entries(keys[1..], bufs[1..])
  }

  function ReadAll(kv: Kv, keys: seq<PageId>): (bufs: seq<Option<Buffer>>)
    ensures |bufs| == |keys|
    ensures forall i :: 0 <= i < |keys| ==> bufs[i] == Lookup(kv, keys[i])
  {
    seq(|keys|, i requires 0 <= i < |keys| => Lookup(kv, keys[i]))
  }

  /** The inline multi-read: key 0 counts as the faulting page, the others enter the cache. */
  function ReadKeys(kv: Kv, pc: PageCacheState, p: PageId, keys: seq<int>): (r: (Placed, PageCacheState)) {
    if keys == [] then (ZeroFill, pc)
    else
      var mine, rest := ReadStore(kv, PageId(p.ufd, keys[0])), KeyPages(p.ufd, keys[1..]);
      var owned := if mine.Data? then ChangeOwnership(pc, p, Application, false) else pc;
      (mine, StorePages(owned, Entries(rest, ReadAll(kv, rest))))
  }

  /** `readPageIfInPageCache_bottom`: what to place, and the page cache afterwards. */
  function ReadCached(c: Config, kv: Kv, pc: PageCacheState, p: PageId, keys: seq<int>): (r: (Placed, PageCacheState)) {
    match OwnerOf(pc, p)
    case None =>
      (ZeroFill, pc.(hash := pc.hash[p := PageInfo(Application, false)]))
    case Some(PageInfo(Application, _)) =>
      (ZeroFill, pc)
    case Some(PageInfo(Cache, _)) =>
      var found := FindCached(pc.cached, p);
      (if found.Some? then Data(found.value.buf, false) else ZeroFill,
       ChangeOwnership(pc.(cached := EraseCached(pc.cached, p)), p, Application, false))
    case Some(PageInfo(ExternRam, isZero)) =>
      if c.zeroOpt && isZero then
        (ZeroFill, ChangeOwnership(pc, p, Application, false))
      else if c.prefetch && !c.threadedPrefetch then
        ReadKeys(kv, pc, p, keys)
      else
        (ReadStore(kv, p), ChangeOwnership(pc, p, Application, false))
  }

  /** The read of the faulting page; without a page cache the store alone is asked. */
  function StepBottom(c: Config, s: State, p: PageId): (r: State) {
    if c.pageCache then
      var (data, pc) := ReadCached(c, s.kv, s.pc, p, s.reader.keys);
      s.(pc := pc, h := Work(Go, ToPlace(p, data)))
    else
      s.(h := Work(Go, ToPlace(p, ReadStore(s.kv, p))))
  }

  /** UFFDIO_COPY or UFFDIO_ZEROPAGE: fills a missing page, and fails on a present one. */
  function StepPlace(c: Config, s: State, p: PageId, data: Placed): (r: State) {
    var tmp := if data.Data? && data.fromList then Some(data.buf) else None;
    s.(mem := if p in s.mem then s.mem else s.mem[p := PlacedContent(data)],
       h := Work(if c.asynRead then Go else Insert(p), ToTrim(tmp)))
  }

  /** The end of a fault: unmap the stolen buffer, then evict what exceeds the capacity. */
  function StepTrim(s: State, tmp: Option<Buffer>): (r: State) {
    var over := |s.lru| > s.lruMax;
    s.(maps := s.maps.(unmapped := s.maps.unmapped + FreeId(tmp)),
       lru := if over then s.lru[..s.lruMax] else s.lru,
       h := if over then Work(Go, ToMulti(Victims(s.lru, |s.lru| - s.lruMax), None)) else Idle)
  }

  /** The loop of `evict_to_externram_multi`, and the end of a resize. */
  function StepMulti(s: State, rest: seq<PageId>, newMax: Option<nat>): (r: State) {
    s.(lruMax := if rest == [] && newMax.Some? then newMax.value else s.lruMax,
       h := if rest == [] then Idle else Work(Remap(rest[0], RETRIES), ToMulti(rest[1..], newMax)))
  }

  /** `resizeLRUBuffer`. */
  function StepResize(s: State, size: nat): (r: State) {
    var grow := size > |s.lru|;
    s.(lruMax := if grow then size else s.lruMax,
       lru := if grow then s.lru else s.lru[..size],
       h := if grow then s.h else Work(Go, ToMulti(Victims(s.lru, |s.lru| - size), Some(size))))
  }

  function StepGo(c: Config, s: State, k: After): (r: State) {
    match k
    case ToBottom(p) => StepBottom(c, s, p)
    case ToPlace(p, data) => StepPlace(c, s, p, data)
    case ToTrim(tmp) => StepTrim(s, tmp)
    case ToMulti(rest, newMax) => StepMulti(s, rest, newMax)
  }

  function StepWork(c: Config, s: State, e: Evicting, k: After, outcome: Outcome): (r: State) {
    match e
    case Go => StepGo(c, s, k)
    case Insert(p) => StepInsert(s, p, k)
    case Remap(v, retry) => StepRemap(s, v, retry, k, outcome)
    case Evicted(v, buf) => StepEvicted(c, s, v, buf, k)
    case Listed(v) => s.(sync := s.sync.(writerSem := s.sync.writerSem + 1), h := Work(AfterWritten(c, v, false), k))
    case Flip(v, zero) => s.(pc := UpdateAfterWrite(s.pc, v, zero), h := Work(Go, k))
    case Reinsert(v) => s.(lru := ToFront(s.lru, v), h := Work(Go, k))
  }

  /** A thread parked on a semaphore steps only when the count is positive. */
  predicate HandlerReady(s: State) {
    s.h.Wait? && s.h.stage in {ParkWrite, ParkPrefetch} ==> s.sync.handlerSem > 0
  }

  function StepHandler(c: Config, s: State, outcome: Outcome): (r: State)
    requires HandlerReady(s)
  {
    match s.h
    case Idle => s
    case Wait(stage, p, got) => StepWait(c, s, stage, p, got)
    case Top(p) => StepTop(c, s, p)
    case PostTop(p) => s.(sync := s.sync.(prefetcherSem := s.sync.prefetcherSem + 1), h := AfterTop(c, p))
    case Work(e, k) => StepWork(c, s, e, k, outcome)
  }

  // ------------------------------------------------------------------------ the writer's steps

  predicate WriterHasWork(s: State) {
    |s.wl| > 0 && (|s.wl| >= WRITE_BATCH_SIZE || s.sync.handlerWaiting || s.sync.flushRemaining || s.sync.flushNeeded)
  }

  function StepWriterTop(s: State): (r: State) {
    var work := WriterHasWork(s);
    var batch := Batch(s.wl);
    s.(wl := if work then Mark(s.wl) else s.wl,
       sync := s.sync.(flushRemaining := if work then |batch| < |s.wl| else s.sync.flushRemaining, writerWaiting := !work),
       w := if work then Writing(batch, []) else if s.sync.flushRemaining then WriterTop else WriterPark)
  }

  /** One store write of the batch. */
  function StepWriting(s: State, batch: seq<WriteInfo>, returned: seq<Option<Buffer>>): (r: State) {
    var more := |returned| < |batch|;
    s.(kv := if more then s.kv[batch[|returned|].page := batch[|returned|].buf] else s.kv,
       w := if more then Writing(batch, returned + [Lookup(s.kv, batch[|returned|].page)]) else Deleting(batch, returned))
  }

  function FreeIds(bs: seq<Option<Buffer>>): (ids: set<nat>)
  {
    if bs == [] then {} else FreeId(bs[0]) + FreeIds(bs[1..])
  }

  predicate WriterReady(s: State) {
    s.w.WriterPark? ==> s.sync.writerSem > 0
  }

  function StepWriter(s: State): (r: State)
    requires WriterReady(s)
  {
    match s.w
    case WriterTop => StepWriterTop(s)
    case Writing(batch, returned) => StepWriting(s, batch, returned)
    case Deleting(batch, returned) =>
      s.(wl := DelBatch(s.wl, batch), w := Freeing(returned, s.sync.handlerWaiting))
    case Freeing(returned, waiting) =>
      s.(maps := s.maps.(unmapped := s.maps.unmapped + FreeIds(returned)), w := if waiting then WriterPost else WriterTop)
    case WriterPost => s.(sync := s.sync.(handlerSem := s.sync.handlerSem + 1), w := WriterTop)
    case WriterPark => s.(sync := s.sync.(writerSem := s.sync.writerSem - 1), w := WriterTop)
  }

  // -------------------------------------------------------------------- the prefetcher's steps

  predicate PrefetcherReady(s: State) {
    s.f.PrefetcherPark? ==> s.sync.prefetcherSem > 0
  }

  function StepPrefetcher(s: State): (r: State)
    requires PrefetcherReady(s)
  {
    match s.f
    case PrefetcherTop =>
      s.(sync := s.sync.(prefetcherWaiting := s.pl == []), f := if s.pl != [] then Reading(Pick(s.pl), []) else PrefetcherPark)
    case Reading(keys, bufs) =>
      s.(f := if |bufs| < |keys| then Reading(keys, bufs + [Lookup(s.kv, keys[|bufs|])]) else Storing(keys, bufs))
    case Storing(keys, bufs) =>
      s.(pc := StorePages(s.pc, Entries(keys, bufs)), f := Unlisting(keys))
    case Unlisting(keys) =>
      s.(pl := DelPrefetched(s.pl, keys), f := if s.sync.handlerWaiting then PrefetcherPost else PrefetcherTop)
    case PrefetcherPost => s.(sync := s.sync.(handlerSem := s.sync.handlerSem + 1), f := PrefetcherTop)
    case PrefetcherPark => s.(sync := s.sync.(prefetcherSem := s.sync.prefetcherSem - 1), f := PrefetcherTop)
  }

  // ------------------------------------------------------------------------------------- steps

  /** Faults may be raised for any page, also for one that is present: two threads can fault on
      the same page. */
  predicate Enabled(c: Config, s: State, a: Action) {
    match a
    case Load(p, off) => p in s.mem && off < PAGE_SIZE
    case Store(p, off, _) => p in s.mem && off < PAGE_SIZE
    case Fault(p) => s.h.Idle? && ValidPage(p)
    case Resize(size) => s.h.Idle? && size >= c.floor
    case Handler(_) => !s.h.Idle? && HandlerReady(s)
    case Writer => c.threadedWrite && WriterReady(s)
    case Prefetcher => c.threadedPrefetch && PrefetcherReady(s)
    case SetFlush => true
    case SpuriousPost => true
  }

  function Exec(c: Config, s: State, a: Action): (r: State)
    requires Enabled(c, s, a)
  {
    match a
    case Load(_, _) => s
    case Store(p, off, v) => DoStore(s, p, off, v)
    case Fault(p) => s.(h := FaultEntry(c, p))
    case Resize(size) => StepResize(s, size)
    case Handler(outcome) => StepHandler(c, s, outcome)
    case Writer => StepWriter(s)
    case Prefetcher => StepPrefetcher(s)
    case SetFlush => s.(sync := s.sync.(flushNeeded := true))
    case SpuriousPost => s.(sync := s.sync.(writerSem := s.sync.writerSem + 1))
  }

  // -------------------------------------------------------------------------------------- runs

  predicate Run(c: Config, s: State, acts: seq<Action>)
    decreases |acts|
  {
    acts == [] || (Enabled(c, s, acts[0]) && Run(c, Exec(c, s, acts[0]), acts[1..]))
  }

  function Final(c: Config, s: State, acts: seq<Action>): (r: State)
    requires Run(c, s, acts)
    decreases |acts|
  {
    if acts == [] then s else Final(c, Exec(c, s, acts[0]), acts[1..])
  }

  // -------------------------------------------------------------------- the memory it implements

  /** The shadow of test_for_corruption.c: a plain array, zero until stored to. */
  type Memory = map<PageId, Content>

  function Peek(m: Memory, p: PageId): (c: Content) {
    if p in m then m[p] else ZeroPage()
  }

  /** The shadow memory after one action: only the application's stores change it. */
  function Shadow(m: Memory, a: Action): (r: Memory) {
    match a
    case Store(p, off, v) => if off < PAGE_SIZE then m[p := Peek(m, p)[off := v]] else m
    case _ => m
  }
}
