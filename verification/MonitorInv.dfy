/** The invariant of the machine: where the current copy of every page is. */
module MonitorInv {
  import opened Pages
  import opened LruBuffer
  import opened ThreadedIo
  import opened PageCache
  import opened NoopStore
  import opened Monitor

  // ------------------------------------------------------------- what the handler has in hand

  function FaultOf(k: After): (p: Option<PageId>) {
    if k.ToBottom? || k.ToPlace? then Some(k.p) else None
  }

  /** The page of the current fault, from the moment it is known to be pending in neither list
      until it is placed. */
  function PastWaiting(h: HandlerPc): (p: Option<PageId>) {
    match h
    case Idle => None
    case Wait(_, _, _) => None
    case Top(p) => Some(p)
    case PostTop(p) => Some(p)
    case Work(_, k) => FaultOf(k)
  }

  /** The pages in the handler's hands: the data for the faulting page, the page just moved out
      of the application, and the page that was listed, written or skipped but whose ownership is
      still the application's (with whether it was skipped as a zero page). */
  datatype Hands = Hands(holds: Option<(PageId, Placed)>, evicted: Option<(PageId, Buffer)>, flipping: Option<(PageId, bool)>)

  function HoldsOf(h: HandlerPc): (o: Option<(PageId, Placed)>) {
    if h.Wait? && h.got.Some? then Some((h.p, Data(h.got.value, true)))
    else if h.Work? && h.k.ToPlace? then Some((h.k.p, h.k.data))
    else None
  }

  function EvictedOf(h: HandlerPc): (o: Option<(PageId, Buffer)>) {
    if h.Work? && h.e.Evicted? then Some((h.e.v, h.e.buf)) else None
  }

  function FlippingOf(h: HandlerPc): (o: Option<(PageId, bool)>) {
    if h.Work? && h.e.Listed? then Some((h.e.v, false))
    else if h.Work? && h.e.Flip? then Some((h.e.v, h.e.zero))
    else None
  }

  function HandsOf(h: HandlerPc): (r: Hands) {
    Hands(HoldsOf(h), EvictedOf(h), FlippingOf(h))
  }

  predicate Concerns<T>(o: Option<(PageId, T)>, p: PageId) {
    o.Some? && o.value.0 == p
  }

  /** Victims popped from the LRU buffer and not yet tried. */
  function Popped(h: HandlerPc): (ps: seq<PageId>) {
    if h.Work? && h.k.ToMulti? then h.k.rest else []
  }

  // -------------------------------------------------------------------------------- one page

  /** Everything the location of a page depends on. */
  datatype Places = Places(
    mem: map<PageId, Content>, writes: set<PageId>, prefetches: seq<PageId>, unlisting: seq<PageId>,
    hands: Hands, pc: PageCacheState, kv: Kv)

  function PlacesOf(s: State): (l: Places) {
    Places(s.mem, WriteKeys(s.wl), s.pl, if s.f.Unlisting? then s.f.keys else [], HandsOf(s.h), s.pc, s.kv)
  }

  ghost predicate OwnedBy(pc: PageCacheState, p: PageId, owner: Owner, isZero: bool) {
    OwnerOf(pc, p) == Some(PageInfo(owner, isZero))
  }

  ghost predicate StoreHas(kv: Kv, p: PageId, content: Content) {
    p in kv && kv[p].data == content
  }

  /** A page that is in no hand: its current content is what the next fault will read. */
  ghost predicate AtRestOk(c: Config, l: Places, p: PageId, content: Content) {
    if !c.pageCache then PlacedContent(ReadStore(l.kv, p)) == content
    else match OwnerOf(l.pc, p)
      case None => content == ZeroPage()
      case Some(PageInfo(Application, _)) =>
        && Concerns(l.hands.flipping, p)
        && (if l.hands.flipping.value.1 then c.zeroOpt && content == ZeroPage() else StoreHas(l.kv, p, content))
      case Some(PageInfo(Cache, isZero)) => !isZero && StoreHas(l.kv, p, content)
      case Some(PageInfo(ExternRam, isZero)) =>
        if isZero then c.zeroOpt && content == ZeroPage() else StoreHas(l.kv, p, content)
  }

  ghost predicate InApplication(c: Config, pc: PageCacheState, p: PageId) {
    c.pageCache ==> OwnedBy(pc, p, Application, false)
  }

  /** The location invariant of one page, whose content should be `content`. */
  ghost predicate PageOk(c: Config, l: Places, content: Content, p: PageId) {
    if p in l.mem then
      && l.mem[p] == content && p !in l.writes && p !in l.prefetches
      && !Concerns(l.hands.evicted, p) && !Concerns(l.hands.flipping, p) && InApplication(c, l.pc, p)
    else if Concerns(l.hands.evicted, p) then
      && l.hands.evicted.value.1.data == content && p !in l.writes && p !in l.prefetches
      && !Concerns(l.hands.holds, p) && InApplication(c, l.pc, p)
    else if Concerns(l.hands.holds, p) then
      && PlacedContent(l.hands.holds.value.1) == content && p !in l.writes && p !in l.prefetches
      && !Concerns(l.hands.flipping, p) && InApplication(c, l.pc, p)
    else if p in l.writes then
      && p !in l.prefetches
      && (if Concerns(l.hands.flipping, p)
          then !l.hands.flipping.value.1 && InApplication(c, l.pc, p)
          else c.pageCache ==> OwnedBy(l.pc, p, ExternRam, false))
    else
      && AtRestOk(c, l, p, content)
      && (Concerns(l.hands.flipping, p) ==> InApplication(c, l.pc, p))
      && (p in l.prefetches ==>
            || OwnedBy(l.pc, p, ExternRam, false)
            || (OwnedBy(l.pc, p, Cache, false) && p in l.unlisting))
  }

  ghost predicate PagesOk(c: Config, l: Places, m: Memory) {
    forall p :: PageOk(c, l, Peek(m, p), p)
  }

  // ---------------------------------------------------------------------------- each component

  ghost predicate WriteListOk(wl: seq<WriteInfo>, m: Memory) {
    && UniqueKeys(wl)
    && (forall e :: e in wl ==> e.buf.data == Peek(m, e.page))
  }

  ghost predicate CachedOk(c: Config, pc: PageCacheState, m: Memory) {
    && CacheInv(pc)
    && (!c.pageCache ==> pc.hash == map[])
    && (forall e :: e in pc.cached ==> e.buf.data == Peek(m, e.page))
  }

  /** The entries in flight are the writer's batch, and the written part of it is in the store. */
  ghost predicate BatchOk(wl: seq<WriteInfo>, kv: Kv, batch: seq<WriteInfo>, returned: seq<Option<Buffer>>) {
    && UniqueKeys(batch) && 1 <= |batch| <= WRITE_BATCH_SIZE && |returned| <= |batch|
    && (forall e :: e in batch ==> e.page.ufd == batch[0].page.ufd)
    && (forall e :: e in batch <==> e in wl && e.inFlight)
    && (forall j :: 0 <= j < |returned| ==> Lookup(kv, batch[j].page) == Some(batch[j].buf))
  }

  ghost predicate WriterOk(c: Config, w: WriterPc, wl: seq<WriteInfo>, kv: Kv) {
    && (!c.threadedWrite ==> w.WriterTop? && wl == [])
    && match w
       case Writing(batch, returned) => BatchOk(wl, kv, batch, returned)
       case Deleting(batch, returned) => BatchOk(wl, kv, batch, returned) && |returned| == |batch|
       case _ => forall e :: e in wl ==> !e.inFlight
  }

  ghost predicate PickedOk(pl: seq<PageId>, keys: seq<PageId>) {
    && NoDup(keys) && 1 <= |keys| <= MAX_MULTI_READ
    && (forall q :: q in keys ==> q in pl && q.ufd == keys[0].ufd)
  }

  ghost predicate ReadOk(m: Memory, keys: seq<PageId>, bufs: seq<Option<Buffer>>) {
    && |bufs| <= |keys|
    && (forall j :: 0 <= j < |bufs| ==> bufs[j].Some? && bufs[j].value.data == Peek(m, keys[j]))
  }

  ghost predicate PrefetcherOk(c: Config, f: PrefetcherPc, pl: seq<PageId>, m: Memory) {
    && NoDup(pl)
    && (!c.threadedPrefetch ==> f.PrefetcherTop? && pl == [])
    && match f
       case Reading(keys, bufs) => PickedOk(pl, keys) && ReadOk(m, keys, bufs)
       case Storing(keys, bufs) => PickedOk(pl, keys) && ReadOk(m, keys, bufs) && |bufs| == |keys|
       case Unlisting(keys) => PickedOk(pl, keys)
       case _ => true
  }

  /** Every LRU member is resident, except the page being faulted; so is every victim. */
  ghost predicate LruOk(c: Config, lru: seq<PageId>, lruMax: nat, mem: map<PageId, Content>, h: HandlerPc) {
    && NoDup(lru) && c.floor <= lruMax
    && (forall q :: q in lru ==> q in mem || PastWaiting(h) == Some(q))
    && (forall q :: q in Popped(h) ==> q in mem && q !in lru)
    && NoDup(Popped(h))
    && |lru| <= Bound(c, lruMax, h) && (Shrinking(h).Some? ==> Shrinking(h).value <= lruMax)
    && (h.Work? ==> EvictOk(h.e, h.k, lru, mem))
  }

  /** The capacity a resize in progress will set. */
  function Shrinking(h: HandlerPc): (n: Option<nat>) {
    if h.Work? && h.k.ToMulti? then h.k.newMax else None
  }

  /** How long the LRU buffer may be: one page more than its capacity while a victim that was
      busy is back in it, and no longer than the new capacity while it is resized. */
  function Bound(c: Config, lruMax: nat, h: HandlerPc): (n: nat) {
    if Shrinking(h).Some? then Shrinking(h).value
    else if h.Work? && h.e.Go? && (h.k.ToTrim? || (c.asynRead && !h.k.ToMulti?)) then lruMax + 1
    else lruMax
  }

  ghost predicate EvictOk(e: Evicting, k: After, lru: seq<PageId>, mem: map<PageId, Content>) {
    match e
    case Go => true
    case Insert(p) => !k.ToMulti? && (k.ToTrim? ==> p in mem)
    case Remap(v, retry) => TargetOk(v, k, lru, mem) && retry > 0
    case Evicted(v, _) => v !in lru && v !in mem && FaultOf(k) != Some(v)
    case Listed(v) => FaultOf(k) != Some(v)
    case Flip(v, _) => FaultOf(k) != Some(v)
    case Reinsert(v) => TargetOk(v, k, lru, mem) && !k.ToMulti?
  }

  ghost predicate TargetOk(v: PageId, k: After, lru: seq<PageId>, mem: map<PageId, Content>) {
    && v in mem && v !in lru && FaultOf(k) != Some(v)
    && (k.ToMulti? ==> v !in k.rest)
  }

  ghost predicate HandlerOk(c: Config, h: HandlerPc, writes: set<PageId>, pl: seq<PageId>) {
    match h
    case Idle => true
    case Wait(stage, p, got) =>
      && ValidPage(p)
      && (stage in {CheckPrefetch, PostPrefetcher, ParkPrefetch} ==> c.threadedPrefetch && p !in writes)
      && (stage in {CheckWrite, PostWriter, ParkWrite} ==> c.threadedWrite && got.None?)
    case Top(p) => ValidPage(p) && p !in writes && p !in pl
    case PostTop(p) => ValidPage(p) && p !in writes && p !in pl && c.threadedPrefetch
    case Work(e, k) =>
      && (!e.Go? && !k.ToTrim? && !k.ToMulti? ==> c.asynRead)
      && (e.Insert? && !k.ToTrim? ==> FaultOf(k) == Some(e.p))
      && (e.Flip? ==> c.pageCache)
      && (match k
          case ToBottom(p) => ValidPage(p) && p !in writes && p !in pl
          case ToPlace(p, _) => ValidPage(p) && p !in writes && p !in pl
          case ToTrim(_) => true
          case ToMulti(_, newMax) => newMax.Some? ==> c.floor <= newMax.value)
  }

  /** The read of `p` will be an inline multi-read. */
  ghost predicate Inline(c: Config, pc: PageCacheState, p: PageId) {
    c.pageCache && c.prefetch && !c.threadedPrefetch && OwnedBy(pc, p, ExternRam, false)
  }

  /** Key 0 is the faulting page, and the others are pages that can be read from the store. */
  ghost predicate Prepared(p: PageId, keys: seq<int>, pc: PageCacheState, writes: set<PageId>) {
    keys != [] && keys[0] == p.addr &&
    var rest := KeyPages(p.ufd, keys[1..]);
    && NoDup(rest) && p !in rest
    && (forall q :: q in rest ==> OwnedBy(pc, q, ExternRam, false) && q !in writes)
  }

  /** Keys prepared for an inline multi-read stay so until it happens. */
  ghost predicate KeysOk(c: Config, h: HandlerPc, pc: PageCacheState, keys: seq<int>, writes: set<PageId>) {
    h.Work? && h.k.ToBottom? && Inline(c, pc, h.k.p) ==> Prepared(h.k.p, keys, pc, writes)
  }

  ghost predicate HandlerInv(c: Config, s: State) {
    && LruOk(c, s.lru, s.lruMax, s.mem, s.h)
    && HandlerOk(c, s.h, WriteKeys(s.wl), s.pl)
    && KeysOk(c, s.h, s.pc, s.reader.keys, WriteKeys(s.wl))
  }

  ghost predicate Inv(c: Config, s: State, m: Memory) {
    && WriteListOk(s.wl, m)
    && CachedOk(c, s.pc, m)
    && WriterOk(c, s.w, s.wl, s.kv)
    && PrefetcherOk(c, s.f, s.pl, m)
    && HandlerInv(c, s)
    && PagesOk(c, PlacesOf(s), m)
  }

  /** The zero-page shortcut needs the page cache to remember it. */
  predicate Remembers(c: Config) {
    ValidConfig(c) && (c.zeroOpt ==> c.pageCache)
  }

  /** A reading handler that evicts before it places needs a victim other than the faulting page. */
  predicate Safe(c: Config) {
    Remembers(c) && (c.asynRead ==> c.floor >= 1)
  }

  /** The LRU insertion at hand, if it comes before the read, has room for the faulting page. */
  predicate Room(s: State) {
    s.h.Work? && s.h.e.Insert? && !s.h.k.ToTrim? ==> s.lruMax >= 1
  }

  lemma InitInv(c: Config)
    requires ValidConfig(c)
    ensures Inv(c, Init(c), map[])
  {
    assert CachedKeys(Init(c).pc.cached) == {};
    assert WriteKeys(Init(c).wl) == {};
  }
}
