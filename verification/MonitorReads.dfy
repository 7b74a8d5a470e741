/** Reads keep the invariant: the faulting page's, the inline multi-read's, the prefetcher's. */
module MonitorReads {
  import opened Pages
  import opened LruBuffer
  import opened ThreadedIo
  import opened PageCache
  import opened NoopStore
  import opened Monitor
  import opened MonitorInv
  import opened MonitorSteps

  // ------------------------------------------------------------------ pages put into the cache

  /** The entries to store are the keys that were found, each with its own buffer. */
  lemma {:induction false} EntriesOk(keys: seq<PageId>, bufs: seq<Option<Buffer>>, m: Memory)
    requires NoDup(keys) && |bufs| == |keys|
    requires forall i :: 0 <= i < |keys| ==> bufs[i].Some? && bufs[i].value.data == Peek(m, keys[i])
    ensures UniqueCached(Entries(keys, bufs))
    ensures forall e :: e in Entries(keys, bufs) ==> e.page in keys && e.buf.data == Peek(m, e.page)
    decreases |keys|
  {
    if keys != [] {
      assert NoDup(keys[1..]) && forall i :: 0 <= i < |keys| - 1 ==> keys[1..][i] == keys[i + 1] && bufs[1..][i] == bufs[i + 1];
      EntriesOk(keys[1..], bufs[1..], m);
      assert keys[0] !in keys[1..];
      var rest := Entries(keys[1..], bufs[1..]);
      assert Entries(keys, bufs) == [CacheEntry(keys[0], bufs[0].value)] + rest;
      assert forall i :: 0 <= i < |rest| ==> rest[i] in rest;
    }
  }

  lemma StoredPage(c: Config, l: Places, content: Content, es: seq<CacheEntry>, pc: PageCacheState, unlisting: seq<PageId>, q: PageId)
    requires PageOk(c, l, content, q) && c.pageCache && StoreEffect(l.pc, es, pc) && l.unlisting == []
    requires q in CachedKeys(es) ==> OwnedBy(l.pc, q, ExternRam, false) && q !in l.writes && (q in l.prefetches ==> q in unlisting)
    ensures PageOk(c, l.(pc := pc, unlisting := unlisting), content, q)
  {
    if q in CachedKeys(es) {
      assert OwnedBy(pc, q, Cache, false) || OwnedBy(pc, q, ExternRam, false);
    } else if OwnerOf(pc, q) != OwnerOf(l.pc, q) {
      assert OwnedBy(pc, q, ExternRam, false);
    }
  }

  /** Storing copies of pages at rest leaves every page where a fault will find it. */
  lemma StoredPages(c: Config, l: Places, m: Memory, es: seq<CacheEntry>, pc: PageCacheState, unlisting: seq<PageId>)
    requires PagesOk(c, l, m) && c.pageCache && StoreEffect(l.pc, es, pc) && l.unlisting == []
    requires forall q :: q in CachedKeys(es) ==> OwnedBy(l.pc, q, ExternRam, false) && q !in l.writes
    requires forall q :: q in CachedKeys(es) && q in l.prefetches ==> q in unlisting
    ensures PagesOk(c, l.(pc := pc, unlisting := unlisting), m)
  {
    forall q
      ensures PageOk(c, l.(pc := pc, unlisting := unlisting), Peek(m, q), q)
    {
      PageFacts(c, l, m, q);
      StoredPage(c, l, Peek(m, q), es, pc, unlisting, q);
    }
  }

  lemma StoredCached(c: Config, pc: PageCacheState, m: Memory, es: seq<CacheEntry>)
    requires CachedOk(c, pc, m) && c.pageCache && UniqueCached(es)
    requires forall e :: e in es ==> OwnedBy(pc, e.page, ExternRam, false) && e.buf.data == Peek(m, e.page)
    ensures CachedOk(c, StorePages(pc, es), m) && StoreEffect(pc, es, StorePages(pc, es))
  {
    StorePagesInv(pc, es);
  }

  // -------------------------------------------------------------------- the faulting page

  /** The faulting page becomes the application's, with its content in the handler's hands. */
  lemma GrantPages(c: Config, l: Places, m: Memory, p: PageId, data: Placed, pc: PageCacheState)
    requires PagesOk(c, l, m) && l.hands == EMPTY_HANDS && p !in l.writes && p !in l.prefetches
    requires p !in l.mem ==> PlacedContent(data) == Peek(m, p)
    requires c.pageCache ==> OwnedBy(pc, p, Application, false)
    requires forall q :: q != p ==> OwnerOf(pc, q) == OwnerOf(l.pc, q)
    ensures PagesOk(c, l.(pc := pc, hands := Hands(Some((p, data)), None, None)), m)
  {
    forall q
      ensures PageOk(c, l.(pc := pc, hands := Hands(Some((p, data)), None, None)), Peek(m, q), q)
    {
      PageFacts(c, l, m, q);
    }
  }

  lemma EraseGrant(c: Config, pc: PageCacheState, m: Memory, p: PageId)
    requires CachedOk(c, pc, m) && c.pageCache && OwnedBy(pc, p, Cache, false)
    ensures var r := ChangeOwnership(pc.(cached := EraseCached(pc.cached, p)), p, Application, false);
      CachedOk(c, r, m) && FindCached(pc.cached, p).Some?
  {
    EraseCachedUnique(pc.cached, p);
    assert p in CachedKeys(pc.cached);
  }

  lemma ReadHit(c: Config, l: Places, m: Memory, p: PageId)
    requires CachedOk(c, l.pc, m) && c.pageCache && OwnedBy(l.pc, p, Cache, false)
    ensures var (data, pc) := ReadCached(c, l.kv, l.pc, p, []);
      && CachedOk(c, pc, m) && OwnedBy(pc, p, Application, false)
      && (forall q :: q != p ==> OwnerOf(pc, q) == OwnerOf(l.pc, q)) && PlacedContent(data) == Peek(m, p)
  {
    EraseGrant(c, l.pc, m, p);
  }

  /** The read without an inline multi-read: what it places is the page's content, and the page
      is now the application's. */
  lemma ReadOne(c: Config, l: Places, m: Memory, p: PageId)
    requires PagesOk(c, l, m) && CachedOk(c, l.pc, m) && l.hands == EMPTY_HANDS
    requires p !in l.writes && p !in l.prefetches && c.pageCache
    requires OwnedBy(l.pc, p, ExternRam, false) ==> !c.prefetch || c.threadedPrefetch
    ensures var (data, pc) := ReadCached(c, l.kv, l.pc, p, []);
      && CachedOk(c, pc, m) && OwnedBy(pc, p, Application, false)
      && (forall q :: q != p ==> OwnerOf(pc, q) == OwnerOf(l.pc, q))
      && (p !in l.mem ==> PlacedContent(data) == Peek(m, p))
  {
    PageFacts(c, l, m, p);
    if OwnedBy(l.pc, p, Cache, false) {
      ReadHit(c, l, m, p);
    } else if OwnerOf(l.pc, p).None? || OwnedBy(l.pc, p, Application, false) {
      assert PageOk(c, l, Peek(m, p), p);
    } else {
      ReownCached(c, l.pc, m, p, Application, false);
    }
  }

  lemma GrantStored(c: Config, l: Places, m: Memory, p: PageId)
    requires PagesOk(c, l, m) && CachedOk(c, l.pc, m) && l.hands == EMPTY_HANDS
    requires p !in l.writes && p !in l.prefetches && c.pageCache && OwnedBy(l.pc, p, ExternRam, false)
    ensures var pc := ChangeOwnership(l.pc, p, Application, false);
      && CachedOk(c, pc, m) && ReadStore(l.kv, p).Data?
      && PagesOk(c, l.(pc := pc, hands := Hands(Some((p, ReadStore(l.kv, p))), None, None)), m)
  {
    PageFacts(c, l, m, p);
    ReownCached(c, l.pc, m, p, Application, false);
    GrantPages(c, l, m, p, ReadStore(l.kv, p), ChangeOwnership(l.pc, p, Application, false));
  }

  lemma ReadKeys(c: Config, l: Places, m: Memory, keys: seq<PageId>)
    requires PagesOk(c, l, m) && c.pageCache && NoDup(keys) && l.hands.evicted.None? && l.hands.flipping.None?
    requires forall q :: q in keys ==> OwnedBy(l.pc, q, ExternRam, false) && q !in l.writes
    ensures forall i :: 0 <= i < |keys| ==> StoreHas(l.kv, keys[i], Peek(m, keys[i]))
  {
    forall i | 0 <= i < |keys|
      ensures StoreHas(l.kv, keys[i], Peek(m, keys[i]))
    {
      PageFacts(c, l, m, keys[i]);
    }
  }

  /** The inline multi-read: the faulting page and the selected ones. */
  lemma ReadMany(c: Config, l: Places, m: Memory, p: PageId, keys: seq<PageId>)
    requires PagesOk(c, l, m) && CachedOk(c, l.pc, m) && l.hands == EMPTY_HANDS && l.unlisting == [] && l.prefetches == []
    requires p !in l.writes && c.pageCache && OwnedBy(l.pc, p, ExternRam, false)
    requires NoDup(keys) && p !in keys
    requires forall q :: q in keys ==> OwnedBy(l.pc, q, ExternRam, false) && q !in l.writes
    ensures ReadStore(l.kv, p).Data?
    ensures var pc := StorePages(ChangeOwnership(l.pc, p, Application, false), Entries(keys, ReadAll(l.kv, keys)));
      && CachedOk(c, pc, m)
      && PagesOk(c, l.(pc := pc, hands := Hands(Some((p, ReadStore(l.kv, p))), None, None)), m)
  {
    ReadKeys(c, l, m, keys);
    GrantStored(c, l, m, p);
    var owned := ChangeOwnership(l.pc, p, Application, false);
    var mid := l.(pc := owned, hands := Hands(Some((p, ReadStore(l.kv, p))), None, None));
    EntriesOk(keys, ReadAll(l.kv, keys), m);
    var es := Entries(keys, ReadAll(l.kv, keys));
    assert forall q :: q in keys ==> OwnedBy(owned, q, ExternRam, false);
    StoredCached(c, owned, m, es);
    StoredPages(c, mid, m, es, StorePages(owned, es), []);
  }

  lemma ReadHandler(c: Config, s: State, pc: PageCacheState, data: Placed)
    requires HandlerInv(c, s) && s.h.Work? && s.h.e.Go? && s.h.k.ToBottom?
    ensures HandlerInv(c, s.(pc := pc, h := Work(Go, ToPlace(s.h.k.p, data))))
  {
  }

  lemma ReadInto(c: Config, s: State, m: Memory, pc: PageCacheState, data: Placed)
    requires Inv(c, s, m) && s.h.Work? && s.h.e.Go? && s.h.k.ToBottom?
    requires CachedOk(c, pc, m)
    requires PagesOk(c, PlacesOf(s).(pc := pc, hands := Hands(Some((s.h.k.p, data)), None, None)), m)
    ensures Inv(c, s.(pc := pc, h := Work(Go, ToPlace(s.h.k.p, data))), m)
  {
    ReadHandler(c, s, pc, data);
  }

  lemma BottomMany(c: Config, s: State, m: Memory)
    requires Inv(c, s, m) && s.h.Work? && s.h.e.Go? && s.h.k.ToBottom? && c.pageCache
    requires OwnedBy(s.pc, s.h.k.p, ExternRam, false) && c.prefetch && !c.threadedPrefetch
    ensures Inv(c, StepBottom(c, s, s.h.k.p), m)
  {
    ReadMany(c, PlacesOf(s), m, s.h.k.p, KeyPages(s.h.k.p.ufd, s.reader.keys[1..]));
    var (data, pc) := ReadCached(c, s.kv, s.pc, s.h.k.p, s.reader.keys);
    ReadInto(c, s, m, pc, data);
  }

  lemma BottomOne(c: Config, s: State, m: Memory)
    requires Inv(c, s, m) && s.h.Work? && s.h.e.Go? && s.h.k.ToBottom? && c.pageCache
    requires OwnedBy(s.pc, s.h.k.p, ExternRam, false) ==> !c.prefetch || c.threadedPrefetch
    ensures Inv(c, StepBottom(c, s, s.h.k.p), m)
  {
    var p, l := s.h.k.p, PlacesOf(s);
    ReadOne(c, l, m, p);
    var (data, pc) := ReadCached(c, s.kv, s.pc, p, []);
    PageFacts(c, l, m, p);
    assert (data, pc) == ReadCached(c, s.kv, s.pc, p, s.reader.keys);
    GrantPages(c, l, m, p, data, pc);
    ReadInto(c, s, m, pc, data);
  }

  lemma BottomPlain(c: Config, s: State, m: Memory)
    requires Inv(c, s, m) && s.h.Work? && s.h.e.Go? && s.h.k.ToBottom? && !c.pageCache
    ensures Inv(c, StepBottom(c, s, s.h.k.p), m)
  {
    var p := s.h.k.p;
    PageFacts(c, PlacesOf(s), m, p);
    GrantPages(c, PlacesOf(s), m, p, ReadStore(s.kv, p), s.pc);
    ReadInto(c, s, m, s.pc, ReadStore(s.kv, p));
  }

  lemma BottomKeeps(c: Config, s: State, m: Memory)
    requires Inv(c, s, m) && s.h.Work? && s.h.e.Go? && s.h.k.ToBottom?
    ensures Inv(c, StepBottom(c, s, s.h.k.p), m)
  {
    if !c.pageCache {
      BottomPlain(c, s, m);
    } else if OwnedBy(s.pc, s.h.k.p, ExternRam, false) && c.prefetch && !c.threadedPrefetch {
      BottomMany(c, s, m);
    } else {
      BottomOne(c, s, m);
    }
  }
}
