/** Prefetched pages share the store's buffers, and a full page cache frees them. */
module PrefetchRuns {
  import opened Pages
  import opened LruBuffer
  import opened ThreadedIo
  import opened PageCache
  import opened NoopStore
  import opened Monitor
  import opened MonitorInv
  import opened MonitorRuns
  import opened MonitorExact
  import opened PagedRuns

  predicate ReadsAhead(c: Config) {
    Paged(c) && c.prefetch
  }

  // ------------------------------------------------------------------ one page enters the cache

  /** The cache gains an entry in front; if it is full its last entry's buffer is freed, and that
      page is the store's again. */
  ghost predicate Gains(pc: PageCacheState, e: CacheEntry, r: PageCacheState) {
    var all := [e] + pc.cached;
    var n := |pc.cached|;
    && r.max == pc.max && r.hash.Keys == pc.hash.Keys
    && (if n + 1 > pc.max
        then r.cached == all[..n] && r.freed == pc.freed + {all[n].buf.id} && OwnedBy(r, all[n].page, ExternRam, false)
        else r.cached == all && r.freed == pc.freed)
  }

  ghost predicate Known(pc: PageCacheState) {
    forall e :: e in pc.cached ==> e.page in pc.hash
  }

  lemma StoreGains(pc: PageCacheState, e: CacheEntry, p: PageId)
    requires e.page !in CachedKeys(pc.cached) && e.page in pc.hash && p !in CachedKeys(pc.cached) && p != e.page && Known(pc)
    ensures Gains(pc, e, StorePage(pc, e)) && OwnerOf(StorePage(pc, e), p) == OwnerOf(pc, p)
  {
    var all := [e] + pc.cached;
    assert FindCached(pc.cached, e.page).None?;
    assert forall x :: x in all ==> x == e || x in pc.cached;
    assert all[|all| - 1] in all;
    assert pc.hash[e.page := PageInfo(Cache, false)].Keys == pc.hash.Keys;
  }

  /** What the handler's read of `p` does to the cache, if `p2` was selected with it. */
  function PcAfterRead(c: Config, kv: Kv, pc: PageCacheState, p: PageId, p2: PageId): (r: PageCacheState)
    requires p2 in kv
  {
    var owned := ChangeOwnership(pc, p, Application, false);
    if c.threadedPrefetch then owned else StorePage(owned, CacheEntry(p2, kv[p2]))
  }

  /** Both pages are in the store, and the keys are theirs. */
  ghost predicate Ready(c: Config, s: State, p: PageId, p2: PageId) {
    && OwnedBy(s.pc, p, ExternRam, false) && p in s.kv && p2 in s.kv && p2 in s.pc.hash && p.ufd == p2.ufd && p != p2 && p !in s.mem
    && p !in CachedKeys(s.pc.cached) && p2 !in CachedKeys(s.pc.cached) && Known(s.pc)
    && (!c.threadedPrefetch ==> s.reader.keys == [p.addr, p2.addr])
  }

  lemma TwoKeys(c: Config, s: State, p: PageId, p2: PageId)
    requires ReadsAhead(c) && Ready(c, s, p, p2)
    ensures ReadOf(c, s, p) == (Data(s.kv[p], false), PcAfterRead(c, s.kv, s.pc, p, p2))
  {
    if !c.threadedPrefetch {
      var rest, e := KeyPages(p.ufd, s.reader.keys[1..]), CacheEntry(p2, s.kv[p2]);
      assert rest == [p2] && ReadAll(s.kv, rest) == [Some(s.kv[p2])];
      var bufs := ReadAll(s.kv, rest);
      assert rest[1..] == [] && bufs[1..] == [] && Entries(rest[1..], bufs[1..]) == [];
      assert Entries(rest, bufs) == [e];
      var owned := ChangeOwnership(s.pc, p, Application, false);
      assert [e][1..] == [] && StorePages(StorePage(owned, e), []) == StorePage(owned, e);
    }
  }

  lemma HotRead(c: Config, s: State, m: Memory, p: PageId, p2: PageId) returns (r: State)
    requires ReadsAhead(c) && s.h == Work(Go, ToBottom(p)) && Ready(c, s, p, p2)
    ensures Reaches(c, s, m, r, m)
    ensures r == s.(mem := s.mem[p := s.kv[p].data], pc := PcAfterRead(c, s.kv, s.pc, p, p2),
                    h := Work(if c.asynRead then Go else Insert(p), ToTrim(None)))
  {
    TwoKeys(c, s, p, p2);
    r := InRun(c, s, m, p);
  }

  /** The cache after the handler's part: it has gained the entry unless that is the prefetcher's part. */
  ghost predicate HotPc(c: Config, kv: Kv, pc: PageCacheState, p: PageId, p2: PageId, r: PageCacheState)
    requires p2 in kv
  {
    && OwnedBy(r, p, Application, false)
    && (if c.threadedPrefetch then r.cached == pc.cached && r.freed == pc.freed && r.max == pc.max && r.hash.Keys == pc.hash.Keys
        else Gains(pc, CacheEntry(p2, kv[p2]), r))
  }

  lemma ReadThenOut(c: Config, s: State, p: PageId, p2: PageId, q: PageId, zero: bool)
    requires Ready(c, s, p, p2) && q != p
    ensures HotPc(c, s.kv, s.pc, p, p2, UpdateAfterWrite(PcAfterRead(c, s.kv, s.pc, p, p2), q, zero))
  {
    var owned := ChangeOwnership(s.pc, p, Application, false);
    assert owned.hash.Keys == s.pc.hash.Keys;
    StoreGains(owned, CacheEntry(p2, s.kv[p2]), p);
    var r := PcAfterRead(c, s.kv, s.pc, p, p2);
    assert UpdateAfterWrite(r, q, zero).hash.Keys == r.hash.Keys;
  }

  lemma OutThenRead(c: Config, kv: Kv, pc: PageCacheState, kv1: Kv, p: PageId, p2: PageId, q: PageId, zero: bool)
    requires p2 in kv && p2 in kv1 && kv1[p2] == kv[p2] && p in pc.hash && p2 in pc.hash && p != p2
    requires p !in CachedKeys(pc.cached) && p2 !in CachedKeys(pc.cached) && Known(pc)
    ensures HotPc(c, kv, pc, p, p2, PcAfterRead(c, kv1, UpdateAfterWrite(pc, q, zero), p, p2))
  {
    var out := UpdateAfterWrite(pc, q, zero);
    assert out.hash.Keys == pc.hash.Keys;
    var owned := ChangeOwnership(out, p, Application, false);
    assert owned.hash.Keys == pc.hash.Keys;
    StoreGains(owned, CacheEntry(p2, kv[p2]), p);
  }

  /** The state after the handler's part of a fault on `p` that evicts `q`. */
  ghost predicate HotEnd(c: Config, s: State, p: PageId, p2: PageId, q: PageId, r: State) {
    && p in s.kv && p2 in s.kv && Dropped(c, s, q, r.(mem := s.mem - {q})) && HotPc(c, s.kv, s.pc, p, p2, r.pc)
    && r == s.(lru := [p], mem := (s.mem - {q})[p := s.kv[p].data], wl := r.wl, kv := r.kv, maps := r.maps, pc := r.pc, h := Work(Go, ToTrim(None)))
  }

  lemma HotFirst(c: Config, s: State, m: Memory, p: PageId, p2: PageId, q: PageId) returns (r: State)
    requires ReadsAhead(c) && c.asynRead && s.h == AfterTop(c, p) && Ready(c, s, p, p2) && q != p && q != p2
    requires s.lru == [q] && s.lruMax == 1 && !s.sync.writerWaiting
    ensures Reaches(c, s, m, r, m) && HotEnd(c, s, p, p2, q, r)
  {
    var s1 := ReplaceRun(c, s, m, p, q, ToBottom(p));
    r := HotRead(c, s1, m, p, p2);
    Then(c, s, m, s1, m, r, m);
    OutThenRead(c, s.kv, s.pc, s1.kv, p, p2, q, Skipped(c, Taken(s.mem, q)));
  }

  lemma HotLast(c: Config, s: State, m: Memory, p: PageId, p2: PageId, q: PageId) returns (r: State)
    requires ReadsAhead(c) && !c.asynRead && s.h == AfterTop(c, p) && Ready(c, s, p, p2) && q != p && q != p2
    requires s.lru == [q] && s.lruMax == 1 && !s.sync.writerWaiting
    ensures Reaches(c, s, m, r, m) && HotEnd(c, s, p, p2, q, r)
  {
    var s1 := HotRead(c, s, m, p, p2);
    r := ReplaceRun(c, s1, m, p, q, ToTrim(None));
    Then(c, s, m, s1, m, r, m);
    assert r.mem == (s.mem - {q})[p := s.kv[p].data];
    ReadThenOut(c, s, p, p2, q, Skipped(c, Taken(s.mem, q)));
  }

  /** The handler's part, from the end of its top half. */
  lemma HotTail(c: Config, s: State, m: Memory, p: PageId, p2: PageId, q: PageId) returns (r: State)
    requires ReadsAhead(c) && s.h == AfterTop(c, p) && Ready(c, s, p, p2) && q != p && q != p2
    requires s.lru == [q] && s.lruMax == 1 && !s.sync.writerWaiting
    ensures Reaches(c, s, m, r, m) && HotEnd(c, s, p, p2, q, r.(h := Work(Go, ToTrim(None)))) && r.h.Idle?
  {
    var s1: State;
    if c.asynRead {
      s1 := HotFirst(c, s, m, p, p2, q);
    } else {
      s1 := HotLast(c, s, m, p, p2, q);
    }
    TrimRun(c, s1, m);
    r := s1.(h := Idle);
    Then(c, s, m, s1, m, r, m);
  }

  /** The prefetcher's part: it reads the one listed page ... */
  lemma FetchRun(c: Config, s: State, m: Memory, p2: PageId)
    requires c.threadedPrefetch && s.f.PrefetcherTop? && s.pl == [p2] && !s.sync.prefetcherWaiting && p2 in s.kv
    ensures Reaches(c, s, m, s.(f := Storing([p2], [Some(s.kv[p2])])), m)
  {
    assert PickTo(s.pl, 0) == [] && [] + [p2] == [p2];
    assert Pick(s.pl) == [p2];
    var s1 := s.(f := Reading([p2], []));
    One(c, s, m, Prefetcher, s1);
    assert [] + [Some(s.kv[p2])] == [Some(s.kv[p2])];
    var s2 := s.(f := Reading([p2], [Some(s.kv[p2])]));
    Next(c, s, m, s1, Prefetcher, s2);
    Next(c, s, m, s2, Prefetcher, s.(f := Storing([p2], [Some(s.kv[p2])])));
  }

  lemma OneEntry(pc: PageCacheState, p2: PageId, buf: Buffer)
    ensures StorePages(pc, Entries([p2], [Some(buf)])) == StorePage(pc, CacheEntry(p2, buf))
    ensures DelPrefetched([p2], [p2]) == []
  {
    var keys, bufs, e := [p2], [Some(buf)], CacheEntry(p2, buf);
    assert keys[1..] == [] && bufs[1..] == [] && Entries(keys[1..], bufs[1..]) == [];
    assert Entries(keys, bufs) == [e] && [e][1..] == [] && StorePages(StorePage(pc, e), []) == StorePage(pc, e);
    assert DelPrefetchInfo(keys, p2) == [];
  }

  /** ... and puts it into the cache. */
  lemma PrefetchRun(c: Config, s: State, m: Memory, p2: PageId) returns (r: State)
    requires c.threadedPrefetch && s.f.PrefetcherTop? && s.pl == [p2] && !s.sync.handlerWaiting && !s.sync.prefetcherWaiting && p2 in s.kv
    ensures Reaches(c, s, m, r, m) && r == s.(pl := [], pc := StorePage(s.pc, CacheEntry(p2, s.kv[p2])))
  {
    FetchRun(c, s, m, p2);
    OneEntry(s.pc, p2, s.kv[p2]);
    var pc := StorePage(s.pc, CacheEntry(p2, s.kv[p2]));
    var s1 := s.(pc := pc, f := Unlisting([p2]));
    Next(c, s, m, s.(f := Storing([p2], [Some(s.kv[p2])])), Prefetcher, s1);
    r := s.(pl := [], pc := pc);
    Next(c, s, m, s1, Prefetcher, r);
  }

  lemma TwiceGains(c: Config, kv: Kv, pc: PageCacheState, p: PageId, p2: PageId, mid: PageCacheState)
    requires c.threadedPrefetch && p2 in kv && HotPc(c, kv, pc, p, p2, mid) && p2 in pc.hash && p != p2
    requires p !in CachedKeys(pc.cached) && p2 !in CachedKeys(pc.cached) && Known(pc)
    ensures var r := StorePage(mid, CacheEntry(p2, kv[p2])); OwnedBy(r, p, Application, false) && Gains(pc, CacheEntry(p2, kv[p2]), r)
  {
    StoreGains(mid, CacheEntry(p2, kv[p2]), p);
  }

  /** A run of two consecutive accesses selects the next page. */
  lemma NextSelected(c: Config, s: State, p: PageId, p2: PageId)
    requires Prefetches(c, s.pc, p) && Advance(s.reader.window, p.addr).numConseqAcc == 1 && p2 == Ahead(p, 1)
    requires OwnedBy(s.pc, p2, ExternRam, false) && s.wl == [] && s.pl == []
    ensures Selected(c, s, p) == [p2]
  {
    var pend := Pending(WriteKeys(s.wl), s.pl, c.zeroOpt);
    assert Eligible(s.pc, pend, p2);
    assert [] + [p2] == [p2];
    assert SelectFrom(s.pc, pend, p, 1, c.prefetchSize, 2, [p2]) == [p2];
  }

  /** From the end of the top half on, with the other threads' rounds. */
  lemma HotRest(c: Config, s: State, m: Memory, p: PageId, p2: PageId, q: PageId) returns (r: State)
    requires ReadsAhead(c) && Quiet(s.(h := Idle, pl := [])) && s.wl == [] && q != p && q != p2 && s.lru == [q] && s.lruMax == 1
    requires s.h == AfterTop(c, p) && s.pl == (if c.threadedPrefetch then [p2] else []) && Ready(c, s, p, p2)
    ensures Reaches(c, s, m, r, m) && Quiet(r) && r.wl == [] && r.lru == [p] && r.lruMax == 1
    ensures r.mem == (s.mem - {q})[p := s.kv[p].data] && r.kv == StoreWith(c, s, q)
    ensures OwnedBy(r.pc, p, Application, false) && Gains(s.pc, CacheEntry(p2, s.kv[p2]), r.pc)
  {
    var s1 := HotTail(c, s, m, p, p2, q);
    var s2 := s1;
    if c.threadedPrefetch {
      s2 := PrefetchRun(c, s1, m, p2);
      Then(c, s, m, s1, m, s2, m);
      TwiceGains(c, s.kv, s.pc, p, p2, s1.pc);
    }
    r := SettleRun(c, s, m, s2, q);
    Then(c, s, m, s2, m, r, m);
  }

  /** A whole fault on `p` that prefetches `p2`, with the other threads' rounds. */
  lemma HotFault(c: Config, s: State, m: Memory, p: PageId, p2: PageId, q: PageId) returns (r: State)
    requires ReadsAhead(c) && Quiet(s) && s.wl == [] && ValidPage(p) && q != p && q != p2 && s.lru == [q] && s.lruMax == 1
    requires Selected(c, s, p) == [p2] && Prefetches(c, s.pc, p)
    requires Ready(c, s.(reader := Reader(s.reader.window, [p.addr, p2.addr])), p, p2)
    ensures Reaches(c, s, m, r, m) && Quiet(r) && r.wl == [] && r.lru == [p] && r.lruMax == 1
    ensures r.mem == (s.mem - {q})[p := s.kv[p].data] && r.kv == StoreWith(c, s, q)
    ensures OwnedBy(r.pc, p, Application, false) && Gains(s.pc, CacheEntry(p2, s.kv[p2]), r.pc)
  {
    assert [p.addr] + Addrs([p2]) == [p.addr, p2.addr];
    var s1 := TopRun(c, s, m, p);
    r := HotRest(c, s1, m, p, p2, q);
    Then(c, s, m, s1, m, r, m);
  }

  // ----------------------------------------------------------------------------------- rounds

  function Pg(i: nat): (p: PageId) {
    PageId(1, 4096 * i)
  }

  /** Pages from the `i`-th on are new. */
  ghost predicate Fresh(pc: PageCacheState, i: nat) {
    forall j: nat :: j >= i ==> Pg(j) !in pc.hash
  }

  /** Every cached page has the buffer of the store. */
  ghost predicate Shared(pc: PageCacheState, kv: Kv, z: PageId) {
    forall e :: e in pc.cached ==> e.page in pc.hash && e.page != z && Lookup(kv, e.page) == Some(e.buf)
  }

  /** Between rounds: one page resident, the cached ones shared, the pages from the `i`-th on new. */
  ghost predicate Base(c: Config, s: State, z: PageId, i: nat) {
    && Quiet(s) && s.wl == [] && s.lru == [z] && s.lruMax == 1 && s.mem.Keys == {z}
    && OwnedBy(s.pc, z, Application, false) && Fresh(s.pc, i) && Shared(s.pc, s.kv, z) && s.pc.max == c.pageCacheSize
  }

  function Stored(s: State, p: PageId): (r: State)
    requires p in s.mem
  {
    DoStore(s, p, 0, 1)
  }

  /** A new page is faulted in, in place of `z`, and stored to. */
  lemma NewPage(c: Config, s: State, m: Memory, z: PageId, j: nat, i: nat) returns (r: State, n: Memory)
    requires Paged(c) && Base(c, s, z, i) && j < 0x10_0000_0000_0000 && Pg(j) !in s.pc.hash
    ensures Reaches(c, s, m, r, n) && Base(c, r, Pg(j), if j >= i then j + 1 else i)
    ensures r.mem[Pg(j)] != ZeroPage() && r.reader.window == Advance(s.reader.window, Pg(j).addr)
    ensures r.pc == Seen(PcAfterOut(c, s, z), Pg(j)) && r.kv == StoreWith(c, s, z)
  {
    var p := Pg(j);
    assert p != z;
    var s1 := ColdFault(c, s, m, p, z);
    r := Stored(s1, p);
    One(c, s1, m, Store(p, 0, 1), r);
    n := Shadow(m, Store(p, 0, 1));
    Then(c, s, m, s1, m, r, n);
    assert r.mem[p][0] == 1 && ZeroPage()[0] == 0;
  }

  /** The page before the last one, and then that one again: a run of one. */
  lemma WindowRun(w: Window, i: nat)
    requires i + 2 < 0x10_0000_0000_0000
    ensures Advance(Advance(Advance(w, Pg(i + 1).addr), Pg(i).addr), Pg(i + 1).addr).numConseqAcc == 1
  {
    assert Pg(i + 1).addr + 4096 == Pg(i + 2).addr < 0x1_0000_0000_0000_0000;
    assert Pg(i).addr + 4096 == Pg(i + 1).addr;
  }

  /** Evicting a page with content, for a new one, makes it the store's. */
  lemma OutOwner(c: Config, s: State, p: PageId, q: PageId)
    requires OwnedBy(s.pc, q, Application, false) && q in s.mem && s.mem[q] != ZeroPage() && p != q
    ensures OwnedBy(Seen(PcAfterOut(c, s, q), p), q, ExternRam, false) && q in StoreWith(c, s, q)
    ensures Seen(PcAfterOut(c, s, q), p).hash.Keys == s.pc.hash.Keys + {p}
    ensures forall x :: x != p && x != q ==> OwnerOf(Seen(PcAfterOut(c, s, q), p), x) == OwnerOf(s.pc, x)
  {
  }

  /** Three new pages: the last two of them in the store, the first one just accessed. */
  lemma ThreePages(c: Config, s: State, m: Memory, z: PageId, i: nat) returns (r: State, n: Memory)
    requires Paged(c) && Base(c, s, z, i) && i + 2 < 0x10_0000_0000_0000
    ensures Reaches(c, s, m, r, n) && Base(c, r, Pg(i), i + 3)
    ensures OwnedBy(r.pc, Pg(i + 1), ExternRam, false) && OwnedBy(r.pc, Pg(i + 2), ExternRam, false) && Pg(i + 1) in r.kv && Pg(i + 2) in r.kv
    ensures r.pc.cached == s.pc.cached && r.pc.freed == s.pc.freed
    ensures Advance(r.reader.window, Pg(i + 1).addr).numConseqAcc == 1
  {
    var p0, p1, p2 := Pg(i), Pg(i + 1), Pg(i + 2);
    assert p0 !in s.pc.hash && p1 !in s.pc.hash && p2 !in s.pc.hash;
    var s1, m1 := NewPage(c, s, m, z, i + 2, i);
    var s2, m2 := NewPage(c, s1, m1, p2, i + 1, i + 3);
    Then(c, s, m, s1, m1, s2, m2);
    OutOwner(c, s1, p1, p2);
    r, n := NewPage(c, s2, m2, p1, i, i + 3);
    Then(c, s, m, s2, m2, r, n);
    OutOwner(c, s2, p0, p1);
    WindowRun(s1.reader.window, i);
  }

  /** What a round leaves: one more page in the cache, or a freed buffer that is still the store's. */
  ghost predicate FreedInStore(s: State) {
    exists p :: p in s.kv && s.kv[p].id in s.pc.freed && OwnedBy(s.pc, p, ExternRam, false)
  }

  lemma OldPages(pc: PageCacheState, kv: Kv, z: PageId, p: PageId)
    requires Shared(pc, kv, z) && p !in CachedKeys(pc.cached)
    ensures Known(pc) && Shared(pc, kv, p)
  {
    forall e | e in pc.cached
      ensures e.page != p
    {
      assert e.page in CachedKeys(pc.cached);
    }
  }

  lemma Round(c: Config, s: State, m: Memory, z: PageId, i: nat) returns (r: State, n: Memory)
    requires ReadsAhead(c) && Base(c, s, z, i) && i + 2 < 0x10_0000_0000_0000
    ensures Reaches(c, s, m, r, n) && Base(c, r, Pg(i + 1), i + 3)
    ensures if |s.pc.cached| < c.pageCacheSize then |r.pc.cached| == |s.pc.cached| + 1 else FreedInStore(r)
  {
    var p, p2 := Pg(i + 1), Pg(i + 2);
    var s1, m1 := ThreePages(c, s, m, z, i);
    NewPages(s, s1, z, i);
    NextSelected(c, s1, p, p2);
    r := HotFault(c, s1, m1, p, p2, Pg(i));
    n := m1;
    Then(c, s, m, s1, m1, r, n);
    RoundEnds(c, s1, r, i);
  }

  lemma NewPages(s: State, s1: State, z: PageId, i: nat)
    requires Shared(s.pc, s.kv, z) && Fresh(s.pc, i) && s1.pc.cached == s.pc.cached && Shared(s1.pc, s1.kv, Pg(i))
    ensures Pg(i + 1) !in CachedKeys(s1.pc.cached) && Pg(i + 2) !in CachedKeys(s1.pc.cached) && Known(s1.pc)
  {
    assert Pg(i + 1) !in s.pc.hash && Pg(i + 2) !in s.pc.hash;
  }

  lemma RoundEnds(c: Config, s: State, r: State, i: nat)
    requires Base(c, s, Pg(i), i + 3) && Pg(i + 2) in s.kv && Pg(i + 1) in s.kv && Pg(i + 2) in s.pc.hash && Pg(i + 1) in s.pc.hash
    requires Pg(i + 1) !in CachedKeys(s.pc.cached)
    requires Quiet(r) && r.wl == [] && r.lru == [Pg(i + 1)] && r.lruMax == 1 && r.kv == StoreWith(c, s, Pg(i))
    requires r.mem == (s.mem - {Pg(i)})[Pg(i + 1) := s.kv[Pg(i + 1)].data]
    requires OwnedBy(r.pc, Pg(i + 1), Application, false) && Gains(s.pc, CacheEntry(Pg(i + 2), s.kv[Pg(i + 2)]), r.pc)
    ensures Base(c, r, Pg(i + 1), i + 3)
    ensures if |s.pc.cached| < c.pageCacheSize then |r.pc.cached| == |s.pc.cached| + 1 else FreedInStore(r)
  {
    var e := CacheEntry(Pg(i + 2), s.kv[Pg(i + 2)]);
    var all := [e] + s.pc.cached;
    OldPages(s.pc, s.kv, Pg(i), Pg(i + 1));
    forall x | x in all
      ensures x.page in r.pc.hash && x.page != Pg(i + 1) && Lookup(r.kv, x.page) == Some(x.buf)
    {
      assert x == e || x in s.pc.cached;
    }
    var last := all[|s.pc.cached|];
    assert last in all;
    assert r.kv[last.page].id == last.buf.id;
  }

  // ---------------------------------------------------------------------------------- theorems

  /** The first round. */
  lemma FirstBase(c: Config) returns (s: State)
    requires Paged(c)
    ensures Reaches(c, Init(c), map[], s, map[]) && Base(c, s, Pg(0), 1) && s.pc.cached == []
  {
    s := FirstFault(c, Pg(0));
  }

  /** After `n` rounds the cache holds `n` pages. */
  lemma {:induction false} Rounds(c: Config, n: nat) returns (s: State, m: Memory, z: PageId)
    requires ReadsAhead(c) && n <= c.pageCacheSize && 3 * n < 0x10_0000_0000_0000
    ensures Reaches(c, Init(c), map[], s, m) && |s.pc.cached| == n && Base(c, s, z, 3 * n + 1)
  {
    if n == 0 {
      s := FirstBase(c);
      m, z := map[], Pg(0);
    } else {
      var s0, m0, z0 := Rounds(c, n - 1);
      s, m := Round(c, s0, m0, z0, 3 * n - 2);
      z := Pg(3 * n - 1);
      Then(c, Init(c), map[], s0, m0, s, m);
    }
  }

  /** With prefetching, whatever the other options, there is a run after which the page cache has
      freed a buffer that the store still holds, for a page whose next read is from the store. */
  lemma FreedRun(c: Config) returns (s: State)
    requires ReadsAhead(c) && 3 * c.pageCacheSize + 3 < 0x10_0000_0000_0000
    ensures Reachable(c, s) && FreedInStore(s)
  {
    var s0, m0, z := Rounds(c, c.pageCacheSize);
    var m;
    s, m := Round(c, s0, m0, z, 3 * c.pageCacheSize + 1);
    Then(c, Init(c), map[], s0, m0, s, m);
  }
}
