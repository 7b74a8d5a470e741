/** Every step of every thread keeps the invariant. */
module MonitorSteps {
  import opened Pages
  import opened LruBuffer
  import opened ThreadedIo
  import opened PageCache
  import opened NoopStore
  import opened Monitor
  import opened MonitorInv

  // --------------------------------------------------------------------- the application's steps

  lemma StoreKeepsPages(c: Config, s: State, m: Memory, p: PageId, off: nat, v: byte)
    requires PagesOk(c, PlacesOf(s), m) && p in s.mem && off < PAGE_SIZE
    ensures PagesOk(c, PlacesOf(DoStore(s, p, off, v)), Shadow(m, Store(p, off, v)))
  {
    forall q
      ensures PageOk(c, PlacesOf(DoStore(s, p, off, v)), Peek(Shadow(m, Store(p, off, v)), q), q)
    {
      assert PageOk(c, PlacesOf(s), Peek(m, q), q);
    }
  }

  lemma StoreKeeps(c: Config, s: State, m: Memory, p: PageId, off: nat, v: byte)
    requires Inv(c, s, m) && p in s.mem && off < PAGE_SIZE
    ensures Inv(c, DoStore(s, p, off, v), Shadow(m, Store(p, off, v)))
  {
    StoreKeepsPages(c, s, m, p, off, v);
    assert PageOk(c, PlacesOf(s), Peek(m, p), p);
    assert forall e :: e in s.wl ==> e.page in WriteKeys(s.wl);
    assert forall e :: e in s.pc.cached ==> e.page in CachedKeys(s.pc.cached);
  }

  // --------------------------------------------------- handler steps that leave pages in place

  /** A handler step that moves no page. */
  ghost predicate InPlace(c: Config, s: State, r: State) {
    && r.wl == s.wl && r.pc == s.pc && r.pl == s.pl && r.kv == s.kv && r.w == s.w && r.f == s.f && r.mem == s.mem
    && HandsOf(r.h) == HandsOf(s.h)
    && HandlerInv(c, r)
  }

  lemma InPlaceKeeps(c: Config, s: State, m: Memory, r: State)
    requires Inv(c, s, m) && InPlace(c, s, r)
    ensures Inv(c, r, m)
  {
  }

  lemma ResizeInPlace(c: Config, s: State, size: nat)
    requires HandlerInv(c, s) && s.h.Idle? && size >= c.floor
    ensures InPlace(c, s, StepResize(s, size))
  {
    if size <= |s.lru| {
      VictimsSplit(s.lru, |s.lru| - size);
    }
  }

  lemma PostInPlace(c: Config, s: State)
    requires HandlerInv(c, s) && s.h.Wait? && s.h.stage in {PostWriter, PostPrefetcher}
    ensures InPlace(c, s, StepWait(c, s, s.h.stage, s.h.p, s.h.got))
  {
    if s.h.stage == PostWriter {
    }
  }

  lemma ParkInPlace(c: Config, s: State)
    requires HandlerInv(c, s) && s.h.Wait? && s.h.stage in {ParkWrite, ParkPrefetch} && s.sync.handlerSem > 0
    ensures InPlace(c, s, StepWait(c, s, s.h.stage, s.h.p, s.h.got))
  {
    if s.h.stage == ParkWrite {
    }
  }

  lemma CheckPrefetchInPlace(c: Config, s: State)
    requires HandlerInv(c, s) && s.h.Wait? && s.h.stage == CheckPrefetch
    ensures InPlace(c, s, StepCheckPrefetch(c, s, s.h.p, s.h.got))
  {
  }

  lemma CheckWriteInPlace(c: Config, s: State)
    requires HandlerInv(c, s) && s.h.Wait? && s.h.stage == CheckWrite && (!c.threadedPrefetch ==> s.pl == [])
    requires var w := FindWriteInfo(s.wl, s.h.p); w.None? || w.value.inFlight
    ensures InPlace(c, s, StepCheckWrite(c, s, s.h.p))
  {
  }

  lemma NoVictim(c: Config, s: State, p: PageId, k: After)
    requires LruOk(c, s.lru, s.lruMax, s.mem, Work(Insert(p), k)) && (!k.ToTrim? ==> FaultOf(k) == Some(p))
    requires |ToFront(s.lru, p)| <= s.lruMax
    ensures LruOk(c, ToFront(s.lru, p), s.lruMax, s.mem, Work(Go, k))
  {
    ToFrontNoDup(s.lru, p);
  }

  /** The victim is resident, and never the faulting page. */
  lemma VictimIsNotFaulting(c: Config, s: State, p: PageId, k: After)
    requires LruOk(c, s.lru, s.lruMax, s.mem, Work(Insert(p), k)) && (!k.ToTrim? ==> FaultOf(k) == Some(p))
    requires |ToFront(s.lru, p)| > s.lruMax && (!k.ToTrim? ==> s.lruMax >= 1)
    ensures var l := ToFront(s.lru, p);
      LruOk(c, l[..|l| - 1], s.lruMax, s.mem, Work(Remap(l[|l| - 1], RETRIES), k))
  {
    ToFrontNoDup(s.lru, p);
  }

  /** A step that only rearranges the LRU buffer. */
  lemma RelistInPlace(c: Config, s: State, lru: seq<PageId>, e: Evicting)
    requires HandlerInv(c, s) && s.h.Work? && (s.h.e.Insert? || s.h.e.Reinsert?) && (e.Go? || e.Remap?)
    requires LruOk(c, lru, s.lruMax, s.mem, Work(e, s.h.k))
    ensures InPlace(c, s, s.(lru := lru, h := Work(e, s.h.k)))
  {
  }

  lemma InsertInPlace(c: Config, s: State)
    requires HandlerInv(c, s) && s.h.Work? && s.h.e.Insert? && Room(s)
    ensures InPlace(c, s, StepInsert(s, s.h.e.p, s.h.k))
  {
    var l := ToFront(s.lru, s.h.e.p);
    if |l| > s.lruMax {
      VictimIsNotFaulting(c, s, s.h.e.p, s.h.k);
      RelistInPlace(c, s, l[..|l| - 1], Remap(l[|l| - 1], RETRIES));
    } else {
      NoVictim(c, s, s.h.e.p, s.h.k);
      RelistInPlace(c, s, l, Go);
    }
  }

  lemma ReinsertInPlace(c: Config, s: State)
    requires HandlerInv(c, s) && s.h.Work? && s.h.e.Reinsert?
    ensures InPlace(c, s, StepWork(c, s, s.h.e, s.h.k, Moved))
  {
    ToFrontNoDup(s.lru, s.h.e.v);
  }

  lemma TrimInPlace(c: Config, s: State)
    requires HandlerInv(c, s) && s.h.Work? && s.h.e.Go? && s.h.k.ToTrim?
    ensures InPlace(c, s, StepTrim(s, s.h.k.tmp))
  {
    if |s.lru| > s.lruMax {
      VictimsSplit(s.lru, |s.lru| - s.lruMax);
    }
  }

  lemma MultiInPlace(c: Config, s: State)
    requires HandlerInv(c, s) && s.h.Work? && s.h.e.Go? && s.h.k.ToMulti?
    ensures InPlace(c, s, StepMulti(s, s.h.k.rest, s.h.k.newMax))
  {
  }

  // ------------------------------------------------------- a page taken back from the write list

  const EMPTY_HANDS := Hands(None, None, None)

  /** The location invariant, page by page. */
  lemma PageFacts(c: Config, l: Places, m: Memory, p: PageId)
    requires PagesOk(c, l, m)
    ensures PageOk(c, l, Peek(m, p), p)
  {
  }

  lemma ExtractPages(c: Config, l: Places, m: Memory, p: PageId, buf: Buffer)
    requires PagesOk(c, l, m) && p in l.writes && l.hands == EMPTY_HANDS && buf.data == Peek(m, p)
    ensures PagesOk(c, l.(writes := l.writes - {p},
                          pc := if c.pageCache then UpdateAfterSkippedRead(l.pc, p) else l.pc,
                          hands := Hands(Some((p, Data(buf, true))), None, None)), m)
    ensures p !in l.prefetches && (c.pageCache ==> OwnedBy(l.pc, p, ExternRam, false))
  {
    PageFacts(c, l, m, p);
    forall q
      ensures PageOk(c, l.(writes := l.writes - {p},
                           pc := if c.pageCache then UpdateAfterSkippedRead(l.pc, p) else l.pc,
                           hands := Hands(Some((p, Data(buf, true))), None, None)), Peek(m, q), q)
    {
      PageFacts(c, l, m, q);
    }
  }

  lemma ExtractList(c: Config, w: WriterPc, wl: seq<WriteInfo>, kv: Kv, m: Memory, p: PageId)
    requires WriteListOk(wl, m) && WriterOk(c, w, wl, kv)
    requires var e := FindWriteInfo(wl, p); e.Some? && !e.value.inFlight
    ensures WriteListOk(DelWriteInfo(wl, p), m) && WriterOk(c, w, DelWriteInfo(wl, p), kv)
    ensures WriteKeys(DelWriteInfo(wl, p)) == WriteKeys(wl) - {p}
  {
    DelWriteInfoUnique(wl, p);
    forall e | e in wl && e.inFlight
      ensures e.page != p
    {
      UniqueKeysFind(wl, e);
    }
  }

  /** Ownership moves between the application and external memory without touching the cache. */
  lemma ReownCached(c: Config, pc: PageCacheState, m: Memory, p: PageId, owner: Owner, isZero: bool)
    requires CachedOk(c, pc, m) && c.pageCache && owner != Cache
    requires OwnerOf(pc, p).Some? && pc.hash[p].owner != Cache
    ensures CachedOk(c, ChangeOwnership(pc, p, owner, isZero), m)
  {
  }

  /** A handler step that takes a page out of the write list, from the parts that change. */
  lemma ExtractInto(c: Config, s: State, m: Memory, buf: Buffer, wl: seq<WriteInfo>, pc: PageCacheState)
    requires Inv(c, s, m) && s.h.Wait?
    requires WriteListOk(wl, m) && WriterOk(c, s.w, wl, s.kv) && CachedOk(c, pc, m)
    requires HandlerInv(c, s.(wl := wl, pc := pc, h := AfterWriteCheck(c, s.h.p, Some(buf))))
    requires PagesOk(c, PlacesOf(s).(writes := WriteKeys(wl), pc := pc, hands := Hands(Some((s.h.p, Data(buf, true))), None, None)), m)
    ensures Inv(c, s.(wl := wl, pc := pc, h := AfterWriteCheck(c, s.h.p, Some(buf))), m)
  {
  }

  lemma ExtractKeeps(c: Config, s: State, m: Memory, buf: Buffer, wl: seq<WriteInfo>, pc: PageCacheState)
    requires Inv(c, s, m) && s.h.Wait? && s.h.stage == CheckWrite
    requires FindWriteInfo(s.wl, s.h.p) == Some(WriteInfo(s.h.p, buf, false))
    requires wl == DelWriteInfo(s.wl, s.h.p)
    requires pc == if c.pageCache then UpdateAfterSkippedRead(s.pc, s.h.p) else s.pc
    requires CachedOk(c, pc, m)
    ensures Inv(c, s.(wl := wl, pc := pc, h := AfterWriteCheck(c, s.h.p, Some(buf))), m)
  {
    var p := s.h.p;
    ExtractList(c, s.w, s.wl, s.kv, m, p);
    ExtractPages(c, PlacesOf(s), m, p, buf);
    ExtractInto(c, s, m, buf, wl, pc);
  }

  lemma CheckWriteKeeps(c: Config, s: State, m: Memory)
    requires Inv(c, s, m) && s.h.Wait? && s.h.stage == CheckWrite
    ensures Inv(c, StepCheckWrite(c, s, s.h.p), m)
  {
    var w := FindWriteInfo(s.wl, s.h.p);
    if w.Some? && !w.value.inFlight {
      if c.pageCache {
        PageFacts(c, PlacesOf(s), m, s.h.p);
        ReownCached(c, s.pc, m, s.h.p, Application, false);
      }
      ExtractKeeps(c, s, m, w.value.buf, DelWriteInfo(s.wl, s.h.p),
                   if c.pageCache then UpdateAfterSkippedRead(s.pc, s.h.p) else s.pc);
    } else {
      CheckWriteInPlace(c, s);
      InPlaceKeeps(c, s, m, StepCheckWrite(c, s, s.h.p));
    }
  }

  // ------------------------------------------------------------------ pages chosen for prefetch

  /** Pages the window selects are at rest in the store. */
  lemma SelectedPages(c: Config, l: Places, m: Memory, keys: seq<PageId>)
    requires PagesOk(c, l, m) && l.hands == EMPTY_HANDS && c.pageCache
    requires forall q :: q in keys ==> Eligible(l.pc, Pending(l.writes, l.prefetches, c.zeroOpt), q)
    ensures forall q :: q in keys ==> OwnedBy(l.pc, q, ExternRam, false) && q !in l.writes
    ensures PagesOk(c, l.(prefetches := l.prefetches + keys), m)
  {
    forall q
      ensures PageOk(c, l.(prefetches := l.prefetches + keys), Peek(m, q), q)
      ensures q in keys ==> OwnedBy(l.pc, q, ExternRam, false)
    {
      PageFacts(c, l, m, q);
    }
  }

  lemma AppendPrefetches(c: Config, f: PrefetcherPc, pl: seq<PageId>, m: Memory, keys: seq<PageId>)
    requires PrefetcherOk(c, f, pl, m) && c.threadedPrefetch && NoDup(keys)
    requires forall q :: q in keys ==> q !in pl
    ensures PrefetcherOk(c, f, pl + keys, m)
  {
    assert forall q :: q in pl ==> q in pl + keys;
    assert NoDup(pl + keys) by {
      forall i, j | 0 <= i < j < |pl + keys|
        ensures (pl + keys)[i] != (pl + keys)[j]
      {
        if i < |pl| <= j {
          assert keys[j - |pl|] in keys;
        }
      }
    }
  }

  /** The pages of the selected keys are the selected pages. */
  lemma KeysBack(ufd: int, pages: seq<PageId>)
    requires forall q :: q in pages ==> q.ufd == ufd
    ensures KeyPages(ufd, Addrs(pages)) == pages
  {
    forall i | 0 <= i < |pages|
      ensures KeyPages(ufd, Addrs(pages))[i] == pages[i]
    {
      assert pages[i] in pages;
    }
  }

  lemma TopHandler(c: Config, s: State, reader: Reader, pl: seq<PageId>, h: HandlerPc)
    requires HandlerInv(c, s) && s.h.Top? && s.h.p !in pl
    requires h == AfterTop(c, s.h.p) || (h == PostTop(s.h.p) && c.threadedPrefetch)
    requires Inline(c, s.pc, s.h.p) ==> Prepared(s.h.p, reader.keys, s.pc, WriteKeys(s.wl))
    ensures HandlerInv(c, s.(reader := reader, pl := pl, h := h))
  {
  }

  lemma TopInto(c: Config, s: State, m: Memory, reader: Reader, added: seq<PageId>, h: HandlerPc)
    requires Inv(c, s, m) && s.h.Top?
    requires h == AfterTop(c, s.h.p) || (h == PostTop(s.h.p) && c.threadedPrefetch)
    requires !c.threadedPrefetch ==> added == []
    requires added != [] ==> c.pageCache && NoDup(added) && s.h.p !in added
    requires forall q :: q in added ==> Eligible(s.pc, Pending(WriteKeys(s.wl), s.pl, c.zeroOpt), q)
    requires Inline(c, s.pc, s.h.p) ==> Prepared(s.h.p, reader.keys, s.pc, WriteKeys(s.wl))
    ensures Inv(c, s.(reader := reader, pl := s.pl + added, h := h), m)
  {
    var l := PlacesOf(s);
    if c.pageCache {
      SelectedPages(c, l, m, added);
    } else {
      assert added == [] && l.prefetches + added == l.prefetches;
    }
    if c.threadedPrefetch {
      AppendPrefetches(c, s.f, s.pl, m, added);
    }
    TopHandler(c, s, reader, s.pl + added, h);
  }

  /** The inline multi-read is prepared whenever it will take place. */
  lemma TopPrepares(c: Config, s: State, m: Memory)
    requires Inv(c, s, m) && s.h.Top? && Inline(c, s.pc, s.h.p)
    ensures Prepared(s.h.p, StepTop(c, s, s.h.p).reader.keys, s.pc, WriteKeys(s.wl))
  {
    var p, pages := s.h.p, Selected(c, s, s.h.p);
    SelectOk(s.pc, Pending(WriteKeys(s.wl), s.pl, c.zeroOpt), p, Advance(s.reader.window, p.addr).numConseqAcc, c.prefetchSize);
    SelectedPages(c, PlacesOf(s), m, pages);
    KeysBack(p.ufd, pages);
    assert ([p.addr] + Addrs(pages))[1..] == Addrs(pages);
  }

  lemma TopKeeps(c: Config, s: State, m: Memory)
    requires Inv(c, s, m) && s.h.Top?
    ensures Inv(c, StepTop(c, s, s.h.p), m)
  {
    var p, r := s.h.p, StepTop(c, s, s.h.p);
    if Inline(c, s.pc, p) {
      TopPrepares(c, s, m);
    }
    if c.threadedPrefetch {
      SelectOk(s.pc, Pending(WriteKeys(s.wl), s.pl, c.zeroOpt), p, Advance(s.reader.window, p.addr).numConseqAcc, c.prefetchSize);
      TopInto(c, s, m, r.reader, Selected(c, s, p), r.h);
    } else {
      assert s.pl + [] == s.pl;
      TopInto(c, s, m, r.reader, [], r.h);
    }
  }
}
