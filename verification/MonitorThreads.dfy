/** The writer's and the prefetcher's steps keep the invariant. */
module MonitorThreads {
  import opened Pages
  import opened LruBuffer
  import opened ThreadedIo
  import opened PageCache
  import opened NoopStore
  import opened Monitor
  import opened MonitorInv
  import opened MonitorSteps
  import opened MonitorReads

  // ------------------------------------------------------------- steps that only move a thread

  ghost predicate SameData(s: State, r: State) {
    && r.wl == s.wl && r.pc == s.pc && r.reader == s.reader && r.pl == s.pl && r.kv == s.kv && r.mem == s.mem
    && r.lru == s.lru && r.lruMax == s.lruMax && r.h == s.h
  }

  // ------------------------------------------------------------------------------- the writer

  lemma MarkedList(wl: seq<WriteInfo>, m: Memory)
    requires WriteListOk(wl, m) && wl != [] && forall e :: e in wl ==> !e.inFlight
    ensures WriteListOk(Mark(wl), m) && WriteKeys(Mark(wl)) == WriteKeys(wl)
  {
    MarkDiscipline(wl);
  }

  lemma MarkedBatch(wl: seq<WriteInfo>, kv: Kv)
    requires UniqueKeys(wl) && wl != [] && forall e :: e in wl ==> !e.inFlight
    ensures BatchOk(Mark(wl), kv, Batch(wl), [])
  {
    MarkDiscipline(wl);
    assert Batch(wl)[0] in Batch(wl);
  }

  lemma MarkKeeps(c: Config, s: State, m: Memory)
    requires Inv(c, s, m) && s.w.WriterTop? && WriterHasWork(s) && c.threadedWrite
    ensures Inv(c, StepWriterTop(s), m)
  {
    MarkedList(s.wl, m);
    MarkedBatch(s.wl, s.kv);
  }

  lemma WritePages(c: Config, l: Places, m: Memory, p: PageId, buf: Buffer)
    requires PagesOk(c, l, m) && p in l.writes
    ensures PagesOk(c, l.(kv := l.kv[p := buf]), m)
  {
    forall q
      ensures PageOk(c, l.(kv := l.kv[p := buf]), Peek(m, q), q)
    {
      PageFacts(c, l, m, q);
    }
  }

  lemma WriteOneInto(c: Config, s: State, m: Memory, kv: Kv, returned: seq<Option<Buffer>>)
    requires Inv(c, s, m) && s.w.Writing? && WriterOk(c, Writing(s.w.batch, returned), s.wl, kv)
    requires PagesOk(c, PlacesOf(s).(kv := kv), m)
    ensures Inv(c, s.(kv := kv, w := Writing(s.w.batch, returned)), m)
  {
  }

  lemma WritingKeeps(c: Config, s: State, m: Memory)
    requires Inv(c, s, m) && s.w.Writing?
    ensures Inv(c, StepWriting(s, s.w.batch, s.w.returned), m)
  {
    var n := |s.w.returned|;
    if n < |s.w.batch| {
      var e := s.w.batch[n];
      WritePages(c, PlacesOf(s), m, e.page, e.buf);
      WriteOneInto(c, s, m, s.kv[e.page := e.buf], s.w.returned + [Lookup(s.kv, e.page)]);
    }
  }

  /** A written page leaves the list: it is now at rest in the store. */
  lemma SettlePages(c: Config, l: Places, m: Memory, keys: set<PageId>)
    requires PagesOk(c, l, m) && keys <= l.writes
    requires forall q :: q in keys ==> StoreHas(l.kv, q, Peek(m, q))
    ensures PagesOk(c, l.(writes := l.writes - keys), m)
  {
    forall q
      ensures PageOk(c, l.(writes := l.writes - keys), Peek(m, q), q)
    {
      PageFacts(c, l, m, q);
    }
  }

  lemma SettledList(wl: seq<WriteInfo>, kv: Kv, m: Memory, batch: seq<WriteInfo>, returned: seq<Option<Buffer>>)
    requires WriteListOk(wl, m) && BatchOk(wl, kv, batch, returned) && |returned| == |batch|
    ensures var r := DelBatch(wl, batch);
      && WriteListOk(r, m) && (forall e :: e in r ==> !e.inFlight)
      && WriteKeys(r) == WriteKeys(wl) - WriteKeys(batch) && WriteKeys(batch) <= WriteKeys(wl)
    ensures forall q :: q in WriteKeys(batch) ==> StoreHas(kv, q, Peek(m, q))
  {
    DelBatchDiscipline(wl, batch);
  }

  lemma DeletingKeeps(c: Config, s: State, m: Memory)
    requires Inv(c, s, m) && s.w.Deleting?
    ensures Inv(c, s.(wl := DelBatch(s.wl, s.w.batch), w := Freeing(s.w.returned, s.sync.handlerWaiting)), m)
  {
    SettledList(s.wl, s.kv, m, s.w.batch, s.w.returned);
    SettlePages(c, PlacesOf(s), m, WriteKeys(s.w.batch));
  }

  predicate Resting(w: WriterPc) {
    !w.Writing? && !w.Deleting?
  }

  lemma RestingTurn(c: Config, s: State, m: Memory, r: State)
    requires Inv(c, s, m) && SameData(s, r) && r.f == s.f && c.threadedWrite && Resting(s.w) && Resting(r.w)
    ensures Inv(c, r, m)
  {
  }

  lemma WriterKeeps(c: Config, s: State, m: Memory, r: State)
    requires Inv(c, s, m) && c.threadedWrite && WriterReady(s) && r == StepWriter(s)
    ensures Inv(c, r, m)
  {
    if s.w.WriterTop? && WriterHasWork(s) {
      MarkKeeps(c, s, m);
    } else if s.w.Writing? {
      WritingKeeps(c, s, m);
    } else if s.w.Deleting? {
      DeletingKeeps(c, s, m);
    } else {
      RestingTurn(c, s, m, r);
    }
  }

  // --------------------------------------------------------------------------- the prefetcher

  lemma PickOk(c: Config, pl: seq<PageId>, m: Memory)
    requires NoDup(pl) && pl != [] && c.threadedPrefetch
    ensures PrefetcherOk(c, Reading(Pick(pl), []), pl, m)
  {
    PickDiscipline(pl, |pl|);
    assert Pick(pl)[0] in Pick(pl);
  }

  /** A listed page is at rest in the store until the prefetcher is done with it. */
  lemma ListedAtRest(c: Config, l: Places, m: Memory, q: PageId)
    requires PagesOk(c, l, m) && q in l.prefetches && l.unlisting == [] && c.pageCache
    ensures OwnedBy(l.pc, q, ExternRam, false) && q !in l.writes
    ensures StoreHas(l.kv, q, Peek(m, q))
  {
    PageFacts(c, l, m, q);
  }

  lemma ReadingOk(c: Config, s: State, m: Memory)
    requires PagesOk(c, PlacesOf(s), m) && PrefetcherOk(c, s.f, s.pl, m) && c.pageCache && s.f.Reading?
    ensures PrefetcherOk(c, StepPrefetcher(s).f, s.pl, m)
  {
    var n := |s.f.bufs|;
    if n < |s.f.keys| {
      ListedAtRest(c, PlacesOf(s), m, s.f.keys[n]);
    }
  }

  lemma PrefetchedPages(c: Config, l: Places, m: Memory, keys: seq<PageId>, bufs: seq<Option<Buffer>>)
    requires PagesOk(c, l, m) && CachedOk(c, l.pc, m) && c.pageCache && l.unlisting == []
    requires NoDup(keys) && ReadOk(m, keys, bufs) && |bufs| == |keys| && forall q :: q in keys ==> q in l.prefetches
    ensures var pc := StorePages(l.pc, Entries(keys, bufs));
      && CachedOk(c, pc, m) && StoreEffect(l.pc, Entries(keys, bufs), pc)
      && PagesOk(c, l.(pc := pc, unlisting := keys), m)
    ensures forall e :: e in Entries(keys, bufs) ==> e.page in keys
  {
    var es := Entries(keys, bufs);
    EntriesOk(keys, bufs, m);
    forall e | e in es
      ensures OwnedBy(l.pc, e.page, ExternRam, false) && e.page !in l.writes
    {
      ListedAtRest(c, l, m, e.page);
    }
    StoredCached(c, l.pc, m, es);
    StoredPages(c, l, m, es, StorePages(l.pc, es), keys);
  }

  lemma StoredHandler(c: Config, s: State, pc: PageCacheState, f: PrefetcherPc)
    requires HandlerInv(c, s) && c.threadedPrefetch
    ensures HandlerInv(c, s.(pc := pc, f := f))
  {
  }

  lemma StoringKeeps(c: Config, s: State, m: Memory, r: State)
    requires ValidConfig(c) && Inv(c, s, m) && c.threadedPrefetch && s.f.Storing?
    requires PrefetcherReady(s) && r == StepPrefetcher(s)
    ensures Inv(c, r, m)
  {
    var keys, bufs := s.f.keys, s.f.bufs;
    PrefetchedPages(c, PlacesOf(s), m, keys, bufs);
    StoredHandler(c, s, StorePages(s.pc, Entries(keys, bufs)), Unlisting(keys));
  }

  lemma UnlistHandler(c: Config, s: State, pl: seq<PageId>, f: PrefetcherPc)
    requires HandlerInv(c, s) && forall q :: q in pl ==> q in s.pl
    ensures HandlerInv(c, s.(pl := pl, f := f))
  {
  }

  lemma UnlistingKeeps(c: Config, s: State, m: Memory, r: State)
    requires Inv(c, s, m) && c.threadedPrefetch && s.f.Unlisting?
    requires PrefetcherReady(s) && r == StepPrefetcher(s)
    ensures Inv(c, r, m)
  {
    DelPrefetchedDiscipline(s.pl, s.f.keys);
    UnlistHandler(c, s, DelPrefetched(s.pl, s.f.keys), r.f);
  }

  /** The steps that only move the prefetcher. */
  lemma PrefetcherStays(c: Config, s: State, m: Memory)
    requires PagesOk(c, PlacesOf(s), m) && PrefetcherOk(c, s.f, s.pl, m) && c.pageCache && c.threadedPrefetch
    requires PrefetcherReady(s) && !s.f.Storing? && !s.f.Unlisting?
    ensures var r := StepPrefetcher(s);
      SameData(s, r) && r.w == s.w && PrefetcherOk(c, r.f, s.pl, m) && !r.f.Unlisting?
  {
    if s.f.Reading? {
      ReadingOk(c, s, m);
    } else if s.f.PrefetcherTop? && s.pl != [] {
      PickOk(c, s.pl, m);
    }
  }

  lemma PrefetcherKeeps(c: Config, s: State, m: Memory, r: State)
    requires ValidConfig(c) && Inv(c, s, m) && c.threadedPrefetch
    requires PrefetcherReady(s) && r == StepPrefetcher(s)
    ensures Inv(c, r, m)
  {
    if s.f.Storing? {
      StoringKeeps(c, s, m, r);
    } else if s.f.Unlisting? {
      UnlistingKeeps(c, s, m, r);
    } else {
      PrefetcherStays(c, s, m);
    }
  }
}
