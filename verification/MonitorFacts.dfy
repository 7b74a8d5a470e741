/** What holds in every reachable state of a safe configuration. */
module MonitorFacts {
  import opened Pages
  import opened LruBuffer
  import opened ThreadedIo
  import opened PageCache
  import opened NoopStore
  import opened Monitor
  import opened MonitorInv
  import opened MonitorSteps
  import opened MonitorRuns
  import opened MonitorExact
  import opened PagedRuns

  /** A page is in one place at a time, and its ownership says which. */
  lemma LocationInvariant(c: Config, s: State, p: PageId)
    requires Safe(c) && c.pageCache && Reachable(c, s)
    ensures p in CachedKeys(s.pc.cached) <==> OwnerOf(s.pc, p).Some? && s.pc.hash[p].owner == Cache
    ensures p in s.mem ==> OwnedBy(s.pc, p, Application, false) && p !in WriteKeys(s.wl) && p !in s.pl
    ensures p in WriteKeys(s.wl) ==>
      && p !in s.mem && p !in s.pl && p !in CachedKeys(s.pc.cached)
      && (OwnedBy(s.pc, p, ExternRam, false) || (OwnedBy(s.pc, p, Application, false) && FlippingOf(s.h) == Some((p, false))))
    ensures p in s.pl ==>
      && p !in s.mem && p !in WriteKeys(s.wl)
      && (OwnedBy(s.pc, p, ExternRam, false) || (OwnedBy(s.pc, p, Cache, false) && s.f.Unlisting? && p in s.f.keys))
    ensures OwnedBy(s.pc, p, Application, false) ==>
      p in s.mem || Concerns(EvictedOf(s.h), p) || Concerns(HoldsOf(s.h), p) || Concerns(FlippingOf(s.h), p)
  {
    var m := ReachableInv(c, s);
    PageFacts(c, PlacesOf(s), m, p);
  }

  /** A page whose write is announced is the application's, and a page taken back from the write
      list is external and not zero: the errors logged otherwise never happen. A page that is read
      has a cached copy if it is the cache's, and is in the store if it is external and not zero. It
      is the application's, which is logged as an error too, exactly if it is resident. */
  lemma NoUnexpectedOwner(c: Config, s: State)
    requires Safe(c) && c.pageCache && Reachable(c, s)
    ensures s.h.Work? && s.h.e.Flip? ==> OwnedBy(s.pc, s.h.e.v, Application, false)
    ensures s.h.Wait? && s.h.stage == CheckWrite && s.h.p in WriteKeys(s.wl) ==> OwnedBy(s.pc, s.h.p, ExternRam, false)
    ensures s.h.Work? && s.h.e.Go? && s.h.k.ToBottom? ==>
      var p := s.h.k.p;
      && ((OwnerOf(s.pc, p).Some? && s.pc.hash[p].owner == Application) <==> p in s.mem)
      && match OwnerOf(s.pc, p)
         case None => true
         case Some(PageInfo(Application, isZero)) => !isZero
         case Some(PageInfo(Cache, _)) => FindCached(s.pc.cached, p).Some?
         case Some(PageInfo(ExternRam, isZero)) => if isZero then c.zeroOpt else p in s.kv
  {
    var m := ReachableInv(c, s);
    if s.h.Work? && s.h.e.Flip? {
      PageFacts(c, PlacesOf(s), m, s.h.e.v);
    } else if s.h.Wait? {
      PageFacts(c, PlacesOf(s), m, s.h.p);
    } else if s.h.Work? && s.h.k.ToBottom? {
      PageFacts(c, PlacesOf(s), m, s.h.k.p);
    }
  }

  /** That last error does happen, with every configuration that has a page cache: a second fault
      on a page that the first one has made resident. */
  lemma ResidentRead(c: Config) returns (s: State)
    requires Paged(c)
    ensures Reachable(c, s) && s.h == Work(Go, ToBottom(A)) && OwnedBy(s.pc, A, Application, false) && A in s.mem
  {
    var s0 := FirstFault(c, A);
    s := TopRun(c, s0, map[], A);
    Then(c, Init(c), map[], s0, map[], s, map[]);
    if c.asynRead {
      assert Without([A], A) == [] by {
        assert [A][1..] == [] && Without([], A) == [];
      }
      var s1 := s.(h := Work(Go, ToBottom(A)));
      Next(c, Init(c), map[], s, Handler(Moved), s1);
      s := s1;
    }
  }

  /** An inline multi-read is always prepared by the fault it belongs to: its first key is the
      faulting page, and every other one is in the store and current. */
  lemma KeysAreOwn(c: Config, s: State, i: nat)
    requires Safe(c) && Reachable(c, s) && s.h.Work? && s.h.e.Go? && s.h.k.ToBottom? && Inline(c, s.pc, s.h.k.p)
    requires i < |s.reader.keys|
    ensures s.reader.keys[0] == s.h.k.p.addr
    ensures var q := PageId(s.h.k.p.ufd, s.reader.keys[i]); q in s.kv && s.kv[q].data == CurrentCopy(c, s, q)
  {
    var m := ReachableInv(c, s);
    var p := s.h.k.p;
    var q := PageId(p.ufd, s.reader.keys[i]);
    if i > 0 {
      var rest := KeyPages(p.ufd, s.reader.keys[1..]);
      assert rest[i - 1] == q && q in rest;
    }
    PageFacts(c, PlacesOf(s), m, q);
  }

  /** Every prefetched page is still external when its copy is stored, so nothing cached is ever
      overwritten, and no prefetch read misses. */
  lemma PrefetchIsFresh(c: Config, s: State, i: nat)
    requires Safe(c) && Reachable(c, s) && s.f.Storing? && i < |s.f.keys|
    ensures |s.f.bufs| == |s.f.keys| && s.f.bufs[i].Some? && s.f.bufs[i].value.data == CurrentCopy(c, s, s.f.keys[i])
    ensures OwnedBy(s.pc, s.f.keys[i], ExternRam, false) && s.f.keys[i] !in CachedKeys(s.pc.cached)
    ensures s.f.keys[i] in s.pl && s.f.keys[i].ufd == s.f.keys[0].ufd
  {
    var m := ReachableInv(c, s);
    PageFacts(c, PlacesOf(s), m, s.f.keys[i]);
  }

  /** Although adding does not look for duplicates, the keys of the write list stay unique; the
      entries in flight are exactly the writer's batch, of one descriptor and bounded; and its
      deletes remove exactly the batch. */
  lemma WriteListDiscipline(c: Config, s: State)
    requires Safe(c) && Reachable(c, s)
    ensures UniqueKeys(s.wl)
    ensures s.w.Writing? || s.w.Deleting? ==>
      && 1 <= |s.w.batch| <= WRITE_BATCH_SIZE
      && (forall e :: e in s.w.batch <==> e in s.wl && e.inFlight)
      && (forall e :: e in s.w.batch ==> e.page.ufd == s.w.batch[0].page.ufd)
      && |DelBatch(s.wl, s.w.batch)| == |s.wl| - |s.w.batch|
    ensures s.w.Deleting? ==> forall e :: e in s.w.batch ==> Lookup(s.kv, e.page) == Some(e.buf)
    ensures !s.w.Writing? && !s.w.Deleting? ==> forall e :: e in s.wl ==> !e.inFlight
  {
    var m := ReachableInv(c, s);
    if s.w.Writing? || s.w.Deleting? {
      DelBatchDiscipline(s.wl, s.w.batch);
    }
  }

  /** Every page in the LRU buffer is resident, except the one being faulted; the page the kernel
      is asked to move out is resident and not the one being faulted, so a hole is never evicted. */
  lemma VictimSafety(c: Config, s: State)
    requires Safe(c) && Reachable(c, s)
    ensures forall q :: q in s.lru ==> q in s.mem || PastWaiting(s.h) == Some(q)
    ensures s.h.Work? && s.h.e.Remap? ==> s.h.e.v in s.mem && PastWaiting(s.h) != Some(s.h.e.v) && s.h.e.v !in s.lru
  {
    var m := ReachableInv(c, s);
  }

  /** The LRU buffer never holds a page twice, exceeds its capacity by at most one page, and not
      at all between faults and resizes. */
  lemma LruBound(c: Config, s: State)
    requires Safe(c) && Reachable(c, s)
    ensures NoDup(s.lru) && |s.lru| <= s.lruMax + 1
    ensures s.h.Idle? ==> |s.lru| <= s.lruMax
    ensures Shrinking(s.h).Some? ==> |s.lru| <= Shrinking(s.h).value <= s.lruMax
  {
    var m := ReachableInv(c, s);
  }
}
