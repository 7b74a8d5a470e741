/** Exactly when buffers are accounted for: the zero-page shortcut forgets the buffer of a skipped
    page, and the page cache shares and frees the buffers of the store. */
module BufferLeaks {
  import opened Pages
  import opened LruBuffer
  import opened ThreadedIo
  import opened PageCache
  import opened NoopStore
  import opened Monitor
  import opened MonitorInv
  import opened MonitorRuns
  import opened MonitorExact
  import opened PagedRuns
  import opened PrefetchRuns
  import opened Buffers

  // ---------------------------------------------------------------------------- forgotten buffers

  /** Inserting `B` evicts the zero page `A`, whose buffer nothing refers to afterwards. */
  lemma SkipRun(c: Config, s: State, m: Memory, k: After) returns (r: State)
    requires c.zeroOpt && c.pageCache && s.h == Work(Insert(B), k) && s.lruMax == 1 && s.lru == [A] && A in s.mem && s.mem[A] == ZeroPage()
    ensures Reaches(c, s, m, r, m)
    ensures r.w == s.w && r.wl == s.wl && r.kv == s.kv && r.maps == s.maps.(next := s.maps.next + 1)
    ensures r.h == Work(Flip(A, true), k)
  {
    var s1 := StepInsert(s, B, k);
    WithoutMembers([A], B);
    assert ToFront([A], B) == [B, A];
    One(c, s, m, Handler(Moved), s1);
    var s2 := StepRemap(s1, A, RETRIES, k, Moved);
    Next(c, s, m, s1, Handler(Moved), s2);
    r := StepEvicted(c, s2, A, s2.h.e.buf, k);
    Next(c, s, m, s2, Handler(Moved), r);
  }

  lemma Lost(r: State)
    requires r.w.WriterTop? && r.wl == [] && r.kv == map[] && r.maps == Mappings(1, {})
    requires HeldOf(r.h) == None && FilledOf(r.h) == None
    ensures !Conserved(LayoutOf(r), r.maps)
  {
    var at := LayoutOf(r);
    assert forall x :: at(x) == None;
    var id: nat := 0;
    assert id < r.maps.next && id !in r.maps.unmapped;
  }

  lemma LeakRun(c: Config) returns (r: State)
    requires Paged(c) && c.zeroOpt
    ensures Reachable(c, r) && !Conserved(LayoutOf(r), r.maps)
  {
    var s := FirstFault(c, A);
    var s1 := TopRun(c, s, map[], B);
    Then(c, Init(c), map[], s, map[], s1, map[]);
    var s2, k := s1, ToBottom(B);
    if !c.asynRead {
      s2 := ColdRead(c, s1, map[], B);
      k := ToTrim(None);
      Then(c, Init(c), map[], s1, map[], s2, map[]);
    }
    r := SkipRun(c, s2, map[], k);
    Then(c, Init(c), map[], s2, map[], r, map[]);
    Lost(r);
  }

  /** The monitor's own unmapping conserves buffers on every run exactly if zero pages are not skipped. */
  lemma MappingIff(c: Config)
    requires Safe(c)
    ensures (forall s :: Reachable(c, s) ==> Conserved(LayoutOf(s), s.maps)) <==> !c.zeroOpt
  {
    if c.zeroOpt {
      var r := LeakRun(c);
    } else {
      forall s | Reachable(c, s)
        ensures Conserved(LayoutOf(s), s.maps)
      {
        MappingConservation(c, s);
      }
    }
  }

  // -------------------------------------------------------------------------------- shared buffers

  /** A prefetched page's buffer is in the cache and in the store, or freed and in the store. */
  lemma SharedRun(c: Config) returns (s: State)
    requires ReadsAhead(c)
    ensures Reachable(c, s) && !Accounted(s)
  {
    var s0 := FirstBase(c);
    var m;
    s, m := Round(c, s0, map[], Pg(0), 1);
    Then(c, Init(c), map[], s0, map[], s, m);
    var at := LayoutOf(s);
    if c.pageCacheSize > 0 {
      var e := s.pc.cached[0];
      assert e in s.pc.cached && at(InStore(e.page)) == Some(e.buf.id);
    } else {
      var p :| p in s.kv && s.kv[p].id in s.pc.freed;
      assert at(InStore(p)) == Some(s.kv[p].id);
    }
  }

  /** Buffers are accounted for on every run exactly if zero pages are not skipped and nothing is
      prefetched. */
  lemma ConservationIff(c: Config)
    requires Safe(c)
    ensures (forall s :: Reachable(c, s) ==> Accounted(s)) <==> !c.zeroOpt && !Prefetching(c)
  {
    if c.zeroOpt {
      var r := LeakRun(c);
    } else if Prefetching(c) {
      var r := SharedRun(c);
    } else {
      forall s | Reachable(c, s)
        ensures Accounted(s)
      {
        BufferConservation(c, s);
      }
    }
  }

  /** A buffer of the store is freed on some run exactly if pages are prefetched, provided that
      there are pages enough to fill the cache. */
  lemma FreedIff(c: Config)
    requires ValidConfig(c) && 3 * c.pageCacheSize + 3 < 0x10_0000_0000_0000
    ensures (exists s :: Reachable(c, s) && FreedInStore(s)) <==> Prefetching(c)
  {
    if Prefetching(c) {
      var s := FreedRun(c);
    } else {
      forall s | Reachable(c, s)
        ensures !FreedInStore(s)
      {
        NothingFreed(c, s);
      }
    }
  }
}
