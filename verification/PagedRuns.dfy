/** Building runs of configurations with a page cache: the parts of a fault, whatever the options. */
module PagedRuns {
  import opened Pages
  import opened LruBuffer
  import opened ThreadedIo
  import opened PageCache
  import opened NoopStore
  import opened Monitor
  import opened MonitorInv
  import opened MonitorRuns
  import opened MonitorExact

  predicate Paged(c: Config) {
    ValidConfig(c) && c.pageCache
  }

  /** Between faults, with both other threads at their start and nobody waiting. */
  predicate Quiet(s: State) {
    && s.h.Idle? && s.w.WriterTop? && s.f.PrefetcherTop? && s.pl == []
    && !s.sync.handlerWaiting && !s.sync.writerWaiting && !s.sync.prefetcherWaiting
  }

  // ---------------------------------------------------------------------------- parts of a fault

  /** Up to the end of the top half, for a page that is pending nowhere. */
  lemma TopRun(c: Config, s: State, m: Memory, p: PageId) returns (r: State)
    requires Paged(c) && Quiet(s) && s.wl == [] && ValidPage(p)
    ensures Reaches(c, s, m, r, m)
    ensures r == s.(reader := ReaderAfter(c, s, p), pl := if c.threadedPrefetch then Selected(c, s, p) else [], h := AfterTop(c, p))
  {
    var s1 := Exec(c, s, Fault(p));
    One(c, s, m, Fault(p), s1);
    var s2 := s.(h := AfterWriteCheck(c, p, None));
    if c.threadedWrite {
      assert FindWriteInfo(s.wl, p).None?;
      Next(c, s, m, s1, Handler(Moved), s2);
    }
    var s3 := s.(h := Top(p));
    if c.threadedPrefetch {
      Next(c, s, m, s2, Handler(Moved), s3);
    }
    r := StepTop(c, s3, p);
    assert s.pl + Selected(c, s, p) == Selected(c, s, p);
    Next(c, s, m, s3, Handler(Moved), r);
  }

  /** The page cache once `q` is evicted. */
  function PcAfterOut(c: Config, s: State, q: PageId): (pc: PageCacheState) {
    UpdateAfterWrite(s.pc, q, Skipped(c, Taken(s.mem, q)))
  }

  /** An eviction, of a page or of a hole. */
  lemma OutRun(c: Config, s: State, m: Memory, q: PageId, k: After) returns (r: State)
    requires Paged(c) && s.h == Work(Remap(q, RETRIES), k) && !s.sync.writerWaiting
    ensures Reaches(c, s, m, r, m) && Dropped(c, s, q, r)
    ensures r == s.(mem := r.mem, wl := r.wl, kv := r.kv, maps := r.maps, pc := PcAfterOut(c, s, q), h := Work(Go, k))
  {
    var zero := Skipped(c, Taken(s.mem, q));
    var s1 := StepRemap(s, q, RETRIES, k, Moved);
    One(c, s, m, Handler(Moved), s1);
    var s2 := StepEvicted(c, s1, q, s1.h.e.buf, k);
    Next(c, s, m, s1, Handler(Moved), s2);
    assert s2.h == Work(Flip(q, zero), k);
    r := s2.(pc := PcAfterOut(c, s, q), h := Work(Go, k));
    Next(c, s, m, s2, Handler(Moved), r);
  }

  /** The LRU insertion of `p` into an empty buffer with room. */
  lemma FirstInsert(c: Config, s: State, m: Memory, p: PageId, k: After)
    requires s.h == Work(Insert(p), k) && s.lru == [] && s.lruMax == 1
    ensures Reaches(c, s, m, s.(lru := [p], h := Work(Go, k)), m)
  {
    assert ToFront([], p) == [p];
    One(c, s, m, Handler(Moved), s.(lru := [p], h := Work(Go, k)));
  }

  /** The LRU insertion of `p` in place of `q`. */
  lemma ReplaceRun(c: Config, s: State, m: Memory, p: PageId, q: PageId, k: After) returns (r: State)
    requires Paged(c) && s.h == Work(Insert(p), k) && s.lruMax == 1 && s.lru == [q] && p != q && !s.sync.writerWaiting
    ensures Reaches(c, s, m, r, m) && Dropped(c, s, q, r)
    ensures r == s.(lru := [p], mem := r.mem, wl := r.wl, kv := r.kv, maps := r.maps, pc := PcAfterOut(c, s, q), h := Work(Go, k))
  {
    WithoutMembers([q], p);
    assert ToFront([q], p) == [p, q] && [p, q][..1] == [p];
    var s1 := s.(lru := [p], h := Work(Remap(q, RETRIES), k));
    One(c, s, m, Handler(Moved), s1);
    r := OutRun(c, s1, m, q, k);
    Then(c, s, m, s1, m, r, m);
  }

  /** The LRU insertion of `p` without room: `p` itself is evicted. */
  lemma SelfRun(c: Config, s: State, m: Memory, p: PageId, k: After) returns (r: State)
    requires Paged(c) && s.h == Work(Insert(p), k) && !s.sync.writerWaiting && s.lru == [] && s.lruMax == 0
    ensures Reaches(c, s, m, r, m) && Dropped(c, s, p, r)
    ensures r == s.(mem := r.mem, wl := r.wl, kv := r.kv, maps := r.maps, pc := PcAfterOut(c, s, p), h := Work(Go, k))
  {
    assert ToFront(s.lru, p) == [p] && [p][..0] == [];
    var s1 := s.(h := Work(Remap(p, RETRIES), k));
    One(c, s, m, Handler(Moved), s1);
    r := OutRun(c, s1, m, p, k);
    Then(c, s, m, s1, m, r, m);
  }

  /** What a read of `p` places and leaves behind. */
  function ReadOf(c: Config, s: State, p: PageId): (r: (Placed, PageCacheState)) {
    ReadCached(c, s.kv, s.pc, p, s.reader.keys)
  }

  /** The read and the placement of `p`. */
  lemma InRun(c: Config, s: State, m: Memory, p: PageId) returns (r: State)
    requires Paged(c) && s.h == Work(Go, ToBottom(p)) && p !in s.mem
    ensures Reaches(c, s, m, r, m)
    ensures r == s.(mem := s.mem[p := PlacedContent(ReadOf(c, s, p).0)], pc := ReadOf(c, s, p).1,
                    h := Work(if c.asynRead then Go else Insert(p), ToTrim(None)))
  {
    var (data, pc) := ReadOf(c, s, p);
    var s1 := s.(pc := pc, h := Work(Go, ToPlace(p, data)));
    One(c, s, m, Handler(Moved), s1);
    r := s.(mem := s.mem[p := PlacedContent(data)], pc := pc, h := Work(if c.asynRead then Go else Insert(p), ToTrim(None)));
    Next(c, s, m, s1, Handler(Moved), r);
  }

  lemma ByteRun(c: Config, s: State, m: Memory, p: PageId, v: byte) returns (r: State)
    requires p in s.mem && s.mem[p] == Peek(m, p)
    ensures Reaches(c, s, m, r, m[p := Peek(m, p)[0 := v]]) && r == s.(mem := s.mem[p := Peek(m, p)[0 := v]])
  {
    r := DoStore(s, p, 0, v);
    One(c, s, m, Store(p, 0, v), r);
  }

  /** Making room for one page, at the start. */
  lemma RoomRun(c: Config) returns (s: State)
    requires ValidConfig(c)
    ensures Reaches(c, Init(c), map[], s, map[]) && s == Init(c).(lruMax := 1)
  {
    s := StepResize(Init(c), 1);
    One(c, Init(c), map[], Resize(1), s);
  }

  // ------------------------------------------------------------------------- faults on new pages

  /** A page never seen before is placed as zeros. */
  function Seen(pc: PageCacheState, p: PageId): (r: PageCacheState) {
    pc.(hash := pc.hash[p := PageInfo(Application, false)])
  }

  lemma ColdRead(c: Config, s: State, m: Memory, p: PageId) returns (r: State)
    requires Paged(c) && s.h == Work(Go, ToBottom(p)) && OwnerOf(s.pc, p).None? && p !in s.mem
    ensures Reaches(c, s, m, r, m)
    ensures r == s.(mem := s.mem[p := ZeroPage()], pc := Seen(s.pc, p), h := Work(if c.asynRead then Go else Insert(p), ToTrim(None)))
  {
    r := InRun(c, s, m, p);
  }

  /** The first fault of all, from the end of its top half. */
  lemma FirstTail(c: Config, s: State, m: Memory, p: PageId) returns (r: State)
    requires Paged(c) && s.h == AfterTop(c, p) && OwnerOf(s.pc, p).None? && p !in s.mem && s.lru == [] && s.lruMax == 1
    ensures Reaches(c, s, m, r, m)
    ensures r == s.(lru := [p], mem := s.mem[p := ZeroPage()], pc := Seen(s.pc, p), h := Idle)
  {
    var s2: State;
    if c.asynRead {
      FirstInsert(c, s, m, p, ToBottom(p));
      var s1 := s.(lru := [p], h := Work(Go, ToBottom(p)));
      s2 := ColdRead(c, s1, m, p);
      Then(c, s, m, s1, m, s2, m);
    } else {
      var s1 := ColdRead(c, s, m, p);
      FirstInsert(c, s1, m, p, ToTrim(None));
      s2 := s1.(lru := [p], h := Work(Go, ToTrim(None)));
      Then(c, s, m, s1, m, s2, m);
    }
    TrimRun(c, s2, m);
    r := s2.(h := Idle);
    Then(c, s, m, s2, m, r, m);
  }

  lemma FirstFault(c: Config, p: PageId) returns (r: State)
    requires Paged(c) && ValidPage(p)
    ensures Reaches(c, Init(c), map[], r, map[]) && Quiet(r) && r.wl == [] && r.lru == [p] && r.lruMax == 1
    ensures r.mem == map[p := ZeroPage()] && r.pc == Seen(Init(c).pc, p) && r.kv == map[] && r.maps == Mappings(0, {})
  {
    var s := RoomRun(c);
    var s1 := TopRun(c, s, map[], p);
    Then(c, Init(c), map[], s, map[], s1, map[]);
    r := FirstTail(c, s1, map[], p);
    Then(c, Init(c), map[], s1, map[], r, map[]);
  }

  /** The state after a later fault on a new page, which evicts `q`. */
  ghost predicate ColdEnd(c: Config, s: State, p: PageId, q: PageId, r: State) {
    && Dropped(c, s, q, r.(mem := s.mem - {q})) && r.pc == Seen(PcAfterOut(c, s, q), p)
    && r == s.(lru := [p], mem := (s.mem - {q})[p := ZeroPage()], wl := r.wl, kv := r.kv, maps := r.maps, pc := r.pc, h := Work(Go, ToTrim(None)))
  }

  lemma SeenLast(pc: PageCacheState, p: PageId, q: PageId, zero: bool)
    requires p != q
    ensures UpdateAfterWrite(Seen(pc, p), q, zero) == Seen(UpdateAfterWrite(pc, q, zero), p)
  {
    assert UpdateAfterWrite(Seen(pc, p), q, zero).hash == Seen(UpdateAfterWrite(pc, q, zero), p).hash;
  }

  /** The read comes first unless it is asynchronous. */
  lemma ColdLast(c: Config, s: State, m: Memory, p: PageId, q: PageId) returns (r: State)
    requires Paged(c) && !c.asynRead && s.h == AfterTop(c, p) && OwnerOf(s.pc, p).None? && p !in s.mem && p != q
    requires s.lru == [q] && s.lruMax == 1 && !s.sync.writerWaiting
    ensures Reaches(c, s, m, r, m) && ColdEnd(c, s, p, q, r)
  {
    var s1 := ColdRead(c, s, m, p);
    r := ReplaceRun(c, s1, m, p, q, ToTrim(None));
    Then(c, s, m, s1, m, r, m);
    assert r.mem == (s.mem - {q})[p := ZeroPage()];
    SeenLast(s.pc, p, q, Skipped(c, Taken(s.mem, q)));
  }

  lemma ColdTail(c: Config, s: State, m: Memory, p: PageId, q: PageId) returns (r: State)
    requires Paged(c) && s.h == AfterTop(c, p) && OwnerOf(s.pc, p).None? && p !in s.mem && p != q
    requires s.lru == [q] && s.lruMax == 1 && !s.sync.writerWaiting
    ensures Reaches(c, s, m, r, m) && ColdEnd(c, s, p, q, r.(h := Work(Go, ToTrim(None)))) && r.h.Idle?
  {
    var s2: State;
    if c.asynRead {
      var s1 := ReplaceRun(c, s, m, p, q, ToBottom(p));
      s2 := ColdRead(c, s1, m, p);
      Then(c, s, m, s1, m, s2, m);
    } else {
      s2 := ColdLast(c, s, m, p, q);
    }
    TrimRun(c, s2, m);
    r := s2.(h := Idle);
    Then(c, s, m, s2, m, r, m);
  }

  /** The whole of it, with the writer's round. */
  lemma ColdFault(c: Config, s: State, m: Memory, p: PageId, q: PageId) returns (r: State)
    requires Paged(c) && Quiet(s) && s.wl == [] && ValidPage(p) && OwnerOf(s.pc, p).None? && p !in s.mem && p != q
    requires s.lru == [q] && s.lruMax == 1
    ensures Reaches(c, s, m, r, m) && Quiet(r) && r.wl == [] && r.lru == [p] && r.lruMax == 1
    ensures r.mem == (s.mem - {q})[p := ZeroPage()] && r.pc == Seen(PcAfterOut(c, s, q), p)
    ensures r.kv == StoreWith(c, s, q) && r.reader.window == Advance(s.reader.window, p.addr)
  {
    var s1 := TopRun(c, s, m, p);
    var s2 := ColdTail(c, s1, m, p, q);
    Then(c, s, m, s1, m, s2, m);
    r := SettleRun(c, s1, m, s2, q);
    Then(c, s, m, s2, m, r, m);
  }

  /** The store once `q` is evicted and written. */
  function StoreWith(c: Config, s: State, q: PageId): (kv: Kv) {
    if Skipped(c, Taken(s.mem, q)) then s.kv else s.kv[q := Buffer(s.maps.next, Taken(s.mem, q))]
  }
}
