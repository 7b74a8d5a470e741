/** Runs of configurations without a page cache that lose a page. */
module MonitorExact {
  import opened Pages
  import opened LruBuffer
  import opened ThreadedIo
  import opened PageCache
  import opened NoopStore
  import opened Monitor
  import opened MonitorInv
  import opened MonitorRuns

  // ---------------------------------------------------------------------------- building runs

  /** Some run leads from `s` to `r`, and its stores from `m` to `n`. */
  ghost predicate Reaches(c: Config, s: State, m: Memory, r: State, n: Memory) {
    exists acts :: Run(c, s, acts) && Final(c, s, acts) == r && ShadowAll(m, acts) == n
  }

  lemma {:induction false} Joined(c: Config, s: State, m: Memory, xs: seq<Action>, ys: seq<Action>)
    requires Run(c, s, xs) && Run(c, Final(c, s, xs), ys)
    ensures Run(c, s, xs + ys) && Final(c, s, xs + ys) == Final(c, Final(c, s, xs), ys)
    ensures ShadowAll(m, xs + ys) == ShadowAll(ShadowAll(m, xs), ys)
    decreases |xs|
  {
    if xs == [] {
      assert xs + ys == ys;
    } else {
      assert (xs + ys)[0] == xs[0] && (xs + ys)[1..] == xs[1..] + ys;
      Joined(c, Exec(c, s, xs[0]), Shadow(m, xs[0]), xs[1..], ys);
    }
  }

  lemma Then(c: Config, s: State, m: Memory, mid: State, k: Memory, r: State, n: Memory)
    requires Reaches(c, s, m, mid, k) && Reaches(c, mid, k, r, n)
    ensures Reaches(c, s, m, r, n)
  {
    var xs :| Run(c, s, xs) && Final(c, s, xs) == mid && ShadowAll(m, xs) == k;
    var ys :| Run(c, mid, ys) && Final(c, mid, ys) == r && ShadowAll(k, ys) == n;
    Joined(c, s, m, xs, ys);
    assert Run(c, s, xs + ys) && Final(c, s, xs + ys) == r && ShadowAll(m, xs + ys) == n;
  }

  lemma One(c: Config, s: State, m: Memory, a: Action, r: State)
    requires Enabled(c, s, a) && r == Exec(c, s, a)
    ensures Reaches(c, s, m, r, Shadow(m, a))
  {
    var acts := [a];
    assert acts[1..] == [];
    assert ShadowAll(m, acts) == ShadowAll(Shadow(m, a), acts[1..]);
    assert ShadowAll(Shadow(m, a), []) == Shadow(m, a);
    assert Run(c, r, []) && Final(c, r, []) == r;
    assert Final(c, s, acts) == Final(c, r, acts[1..]);
    assert Run(c, s, acts) && Final(c, s, acts) == r && ShadowAll(m, acts) == Shadow(m, a);
  }

  /** One more step of a run that moves no byte. */
  lemma Next(c: Config, s: State, m: Memory, mid: State, a: Action, r: State)
    requires Reaches(c, s, m, mid, m) && !a.Store? && Enabled(c, mid, a) && r == Exec(c, mid, a)
    ensures Reaches(c, s, m, r, m)
  {
    One(c, mid, m, a, r);
    Then(c, s, m, mid, m, r, m);
  }

  // ------------------------------------------------------------------ what a load may observe

  lemma LastStoredUnique(acts: seq<Action>, p: PageId, off: nat, base: byte, v: byte, w: byte)
    requires LastStored(acts, p, off, base, v) && LastStored(acts, p, off, base, w)
    ensures v == w
  {
  }

  lemma BadRun(c: Config, s: State, m: Memory, p: PageId)
    requires Reaches(c, Init(c), map[], s, m) && p in s.mem && s.mem[p][0] != Peek(m, p)[0]
    ensures !Coherent(c)
  {
    var acts :| Run(c, Init(c), acts) && Final(c, Init(c), acts) == s && ShadowAll(map[], acts) == m;
    ShadowIsLast(map[], acts, p, 0);
    if Coherent(c) {
      assert Enabled(c, Final(c, Init(c), acts), Load(p, 0));
      LastStoredUnique(acts, p, 0, 0, Peek(m, p)[0], s.mem[p][0]);
    }
  }

  // ----------------------------------------------------------- faults without a page cache

  predicate Plain(c: Config) {
    ValidConfig(c) && !c.pageCache
  }

  /** Between faults with nothing pending: the LRU buffer, the resident pages, the stored ones. */
  ghost predicate Calm(s: State, max: nat, lru: seq<PageId>, mem: map<PageId, Content>, store: map<PageId, Content>) {
    && s.h.Idle? && s.w.WriterTop? && s.f.PrefetcherTop? && s.wl == [] && s.pl == []
    && !s.sync.handlerWaiting && !s.sync.writerWaiting
    && s.lruMax == max && s.lru == lru && s.mem == mem
    && Stored(s.kv, store)
  }

  ghost predicate Stored(kv: Kv, store: map<PageId, Content>) {
    && (forall p :: p in kv <==> p in store)
    && (forall p :: p in store ==> kv[p].data == store[p])
  }

  /** The evicted content: a hole counts as a page of zeros. */
  function Taken(mem: map<PageId, Content>, q: PageId): (x: Content) {
    if q in mem then mem[q] else ZeroPage()
  }

  predicate Skipped(c: Config, x: Content) {
    c.zeroOpt && x == ZeroPage()
  }

  /** What an eviction makes of the write list and the store. */
  ghost predicate Dropped(c: Config, s: State, q: PageId, r: State) {
    var skip := Skipped(c, Taken(s.mem, q));
    var buf := Buffer(s.maps.next, Taken(s.mem, q));
    && r.mem == s.mem - {q}
    && r.wl == (if !skip && c.threadedWrite then s.wl + [WriteInfo(q, buf, false)] else s.wl)
    && r.kv == (if !skip && !c.threadedWrite then s.kv[q := buf] else s.kv)
  }

  lemma EvictRun(c: Config, s: State, m: Memory, q: PageId, k: After) returns (r: State)
    requires Plain(c) && s.h == Work(Remap(q, RETRIES), k) && !s.sync.writerWaiting
    ensures Reaches(c, s, m, r, m) && Dropped(c, s, q, r)
    ensures r == s.(mem := r.mem, wl := r.wl, kv := r.kv, maps := r.maps, h := Work(Go, k))
  {
    var s1 := StepRemap(s, q, RETRIES, k, Moved);
    One(c, s, m, Handler(Moved), s1);
    r := StepEvicted(c, s1, q, s1.h.e.buf, k);
    Next(c, s, m, s1, Handler(Moved), r);
  }

  /** The LRU insertion of `p`, with the eviction it causes. */
  lemma InsertRun(c: Config, s: State, m: Memory, p: PageId, k: After) returns (r: State)
    requires Plain(c) && s.h == Work(Insert(p), k) && s.lruMax == 1 && !s.sync.writerWaiting
    requires s.lru == [] || (|s.lru| == 1 && s.lru[0] != p && s.lru[0] in s.mem)
    ensures Reaches(c, s, m, r, m)
    ensures if s.lru == [] then r.mem == s.mem && r.wl == s.wl && r.kv == s.kv else Dropped(c, s, s.lru[0], r)
    ensures r == s.(lru := [p], mem := r.mem, wl := r.wl, kv := r.kv, maps := r.maps, h := Work(Go, k))
  {
    var s1 := StepInsert(s, p, k);
    One(c, s, m, Handler(Moved), s1);
    if s.lru == [] {
      assert ToFront(s.lru, p) == [p];
      r := s1;
    } else {
      var q := s.lru[0];
      WithoutMembers(s.lru, p);
      assert ToFront(s.lru, p) == [p, q];
      assert [p, q][..1] == [p];
      r := EvictRun(c, s1, m, q, k);
      Then(c, s, m, s1, m, r, m);
    }
  }

  lemma ToTopRun(c: Config, s: State, m: Memory, p: PageId)
    requires Plain(c) && s.h.Idle? && s.wl == [] && !s.sync.handlerWaiting && ValidPage(p)
    ensures Reaches(c, s, m, s.(h := AfterTop(c, p)), m)
  {
    var s1 := Exec(c, s, Fault(p));
    One(c, s, m, Fault(p), s1);
    var top := s.(h := Top(p));
    if c.threadedWrite {
      assert FindWriteInfo(s.wl, p).None?;
      Next(c, s, m, s1, Handler(Moved), top);
    }
    Next(c, s, m, top, Handler(Moved), s.(h := AfterTop(c, p)));
  }

  /** The read and the placement of `p`. */
  lemma ReadRun(c: Config, s: State, m: Memory, p: PageId)
    requires Plain(c) && s.h == Work(Go, ToBottom(p)) && p !in s.mem
    ensures Reaches(c, s, m, s.(mem := s.mem[p := PlacedContent(ReadStore(s.kv, p))],
                                h := Work(if c.asynRead then Go else Insert(p), ToTrim(None))), m)
  {
    var s1 := s.(h := Work(Go, ToPlace(p, ReadStore(s.kv, p))));
    One(c, s, m, Handler(Moved), s1);
    Next(c, s, m, s1, Handler(Moved), s.(mem := s.mem[p := PlacedContent(ReadStore(s.kv, p))],
                                         h := Work(if c.asynRead then Go else Insert(p), ToTrim(None))));
  }

  lemma TrimRun(c: Config, s: State, m: Memory)
    requires s.h == Work(Go, ToTrim(None)) && |s.lru| <= s.lruMax
    ensures Reaches(c, s, m, s.(h := Idle), m)
  {
    assert s.maps.unmapped + {} == s.maps.unmapped;
    One(c, s, m, Handler(Moved), s.(h := Idle));
  }

  lemma BatchOfOne(e: WriteInfo)
    requires !e.inFlight
    ensures Batch([e]) == [e.(inFlight := true)] && Mark([e]) == [e.(inFlight := true)]
    ensures DelBatch(Mark([e]), Batch([e])) == []
  {
    var x := e.(inFlight := true);
    assert BatchTo([e], 0) == [] && MarkTo([e], 0) == [];
    assert DelWriteInfo([x], x.page) == [];
    assert [x][1..] == [];
    assert DelBatch([x], [x]) == DelBatch(DelWriteInfo([x], x.page), [x][1..]);
  }

  /** The writer writes the one listed page. */
  lemma FlushRun(c: Config, s: State, m: Memory, e: WriteInfo) returns (r: State)
    requires c.threadedWrite && s.w.WriterTop? && s.wl == [e] && !e.inFlight && !s.sync.handlerWaiting
    ensures Reaches(c, s, m, r, m)
    ensures r == s.(wl := [], kv := s.kv[e.page := e.buf], sync := r.sync, maps := r.maps)
    ensures !r.sync.handlerWaiting && !r.sync.writerWaiting && r.sync.prefetcherWaiting == s.sync.prefetcherWaiting
  {
    BatchOfOne(e);
    var s1 := Exec(c, s, SetFlush);
    One(c, s, m, SetFlush, s1);
    var s2 := StepWriterTop(s1);
    Next(c, s, m, s1, Writer, s2);
    var s3 := StepWriting(s2, s2.w.batch, []);
    Next(c, s, m, s2, Writer, s3);
    var s4 := StepWriting(s3, s3.w.batch, s3.w.returned);
    Next(c, s, m, s3, Writer, s4);
    var s5 := StepWriter(s4);
    Next(c, s, m, s4, Writer, s5);
    r := StepWriter(s5);
    Next(c, s, m, s5, Writer, r);
  }

  /** Read first, then make room. */
  lemma ReadFirst(c: Config, s: State, m: Memory, p: PageId) returns (r: State)
    requires Plain(c) && !c.asynRead && s.h == AfterTop(c, p) && p !in s.mem && s.lruMax == 1 && !s.sync.writerWaiting
    requires s.lru == [] || (|s.lru| == 1 && s.lru[0] != p && s.lru[0] in s.mem)
    ensures Reaches(c, s, m, r, m) && AfterMiss(c, s, p, r)
  {
    ReadRun(c, s, m, p);
    var s1 := s.(mem := s.mem[p := PlacedContent(ReadStore(s.kv, p))], h := Work(Insert(p), ToTrim(None)));
    r := InsertRun(c, s1, m, p, ToTrim(None));
    Then(c, s, m, s1, m, r, m);
  }

  /** Make room first, then read. */
  lemma RoomFirst(c: Config, s: State, m: Memory, p: PageId) returns (r: State)
    requires Plain(c) && c.asynRead && s.h == AfterTop(c, p) && p !in s.mem && s.lruMax == 1 && !s.sync.writerWaiting
    requires s.lru == [] || (|s.lru| == 1 && s.lru[0] != p && s.lru[0] in s.mem)
    ensures Reaches(c, s, m, r, m) && AfterMiss(c, s, p, r)
  {
    var s1 := InsertRun(c, s, m, p, ToBottom(p));
    ReadRun(c, s1, m, p);
    r := s1.(mem := s1.mem[p := PlacedContent(ReadStore(s1.kv, p))], h := Work(Go, ToTrim(None)));
    Then(c, s, m, s1, m, r, m);
  }

  /** The page is read, and the one it displaces is dropped. */
  ghost predicate AfterMiss(c: Config, s: State, p: PageId, r: State) {
    var base := s.(mem := s.mem[p := PlacedContent(ReadStore(s.kv, p))]);
    && (if s.lru == [] then r.mem == base.mem && r.wl == s.wl && r.kv == s.kv else Dropped(c, base, s.lru[0], r))
    && r == s.(lru := [p], mem := r.mem, wl := r.wl, kv := r.kv, maps := r.maps, h := Work(Go, ToTrim(None)))
  }

  /** From the read position to the end of the fault: the eviction comes first or last. */
  lemma MissRun(c: Config, s: State, m: Memory, p: PageId) returns (r: State)
    requires Plain(c) && s.h == AfterTop(c, p) && p !in s.mem && s.lruMax == 1 && !s.sync.writerWaiting
    requires s.lru == [] || (|s.lru| == 1 && s.lru[0] != p && s.lru[0] in s.mem)
    ensures Reaches(c, s, m, r, m) && AfterMiss(c, s, p, r.(h := Work(Go, ToTrim(None)))) && r.h == Idle
  {
    var s2: State;
    if c.asynRead {
      s2 := RoomFirst(c, s, m, p);
    } else {
      s2 := ReadFirst(c, s, m, p);
    }
    TrimRun(c, s2, m);
    r := s2.(h := Idle);
    Then(c, s, m, s2, m, r, m);
  }

  /** The writer's round, if something was listed. */
  lemma SettleRun(c: Config, s: State, m: Memory, r0: State, q: PageId) returns (r: State)
    requires r0.w.WriterTop? && s.wl == [] && !r0.sync.handlerWaiting && !r0.sync.writerWaiting
    requires Dropped(c, s, q, r0.(mem := s.mem - {q}))
    ensures Reaches(c, r0, m, r, m)
    ensures r == r0.(wl := [], kv := r.kv, sync := r.sync, maps := r.maps) && !r.sync.handlerWaiting && !r.sync.writerWaiting
    ensures r.sync.prefetcherWaiting == r0.sync.prefetcherWaiting
    ensures r.kv == if Skipped(c, Taken(s.mem, q)) then s.kv else s.kv[q := Buffer(s.maps.next, Taken(s.mem, q))]
  {
    if r0.wl != [] {
      r := FlushRun(c, r0, m, r0.wl[0]);
    } else {
      r := r0;
      assert Run(c, r0, []) && Final(c, r0, []) == r0 && ShadowAll(m, []) == m;
    }
  }

  function StoreAfter(c: Config, store: map<PageId, Content>, q: PageId, x: Content): (r: map<PageId, Content>) {
    if Skipped(c, x) then store else store[q := x]
  }

  function Fetched(store: map<PageId, Content>, p: PageId): (x: Content) {
    if p in store then store[p] else ZeroPage()
  }

  /** A first fault: nothing to evict. */
  lemma FirstFaultRun(c: Config, s: State, m: Memory, p: PageId) returns (r: State)
    requires Plain(c) && Calm(s, 1, [], map[], map[]) && ValidPage(p)
    ensures Reaches(c, s, m, r, m) && Calm(r, 1, [p], map[p := ZeroPage()], map[])
  {
    ToTopRun(c, s, m, p);
    var s1 := s.(h := AfterTop(c, p));
    r := MissRun(c, s1, m, p);
    Then(c, s, m, s1, m, r, m);
  }

  /** The writer's round after a fault on `p` that evicted `q`. */
  lemma FaultEnd(c: Config, s: State, m: Memory, p: PageId, q: PageId, x: Content, store: map<PageId, Content>, r0: State) returns (r: State)
    requires Plain(c) && Calm(s, 1, [q], map[q := x], store) && p != q
    requires AfterMiss(c, s, p, r0.(h := Work(Go, ToTrim(None)))) && r0.h == Idle
    ensures Reaches(c, r0, m, r, m)
    ensures Calm(r, 1, [p], map[p := Fetched(store, p)], StoreAfter(c, store, q, x))
  {
    var base := s.(mem := s.mem[p := PlacedContent(ReadStore(s.kv, p))]);
    r := SettleRun(c, base, m, r0, q);
    assert PlacedContent(ReadStore(s.kv, p)) == Fetched(store, p);
    assert r.mem == map[p := Fetched(store, p)];
  }

  /** A fault on `p` that evicts `q`, and the writer's round after it. */
  lemma FaultRun(c: Config, s: State, m: Memory, p: PageId, q: PageId, x: Content, store: map<PageId, Content>) returns (r: State)
    requires Plain(c) && Calm(s, 1, [q], map[q := x], store) && ValidPage(p) && p != q
    ensures Reaches(c, s, m, r, m)
    ensures Calm(r, 1, [p], map[p := Fetched(store, p)], StoreAfter(c, store, q, x))
  {
    ToTopRun(c, s, m, p);
    var s1 := s.(h := AfterTop(c, p));
    var s2 := MissRun(c, s1, m, p);
    Then(c, s, m, s1, m, s2, m);
    r := FaultEnd(c, s, m, p, q, x, store, s2);
    Then(c, s, m, s2, m, r, m);
  }

  lemma StoreRun(c: Config, s: State, m: Memory, p: PageId, v: byte, x: Content, store: map<PageId, Content>)
    requires Calm(s, 1, [p], map[p := x], store)
    ensures Reaches(c, s, m, DoStore(s, p, 0, v), m[p := Peek(m, p)[0 := v]])
    ensures Calm(DoStore(s, p, 0, v), 1, [p], map[p := x[0 := v]], store)
  {
    One(c, s, m, Store(p, 0, v), DoStore(s, p, 0, v));
    assert DoStore(s, p, 0, v).mem == map[p := x[0 := v]];
  }

  const A := PageId(1, 0)
  const B := PageId(1, 4096)

  function OnePage(): (x: Content)
    ensures x[0] == 1 && x[0 := 0] == ZeroPage()
  {
    var x := ZeroPage()[0 := 1];
    assert x[0 := 0] == ZeroPage();
    x
  }

  /** One page resident, with its first byte set. */
  lemma TouchRun(c: Config) returns (s: State)
    requires Plain(c)
    ensures Reaches(c, Init(c), map[], s, map[A := OnePage()]) && Calm(s, 1, [A], map[A := OnePage()], map[])
  {
    var s0 := StepResize(Init(c), 1);
    One(c, Init(c), map[], Resize(1), s0);
    var s1 := FirstFaultRun(c, s0, map[], A);
    Then(c, Init(c), map[], s0, map[], s1, map[]);
    StoreRun(c, s1, map[], A, 1, ZeroPage(), map[]);
    s := DoStore(s1, A, 0, 1);
    Then(c, Init(c), map[], s1, map[], s, map[A := OnePage()]);
  }

  // --------------------------------------------------------------- zero pages skipped, unremembered

  /** `A` is evicted by a fault on `B` and faulted in again. */
  lemma OutAndIn(c: Config, s: State, m: Memory, x: Content, store: map<PageId, Content>) returns (r: State)
    requires Plain(c) && c.zeroOpt && Calm(s, 1, [A], map[A := x], store) && B !in store
    ensures Reaches(c, s, m, r, m)
    ensures var after := StoreAfter(c, store, A, x); Calm(r, 1, [A], map[A := Fetched(after, A)], after)
  {
    var s1 := FaultRun(c, s, m, B, A, x, store);
    r := FaultRun(c, s1, m, A, B, ZeroPage(), StoreAfter(c, store, A, x));
    Then(c, s, m, s1, m, r, m);
  }

  /** Store 1, evict, fault, store 0, evict, fault: the second eviction is skipped as a zero page
      and the last fault reads the copy of the first. */
  lemma ForgetfulLosesPage(c: Config)
    requires Plain(c) && c.zeroOpt
    ensures !Coherent(c)
  {
    var one, zero := OnePage(), ZeroPage();
    var m1, m4 := map[A := one], map[A := zero];
    var s2 := TouchRun(c);
    var s3 := OutAndIn(c, s2, m1, one, map[]);
    Then(c, Init(c), map[], s2, m1, s3, m1);
    StoreRun(c, s3, m1, A, 0, one, map[A := one]);
    var s4 := DoStore(s3, A, 0, 0);
    Then(c, Init(c), map[], s3, m1, s4, m4);
    var s5 := OutAndIn(c, s4, m4, zero, map[A := one]);
    Then(c, Init(c), map[], s4, m4, s5, m4);
    BadRun(c, s5, m4, A);
  }

  // ------------------------------------------------------------- asynchronous reads, capacity zero

  /** A resize to zero takes the one page out of the buffer, for eviction ... */
  lemma ShrinkStart(c: Config, s: State, m: Memory)
    requires c.floor == 0 && s.h.Idle? && s.lru == [A]
    ensures Reaches(c, s, m, s.(lru := [], h := Work(Remap(A, RETRIES), ToMulti([], Some(0)))), m)
  {
    assert Victims([A], 1) == [A] && [A][..0] == [] && [A][1..] == [];
    var s1 := s.(lru := [], h := Work(Go, ToMulti([A], Some(0))));
    One(c, s, m, Resize(0), s1);
    Next(c, s, m, s1, Handler(Moved), s.(lru := [], h := Work(Remap(A, RETRIES), ToMulti([], Some(0)))));
  }

  /** ... and sets the new capacity when it is done. */
  lemma ShrinkEnd(c: Config, s: State, m: Memory)
    requires s.h == Work(Go, ToMulti([], Some(0)))
    ensures Reaches(c, s, m, s.(lruMax := 0, h := Idle), m)
  {
    One(c, s, m, Handler(Moved), s.(lruMax := 0, h := Idle));
  }

  /** A resize to zero evicts the one resident page. */
  lemma EmptyRun(c: Config, s: State, m: Memory, x: Content) returns (r: State)
    requires Plain(c) && c.floor == 0 && !c.zeroOpt && Calm(s, 1, [A], map[A := x], map[])
    ensures Reaches(c, s, m, r, m) && Calm(r, 0, [], map[], map[A := x])
  {
    ShrinkStart(c, s, m);
    var s2 := s.(lru := [], h := Work(Remap(A, RETRIES), ToMulti([], Some(0))));
    var s3 := EvictRun(c, s2, m, A, ToMulti([], Some(0)));
    Then(c, s, m, s2, m, s3, m);
    ShrinkEnd(c, s3, m);
    var s4 := s3.(lruMax := 0, h := Idle);
    Then(c, s, m, s3, m, s4, m);
    r := SettleRun(c, s2, m, s4, A);
    Then(c, s, m, s4, m, r, m);
  }

  /** A fault with no room evicts the faulting page itself, resident or not, before reading it. */
  lemma SelfEvictRun(c: Config, s: State, m: Memory) returns (s2: State, r: State)
    requires Plain(c) && c.asynRead && s.h.Idle? && s.wl == [] && !s.sync.handlerWaiting && !s.sync.writerWaiting
    requires s.lru == [] && s.lruMax == 0
    ensures Reaches(c, s, m, r, m) && Dropped(c, s2, A, r)
    ensures s2 == s.(h := s2.h) && r == s.(mem := r.mem, wl := r.wl, kv := r.kv, maps := r.maps, h := Work(Go, ToBottom(A)))
  {
    ToTopRun(c, s, m, A);
    var s1 := s.(h := AfterTop(c, A));
    s2 := StepInsert(s1, A, ToBottom(A));
    assert ToFront([], A) == [A] && [A][..0] == [];
    Next(c, s, m, s1, Handler(Moved), s2);
    r := EvictRun(c, s2, m, A, ToBottom(A));
    Then(c, s, m, s2, m, r, m);
  }

  lemma HoleRun(c: Config, s: State, m: Memory, mem: map<PageId, Content>, x: Content) returns (r: State)
    requires Plain(c) && c.asynRead && !c.zeroOpt && Calm(s, 0, [], mem, map[A := x]) && mem.Keys <= {A}
    ensures Reaches(c, s, m, r, m)
    ensures Calm(r, 0, [], map[A := if c.threadedWrite then x else Taken(mem, A)], map[A := Taken(mem, A)])
  {
    var s2, s3 := SelfEvictRun(c, s, m);
    ReadRun(c, s3, m, A);
    var s4 := s3.(mem := s3.mem[A := PlacedContent(ReadStore(s3.kv, A))], h := Work(Go, ToTrim(None)));
    Then(c, s, m, s3, m, s4, m);
    TrimRun(c, s4, m);
    var s5 := s4.(h := Idle);
    Then(c, s, m, s4, m, s5, m);
    r := SettleRun(c, s2, m, s5, A);
    Then(c, s, m, s5, m, r, m);
    assert r.mem == map[A := if c.threadedWrite then x else Taken(mem, A)];
  }

  /** An asynchronous reader with capacity zero evicts the hole it is about to fill, and the
      zeros overwrite the page's only copy. */
  lemma NoRoomLosesPage(c: Config)
    requires Plain(c) && c.asynRead && c.floor == 0 && !c.zeroOpt
    ensures !Coherent(c)
  {
    var one, zero := OnePage(), ZeroPage();
    var m := map[A := one];
    var s1 := TouchRun(c);
    var s2 := EmptyRun(c, s1, m, one);
    Then(c, Init(c), map[], s1, m, s2, m);
    var s3 := HoleRun(c, s2, m, map[], one);
    Then(c, Init(c), map[], s2, m, s3, m);
    if c.threadedWrite {
      var s4 := HoleRun(c, s3, m, map[A := one], zero);
      Then(c, Init(c), map[], s3, m, s4, m);
      BadRun(c, s4, m, A);
    } else {
      BadRun(c, s3, m, A);
    }
  }
}
