/** Without room for a page, an asynchronous read evicts the very page it is about to read. Unless
    zero pages are skipped, writes are synchronous and reads do not use keys left by earlier
    faults, there are runs that lose a page by it. */
module Coherence {
  import opened Pages
  import opened LruBuffer
  import opened ThreadedIo
  import opened PageCache
  import opened NoopStore
  import opened Monitor
  import opened MonitorInv
  import opened MonitorRuns
  import opened MonitorExact
  import opened MonitorRoom
  import opened PagedRuns

  predicate Cramped(c: Config) {
    Paged(c) && c.asynRead && c.floor == 0
  }

  /** Between faults, with an empty buffer of no capacity. */
  predicate NoRoom(s: State) {
    Quiet(s) && s.lru == [] && s.lruMax == 0
  }

  /** A fault without room, up to the read. */
  lemma CrampedMiss(c: Config, s: State, m: Memory, p: PageId) returns (r: State)
    requires Cramped(c) && NoRoom(s) && s.wl == [] && ValidPage(p) && Selected(c, s, p) == []
    ensures Reaches(c, s, m, r, m) && Dropped(c, s, p, r)
    ensures r == s.(reader := ReaderAfter(c, s, p), mem := r.mem, wl := r.wl, kv := r.kv, maps := r.maps,
                    pc := PcAfterOut(c, s, p), h := Work(Go, ToBottom(p)))
  {
    var s1 := TopRun(c, s, m, p);
    r := SelfRun(c, s1, m, p, ToBottom(p));
    Then(c, s, m, s1, m, r, m);
  }

  /** From the read to the end of the fault. */
  lemma CrampedRead(c: Config, s: State, m: Memory, p: PageId) returns (r: State)
    requires Cramped(c) && s.h == Work(Go, ToBottom(p)) && |s.lru| <= s.lruMax && p !in s.mem
    ensures Reaches(c, s, m, r, m)
    ensures r == s.(mem := s.mem[p := PlacedContent(ReadOf(c, s, p).0)], pc := ReadOf(c, s, p).1, h := Idle)
  {
    var s1 := InRun(c, s, m, p);
    TrimRun(c, s1, m);
    r := s1.(h := Idle);
    Then(c, s, m, s1, m, r, m);
  }

  // ------------------------------------------------------------------- written asynchronously

  /** The buffer is emptied. */
  lemma EmptyStart(c: Config) returns (s: State)
    requires Cramped(c)
    ensures Reaches(c, Init(c), map[], s, map[]) && s == Init(c).(lruMax := 0)
  {
    assert Victims([], 0) == [];
    var s1 := StepResize(Init(c), 0);
    One(c, Init(c), map[], Resize(0), s1);
    s := StepMulti(s1, [], Some(0));
    Next(c, Init(c), map[], s1, Handler(Moved), s);
  }

  /** A first fault on `A` without room, and a store. */
  lemma TouchCramped(c: Config) returns (s: State)
    requires Cramped(c) && c.threadedWrite
    ensures Reaches(c, Init(c), map[], s, map[A := OnePage()]) && NoRoom(s) && s.kv == map[] && s.reader.keys == c.leftover
    ensures s.mem == map[A := OnePage()] && s.pc.hash == map[A := PageInfo(Application, false)]
    ensures s.wl == if c.zeroOpt then [] else [WriteInfo(A, Buffer(0, ZeroPage()), false)]
  {
    var s1 := EmptyStart(c);
    var s2 := CrampedMiss(c, s1, map[], A);
    Then(c, Init(c), map[], s1, map[], s2, map[]);
    var s3 := CrampedRead(c, s2, map[], A);
    Then(c, Init(c), map[], s2, map[], s3, map[]);
    s := ByteRun(c, s3, map[], A, 1);
    Then(c, Init(c), map[], s3, map[], s, map[A := OnePage()]);
  }

  /** Nothing has been written yet: whatever is read from the store, it is not there. */
  lemma NothingStored(c: Config, s: State, p: PageId)
    requires s.kv == map[] && OwnedBy(s.pc, p, ExternRam, false)
    ensures ReadOf(c, s, p).0 == ZeroFill
  {
  }

  /** Zero pages skipped: a second fault lists the resident page and reads the store, where it
      has never been. */
  lemma SkippingLosesPage(c: Config)
    requires Cramped(c) && c.threadedWrite && c.zeroOpt
    ensures !Coherent(c)
  {
    var m := map[A := OnePage()];
    var s := TouchCramped(c);
    assert OnePage()[0] != ZeroPage()[0];
    var s1 := CrampedMiss(c, s, m, A);
    Then(c, Init(c), map[], s, m, s1, m);
    NothingStored(c, s1, A);
    var r := CrampedRead(c, s1, m, A);
    Then(c, Init(c), map[], s1, m, r, m);
    BadRun(c, r, m, A);
  }

  /** Zero pages listed: a second fault takes the zeros listed by the first one from the write
      list, evicts the resident page and places the zeros. */
  lemma StealingLosesPage(c: Config)
    requires Cramped(c) && c.threadedWrite && !c.zeroOpt
    ensures !Coherent(c)
  {
    var m, zeros := map[A := OnePage()], Buffer(0, ZeroPage());
    var s := TouchCramped(c);
    var s1 := StealRun(c, s, m, zeros);
    var s2 := SelfRun(c, s1, m, A, ToPlace(A, Data(zeros, true)));
    Then(c, s, m, s1, m, s2, m);
    var r := s2.(mem := s2.mem[A := ZeroPage()], h := Work(Go, ToTrim(Some(zeros))));
    Next(c, s, m, s2, Handler(Moved), r);
    Then(c, Init(c), map[], s, m, r, m);
    BadRun(c, r, m, A);
  }

  lemma StealRun(c: Config, s: State, m: Memory, zeros: Buffer) returns (r: State)
    requires Cramped(c) && c.threadedWrite && Quiet(s) && s.wl == [WriteInfo(A, zeros, false)]
    requires s.pc.hash == map[A := PageInfo(Application, false)]
    ensures Reaches(c, s, m, r, m) && r == s.(wl := [], h := Work(Insert(A), ToPlace(A, Data(zeros, true))))
  {
    var s1 := Exec(c, s, Fault(A));
    One(c, s, m, Fault(A), s1);
    assert DelWriteInfo(s.wl, A) == [];
    var s2 := s.(wl := [], h := AfterWriteCheck(c, A, Some(zeros)));
    Next(c, s, m, s1, Handler(Moved), s2);
    r := s.(wl := [], h := AfterWaiting(c, A, Some(zeros)));
    if c.threadedPrefetch {
      Next(c, s, m, s2, Handler(Moved), r);
    }
  }

  // -------------------------------------------------------------------- written synchronously

  /** A first fault on `A` with room for it, and a store. */
  lemma TouchWithRoom(c: Config) returns (s: State)
    requires Cramped(c)
    ensures Reaches(c, Init(c), map[], s, map[A := OnePage()]) && Quiet(s) && s.lru == [A] && s.lruMax == 1 && s.wl == []
    ensures s.mem == map[A := OnePage()] && s.pc.hash == map[A := PageInfo(Application, false)]
  {
    var s1 := RoomRun(c);
    var s2 := TopRun(c, s1, map[], A);
    Then(c, Init(c), map[], s1, map[], s2, map[]);
    FirstInsert(c, s2, map[], A, ToBottom(A));
    var s3 := s2.(lru := [A], h := Work(Go, ToBottom(A)));
    Then(c, Init(c), map[], s2, map[], s3, map[]);
    var s4 := CrampedRead(c, s3, map[], A);
    Then(c, Init(c), map[], s3, map[], s4, map[]);
    s := ByteRun(c, s4, map[], A, 1);
    Then(c, Init(c), map[], s4, map[], s, map[A := OnePage()]);
  }

  /** The buffer is emptied, which writes `A` to the store. */
  lemma ShrinkRun(c: Config, s: State, m: Memory) returns (r: State)
    requires Cramped(c) && !c.threadedWrite && Quiet(s) && s.lru == [A] && s.wl == [] && s.lruMax == 1
    requires s.mem == map[A := OnePage()] && s.pc.hash == map[A := PageInfo(Application, false)]
    ensures Reaches(c, s, m, r, m) && NoRoom(r) && r.wl == [] && r.mem == map[]
    ensures r.pc.hash == map[A := PageInfo(ExternRam, false)] && StoreHas(r.kv, A, OnePage())
  {
    assert OnePage()[0] != ZeroPage()[0];
    ShrinkStart(c, s, m);
    var s2 := s.(lru := [], h := Work(Remap(A, RETRIES), ToMulti([], Some(0))));
    var s3 := OutRun(c, s2, m, A, ToMulti([], Some(0)));
    Then(c, s, m, s2, m, s3, m);
    ShrinkEnd(c, s3, m);
    r := s3.(lruMax := 0, h := Idle);
    Then(c, s, m, s3, m, r, m);
  }

  lemma HasMember(s: seq<PageId>)
    ensures s != [] ==> exists q :: q in s
  {
    if s != [] {
      assert s[0] in s;
    }
  }

  /** There is nothing to prefetch besides the faulting page. */
  lemma NothingSelected(c: Config, s: State)
    requires s.pc.hash.Keys == {A}
    ensures Selected(c, s, A) == []
  {
    var keys := Selected(c, s, A);
    SelectOk(s.pc, Pending(WriteKeys(s.wl), s.pl, c.zeroOpt), A, Advance(s.reader.window, A.addr).numConseqAcc, c.prefetchSize);
    HasMember(keys);
  }

  /** The page `A` is in the store, and nothing is resident. */
  lemma StoredRun(c: Config) returns (s: State)
    requires Cramped(c) && !c.threadedWrite
    ensures Reaches(c, Init(c), map[], s, map[A := OnePage()]) && NoRoom(s) && s.wl == [] && s.mem == map[]
    ensures s.pc.hash == map[A := PageInfo(ExternRam, false)] && StoreHas(s.kv, A, OnePage()) && Selected(c, s, A) == []
  {
    var s1 := TouchWithRoom(c);
    s := ShrinkRun(c, s1, map[A := OnePage()]);
    Then(c, Init(c), map[], s1, map[A := OnePage()], s, map[A := OnePage()]);
    NothingSelected(c, s);
  }

  /** A read of `A` with the keys its own fault prepared, or with none. */
  lemma OwnKeys(c: Config, s: State)
    requires OwnedBy(s.pc, A, ExternRam, false) && s.pc.hash.Keys == {A}
    requires c.prefetch && !c.threadedPrefetch ==> s.reader.keys == [A.addr]
    requires A in s.kv
    ensures ReadOf(c, s, A) == (Data(s.kv[A], false), ChangeOwnership(s.pc, A, Application, false))
  {
    if c.prefetch && !c.threadedPrefetch {
      assert s.reader.keys[1..] == [];
      assert KeyPages(A.ufd, []) == [] && Entries([], ReadAll(s.kv, [])) == [];
    }
  }

  /** The hole's zeros overwrite the page's only copy, and are read back. */
  lemma OverwritingLosesPage(c: Config)
    requires Cramped(c) && !c.threadedWrite && !c.zeroOpt
    ensures !Coherent(c)
  {
    var m := map[A := OnePage()];
    var s := StoredRun(c);
    var s1 := CrampedMiss(c, s, m, A);
    Then(c, Init(c), map[], s, m, s1, m);
    assert [A.addr] + Addrs([]) == [A.addr];
    OwnKeys(c, s1);
    var r := CrampedRead(c, s1, m, A);
    Then(c, Init(c), map[], s1, m, r, m);
    BadRun(c, r, m, A);
  }

  // ------------------------------------------------------------------- keys of an earlier fault

  /** `A` is read back, which leaves its address as the first key. */
  lemma KeyRun(c: Config) returns (s: State)
    requires Cramped(c) && !c.threadedWrite && c.zeroOpt && !SingleRead(c)
    ensures Reaches(c, Init(c), map[], s, map[A := OnePage()]) && NoRoom(s) && s.wl == [] && s.mem == map[A := OnePage()]
    ensures s.pc.hash == map[A := PageInfo(Application, false)] && StoreHas(s.kv, A, OnePage()) && s.reader.keys == [A.addr]
  {
    var m := map[A := OnePage()];
    var s1 := StoredRun(c);
    var s2 := CrampedMiss(c, s1, m, A);
    Then(c, Init(c), map[], s1, m, s2, m);
    assert [A.addr] + Addrs([]) == [A.addr];
    OwnKeys(c, s2);
    s := CrampedRead(c, s2, m, A);
    Then(c, Init(c), map[], s2, m, s, m);
  }

  function TwoPage(): (x: Content)
    ensures x[0] == 2
  {
    ZeroPage()[0 := 2]
  }

  /** A new page `B` is faulted in. */
  lemma SecondFault(c: Config, s: State, m: Memory) returns (r: State)
    requires Cramped(c) && !c.threadedWrite && c.zeroOpt && NoRoom(s) && s.wl == [] && m == map[A := OnePage()]
    requires s.mem == map[A := OnePage()] && s.pc.hash == map[A := PageInfo(Application, false)]
    ensures Reaches(c, s, m, r, m) && NoRoom(r) && r.wl == [] && r.kv == s.kv && r.reader.keys == s.reader.keys
    ensures r.mem == map[A := OnePage(), B := ZeroPage()]
    ensures r.pc.hash == map[A := PageInfo(Application, false), B := PageInfo(Application, false)]
  {
    var s1 := CrampedMiss(c, s, m, B);
    r := CrampedRead(c, s1, m, B);
    Then(c, s, m, s1, m, r, m);
  }

  /** A second fault on `B` writes it, does not prepare keys because `B` is resident, and then
      reads the key that the fault on `A` left: `B` gets the content of `A`. */
  lemma StaleKeyLosesPage(c: Config)
    requires Cramped(c) && !c.threadedWrite && c.zeroOpt && !SingleRead(c)
    ensures !Coherent(c)
  {
    var m := map[A := OnePage()];
    var s := KeyRun(c);
    var s0 := SecondFault(c, s, m);
    Then(c, Init(c), map[], s, m, s0, m);
    var n := m[B := TwoPage()];
    var s1 := ByteRun(c, s0, m, B, 2);
    Then(c, Init(c), map[], s0, m, s1, n);
    assert TwoPage()[0] != ZeroPage()[0];
    var s2 := CrampedMiss(c, s1, n, B);
    Then(c, Init(c), map[], s1, n, s2, n);
    assert OwnedBy(s2.pc, B, ExternRam, false) && PageId(B.ufd, s2.reader.keys[0]) == A;
    var r := CrampedRead(c, s2, n, B);
    Then(c, Init(c), map[], s2, n, r, n);
    BadRun(c, r, n, B);
  }

  // ---------------------------------------------------------------------- the exact condition

  /** The options under which no run loses a byte, for all that configure.ac allows: zero pages
      may be skipped only if a page cache remembers them; and an asynchronous read needs room for
      the page, unless zero pages are skipped, writes are synchronous and no read is an inline
      multi-read. */
  predicate Keeps(c: Config) {
    && (c.zeroOpt ==> c.pageCache)
    && (c.asynRead ==> c.floor >= 1 || (c.zeroOpt && !c.threadedWrite && SingleRead(c)))
  }

  lemma CoherentIff(c: Config)
    requires ValidConfig(c)
    ensures Coherent(c) <==> Keeps(c)
  {
    if Safe(c) {
      SafeIsCoherent(c);
    } else if c.zeroOpt && !c.pageCache {
      ForgetfulLosesPage(c);
    } else if !c.pageCache {
      NoRoomLosesPage(c);
    } else if !c.threadedWrite {
      if !c.zeroOpt {
        OverwritingLosesPage(c);
      } else if SingleRead(c) {
        RoomlessIsCoherent(c);
      } else {
        StaleKeyLosesPage(c);
      }
    } else if c.zeroOpt {
      SkippingLosesPage(c);
    } else {
      StealingLosesPage(c);
    }
  }
}
