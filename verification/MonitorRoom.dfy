/** Without room for a page, an asynchronous read evicts the very page it is about to read. With
    the zero-page shortcut and synchronous writes that loses nothing: a hole is skipped and its
    ownership stays as it is; a resident page is in the store by the time it is read. */
module MonitorRoom {
  import opened Pages
  import opened LruBuffer
  import opened ThreadedIo
  import opened PageCache
  import opened NoopStore
  import opened Monitor
  import opened MonitorInv
  import opened MonitorSteps
  import opened MonitorMoves
  import opened MonitorThreads
  import opened MonitorRuns

  /** Reads do not depend on keys that an earlier fault may have left. */
  predicate SingleRead(c: Config) {
    c.threadedPrefetch || !c.prefetch
  }

  predicate Roomless(c: Config) {
    ValidConfig(c) && c.asynRead && c.pageCache && c.zeroOpt && !c.threadedWrite && SingleRead(c)
  }

  /** The handler is evicting the page it is about to read. */
  predicate SelfEvicts(h: HandlerPc) {
    h.Work? && h.k.ToBottom? && (h.e.Remap? || h.e.Reinsert? || h.e.Evicted? || h.e.Flip?) && h.e.v == h.k.p
  }

  predicate Out(h: HandlerPc) {
    h.Work? && (h.e.Evicted? || h.e.Flip?)
  }

  /** The page was resident: its ownership still says so. */
  predicate Genuine(s: State) {
    SelfEvicts(s.h) && Out(s.h) && OwnerOf(s.pc, s.h.k.p) == Some(PageInfo(Application, false))
  }

  /** The handler's position as the invariant knows it: an eviction like any other, or none yet. */
  function Seen(s: State): (h: HandlerPc) {
    if !SelfEvicts(s.h) then s.h else if Genuine(s) then Work(s.h.e, ToTrim(None)) else Work(Go, s.h.k)
  }

  /** A page taken from the write list, or an eviction once the data is there: neither happens. */
  predicate Takes(h: HandlerPc) {
    (h.Wait? && h.got.Some?) || (h.Work? && h.k.ToPlace? && !h.e.Go?)
  }

  ghost predicate SelfOk(c: Config, s: State) {
    && !Takes(s.h)
    && (SelfEvicts(s.h) ==>
          && s.h.k.p !in s.lru && |s.lru| <= s.lruMax && ValidPage(s.h.k.p) && s.h.k.p !in s.pl
          && (Out(s.h) ==> s.h.k.p !in s.mem)
          && (s.h.e.Evicted? && !Genuine(s) ==> s.h.e.buf.data == ZeroPage())
          && (s.h.e.Remap? ==> s.h.e.retry > 0))
  }

  ghost predicate RoomInv(c: Config, s: State, m: Memory) {
    Inv(c, s.(h := Seen(s)), m) && SelfOk(c, s)
  }

  lemma InvIsRoomInv(c: Config, s: State, m: Memory)
    requires Inv(c, s, m) && !Takes(s.h)
    ensures RoomInv(c, s, m) && !SelfEvicts(s.h)
  {
  }

  // ------------------------------------------------------------------ the other threads' steps

  /** While the page is out, its owner tells which kind of eviction it is. */
  lemma OwnerTells(c: Config, s: State, m: Memory, genuine: bool)
    requires Roomless(c) && SelfEvicts(s.h) && Out(s.h) && s.h.k.p !in s.mem
    requires Inv(c, s.(h := if genuine then Work(s.h.e, ToTrim(None)) else Work(Go, s.h.k)), m)
    ensures Genuine(s) == genuine
  {
    PageFacts(c, PlacesOf(s.(h := if genuine then Work(s.h.e, ToTrim(None)) else Work(Go, s.h.k))), m, s.h.k.p);
  }

  /** A step that does not touch the handler. */
  lemma OthersKeep(c: Config, s: State, m: Memory, r: State, n: Memory)
    requires Roomless(c) && RoomInv(c, s, m) && r.h == s.h && r.lru == s.lru && r.lruMax == s.lruMax && r.mem.Keys == s.mem.Keys
    requires r.wl == s.wl && (forall p :: p in r.pl ==> p in s.pl) && (r.pc == s.pc || c.threadedPrefetch)
    requires Inv(c, r.(h := Seen(s)), n)
    ensures RoomInv(c, r, n)
  {
    if SelfEvicts(s.h) && Out(s.h) {
      OwnerTells(c, r, n, Genuine(s));
    }
  }

  lemma PrefetcherKeepsRoom(c: Config, s: State, m: Memory, r: State)
    requires Roomless(c) && RoomInv(c, s, m) && c.threadedPrefetch && PrefetcherReady(s) && r == StepPrefetcher(s)
    ensures RoomInv(c, r, m)
  {
    var t := s.(h := Seen(s));
    PrefetcherKeeps(c, t, m, StepPrefetcher(t));
    PrefetcherApart(c, s, m, r);
    OthersKeep(c, s, m, r, m);
  }

  lemma PrefetcherApart(c: Config, s: State, m: Memory, r: State)
    requires PrefetcherOk(c, s.f, s.pl, m) && PrefetcherReady(s) && r == StepPrefetcher(s)
    ensures StepPrefetcher(s.(h := Seen(s))) == r.(h := Seen(s)) && r.h == s.h && r.lru == s.lru && r.lruMax == s.lruMax
    ensures r.mem == s.mem && r.wl == s.wl && forall p :: p in r.pl ==> p in s.pl
  {
    if s.f.Unlisting? {
      DelPrefetchedDiscipline(s.pl, s.f.keys);
    }
  }

  // ----------------------------------------------------------------------- the handler's steps

  /** An insertion without room makes the faulting page the victim. */
  lemma NoRoomKeeps(c: Config, s: State, m: Memory, r: State)
    requires Roomless(c) && RoomInv(c, s, m) && !Room(s) && r == StepInsert(s, s.h.e.p, s.h.k)
    ensures RoomInv(c, r, m)
  {
    var p := s.h.e.p;
    assert s.lru == [] && s.h.k.ToBottom? && s.h.k.p == p;
    assert ToFront(s.lru, p) == [p] && [p][..0] == [];
    InPlaceKeeps(c, s, m, r.(h := Work(Go, s.h.k)));
  }

  lemma GenuineMoves(c: Config, s: State, m: Memory)
    requires Roomless(c) && RoomInv(c, s, m) && SelfEvicts(s.h) && s.h.e.Remap? && s.h.k.p in s.mem
    ensures RoomInv(c, StepRemap(s, s.h.e.v, s.h.e.retry, s.h.k, Moved), m)
  {
    var r := StepRemap(s, s.h.e.v, s.h.e.retry, s.h.k, Moved);
    var t := s.(h := Work(s.h.e, ToTrim(None)));
    InPlaceKeeps(c, s.(h := Seen(s)), m, t);
    MovedKeeps(c, t, m);
    assert r.(h := Work(r.h.e, ToTrim(None))) == StepRemap(t, t.h.e.v, t.h.e.retry, t.h.k, Moved);
    OwnerTells(c, r, m, true);
  }

  lemma HoleMoves(c: Config, s: State, m: Memory)
    requires Roomless(c) && RoomInv(c, s, m) && SelfEvicts(s.h) && s.h.e.Remap? && s.h.k.p !in s.mem
    ensures RoomInv(c, StepRemap(s, s.h.e.v, s.h.e.retry, s.h.k, Moved), m)
  {
    var r := StepRemap(s, s.h.e.v, s.h.e.retry, s.h.k, Moved);
    var t := s.(h := Seen(s));
    assert r.mem == s.mem;
    InPlaceKeeps(c, t, m, r.(h := Work(Go, r.h.k)));
    OwnerTells(c, r, m, false);
  }

  lemma RemapKeepsRoom(c: Config, s: State, m: Memory, r: State, outcome: Outcome)
    requires Roomless(c) && RoomInv(c, s, m) && SelfEvicts(s.h) && s.h.e.Remap?
    requires r == StepRemap(s, s.h.e.v, s.h.e.retry, s.h.k, outcome)
    ensures RoomInv(c, r, m)
  {
    if outcome != Moved {
      InPlaceKeeps(c, s.(h := Seen(s)), m, r.(h := Work(Go, s.h.k)));
    } else if s.h.k.p in s.mem {
      GenuineMoves(c, s, m);
    } else {
      HoleMoves(c, s, m);
    }
  }

  lemma ReinsertKeepsRoom(c: Config, s: State, m: Memory, r: State)
    requires Roomless(c) && RoomInv(c, s, m) && SelfEvicts(s.h) && s.h.e.Reinsert?
    requires r == s.(lru := ToFront(s.lru, s.h.e.v), h := Work(Go, s.h.k))
    ensures RoomInv(c, r, m)
  {
    ToFrontNoDup(s.lru, s.h.e.v);
    InPlaceKeeps(c, s.(h := Seen(s)), m, r);
  }

  lemma EvictedKeepsRoom(c: Config, s: State, m: Memory, r: State)
    requires Roomless(c) && RoomInv(c, s, m) && SelfEvicts(s.h) && s.h.e.Evicted?
    requires r == StepEvicted(c, s, s.h.e.v, s.h.e.buf, s.h.k)
    ensures RoomInv(c, r, m)
  {
    if Genuine(s) {
      var t := s.(h := Seen(s));
      EvictedKeeps(c, t, m);
      assert StepEvicted(c, t, t.h.e.v, t.h.e.buf, t.h.k) == r.(h := Work(r.h.e, ToTrim(None)));
    }
  }

  lemma GenuineFlips(c: Config, s: State, m: Memory, r: State)
    requires Roomless(c) && RoomInv(c, s, m) && Genuine(s) && s.h.e.Flip?
    requires r == s.(pc := UpdateAfterWrite(s.pc, s.h.e.v, s.h.e.zero), h := Work(Go, s.h.k))
    ensures Inv(c, r, m)
  {
    var t := s.(h := Seen(s));
    FlipKeeps(c, t, m);
    var u := r.(h := Work(Go, ToTrim(None)));
    assert u == t.(pc := UpdateAfterWrite(t.pc, t.h.e.v, t.h.e.zero), h := Work(Go, t.h.k));
    ReadNext(c, u, s.h.k.p);
    InPlaceKeeps(c, u, m, r);
  }

  /** From the end of an eviction on to the read. */
  lemma ReadNext(c: Config, u: State, p: PageId)
    requires Roomless(c) && HandlerInv(c, u) && u.h == Work(Go, ToTrim(None)) && ValidPage(p) && p !in WriteKeys(u.wl) && p !in u.pl
    ensures HandlerInv(c, u.(h := Work(Go, ToBottom(p))))
  {
  }

  lemma FlipKeepsRoom(c: Config, s: State, m: Memory, r: State)
    requires Roomless(c) && RoomInv(c, s, m) && SelfEvicts(s.h) && s.h.e.Flip?
    requires r == s.(pc := UpdateAfterWrite(s.pc, s.h.e.v, s.h.e.zero), h := Work(Go, s.h.k))
    ensures RoomInv(c, r, m)
  {
    if Genuine(s) {
      GenuineFlips(c, s, m, r);
    } else {
      PageFacts(c, PlacesOf(s.(h := Seen(s))), m, s.h.k.p);
    }
  }

  lemma SelfKeeps(c: Config, s: State, m: Memory, r: State, outcome: Outcome)
    requires Roomless(c) && RoomInv(c, s, m) && SelfEvicts(s.h) && r == StepHandler(c, s, outcome)
    ensures RoomInv(c, r, m)
  {
    match s.h.e
    case Remap(_, _) => RemapKeepsRoom(c, s, m, r, outcome);
    case Reinsert(_) => ReinsertKeepsRoom(c, s, m, r);
    case Evicted(_, _) => EvictedKeepsRoom(c, s, m, r);
    case Flip(_, _) => FlipKeepsRoom(c, s, m, r);
  }

  lemma WaitTakesNothing(c: Config, s: State)
    requires Roomless(c) && HandlerOk(c, s.h, WriteKeys(s.wl), s.pl) && s.h.Wait? && !Takes(s.h) && HandlerReady(s)
    ensures !Takes(StepWait(c, s, s.h.stage, s.h.p, s.h.got).h)
  {
  }

  lemma WorkTakesNothing(c: Config, s: State, outcome: Outcome)
    requires s.h.Work? && !Takes(s.h)
    ensures !Takes(StepWork(c, s, s.h.e, s.h.k, outcome).h)
  {
    if s.h.e.Go? {
      assert StepWork(c, s, s.h.e, s.h.k, outcome) == StepGo(c, s, s.h.k);
    }
  }

  lemma HandlerKeepsRoom(c: Config, s: State, m: Memory, r: State, outcome: Outcome)
    requires Roomless(c) && RoomInv(c, s, m) && !s.h.Idle? && HandlerReady(s) && r == StepHandler(c, s, outcome)
    ensures RoomInv(c, r, m)
  {
    if SelfEvicts(s.h) {
      SelfKeeps(c, s, m, r, outcome);
    } else if !Room(s) {
      NoRoomKeeps(c, s, m, r);
    } else {
      HandlerKeeps(c, s, m, r, outcome);
      if s.h.Wait? {
        WaitTakesNothing(c, s);
      } else if s.h.Work? {
        WorkTakesNothing(c, s, outcome);
      }
      InvIsRoomInv(c, r, m);
    }
  }

  // ------------------------------------------------------------------------------- every run

  lemma StoreKeepsRoom(c: Config, s: State, m: Memory, p: PageId, off: nat, v: byte)
    requires Roomless(c) && RoomInv(c, s, m) && p in s.mem && off < PAGE_SIZE
    ensures RoomInv(c, DoStore(s, p, off, v), Shadow(m, Store(p, off, v)))
  {
    var t, r := s.(h := Seen(s)), DoStore(s, p, off, v);
    StoreKeeps(c, t, m, p, off, v);
    assert DoStore(t, p, off, v) == r.(h := Seen(s));
    OthersKeep(c, s, m, r, Shadow(m, Store(p, off, v)));
  }

  lemma SignalKeepsRoom(c: Config, s: State, m: Memory, sync: Sync)
    requires Roomless(c) && RoomInv(c, s, m)
    ensures RoomInv(c, s.(sync := sync), m)
  {
    var t, r := s.(h := Seen(s)), s.(sync := sync);
    OthersKeep(c, s, m, r, m);
  }

  lemma ExecKeepsRoom(c: Config, s: State, m: Memory, a: Action, r: State)
    requires Roomless(c) && RoomInv(c, s, m) && Enabled(c, s, a) && r == Exec(c, s, a)
    ensures RoomInv(c, r, Shadow(m, a))
  {
    match a
    case Load(_, _) =>
    case Store(p, off, v) => StoreKeepsRoom(c, s, m, p, off, v);
    case Fault(_) => RequestKeeps(c, s, m, a, r);
    case Resize(_) => RequestKeeps(c, s, m, a, r);
    case Handler(outcome) => HandlerKeepsRoom(c, s, m, r, outcome);
    case Prefetcher => PrefetcherKeepsRoom(c, s, m, r);
    case SetFlush => SignalKeepsRoom(c, s, m, r.sync);
    case SpuriousPost => SignalKeepsRoom(c, s, m, r.sync);
  }

  lemma {:induction false} RunKeepsRoom(c: Config, s: State, m: Memory, acts: seq<Action>)
    requires Roomless(c) && RoomInv(c, s, m) && Run(c, s, acts)
    ensures RoomInv(c, Final(c, s, acts), ShadowAll(m, acts))
    decreases |acts|
  {
    if acts != [] {
      var r := Exec(c, s, acts[0]);
      ExecKeepsRoom(c, s, m, acts[0], r);
      RunKeepsRoom(c, r, Shadow(m, acts[0]), acts[1..]);
    }
  }

  /** Coherence whatever the capacity. */
  lemma RoomlessIsCoherent(c: Config)
    requires Roomless(c)
    ensures Coherent(c)
  {
    forall acts, p: PageId, off: nat | Run(c, Init(c), acts) && Enabled(c, Final(c, Init(c), acts), Load(p, off))
      ensures LastStored(acts, p, off, 0, Final(c, Init(c), acts).mem[p][off])
    {
      var s, m := Final(c, Init(c), acts), ShadowAll(map[], acts);
      InitInv(c);
      InvIsRoomInv(c, Init(c), map[]);
      RunKeepsRoom(c, Init(c), map[], acts);
      PageFacts(c, PlacesOf(s.(h := Seen(s))), m, p);
      ShadowIsLast(map[], acts, p, off);
    }
  }
}
