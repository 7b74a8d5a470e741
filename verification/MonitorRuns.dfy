/** The invariant holds in every reachable state, and what follows from it. */
module MonitorRuns {
  import opened Pages
  import opened LruBuffer
  import opened ThreadedIo
  import opened PageCache
  import opened NoopStore
  import opened Monitor
  import opened MonitorInv
  import opened MonitorSteps
  import opened MonitorMoves
  import opened MonitorReads
  import opened MonitorThreads

  // ---------------------------------------------------------------------------- every step

  lemma WaitKeeps(c: Config, s: State, m: Memory, r: State)
    requires Inv(c, s, m) && s.h.Wait? && HandlerReady(s) && r == StepWait(c, s, s.h.stage, s.h.p, s.h.got)
    ensures Inv(c, r, m)
  {
    if s.h.stage == CheckWrite {
      CheckWriteKeeps(c, s, m);
    } else {
      if s.h.stage == CheckPrefetch {
        CheckPrefetchInPlace(c, s);
      } else if s.h.stage in {PostWriter, PostPrefetcher} {
        PostInPlace(c, s);
      } else {
        ParkInPlace(c, s);
      }
      InPlaceKeeps(c, s, m, r);
    }
  }

  lemma GoKeeps(c: Config, s: State, m: Memory, r: State)
    requires Inv(c, s, m) && s.h.Work? && s.h.e.Go? && r == StepGo(c, s, s.h.k)
    ensures Inv(c, r, m)
  {
    match s.h.k
    case ToBottom(_) => BottomKeeps(c, s, m);
    case ToPlace(_, _) => PlaceKeeps(c, s, m);
    case ToTrim(_) =>
      TrimInPlace(c, s);
      InPlaceKeeps(c, s, m, r);
    case ToMulti(_, _) =>
      MultiInPlace(c, s);
      InPlaceKeeps(c, s, m, r);
  }

  lemma RemapKeeps(c: Config, s: State, m: Memory, r: State, outcome: Outcome)
    requires Inv(c, s, m) && s.h.Work? && s.h.e.Remap? && r == StepRemap(s, s.h.e.v, s.h.e.retry, s.h.k, outcome)
    ensures Inv(c, r, m)
  {
    if outcome == Moved {
      MovedKeeps(c, s, m);
    } else {
      InPlaceKeeps(c, s, m, r);
    }
  }

  lemma RelistKeeps(c: Config, s: State, m: Memory, r: State, outcome: Outcome)
    requires Remembers(c) && Inv(c, s, m) && Room(s) && s.h.Work? && (s.h.e.Insert? || s.h.e.Reinsert?)
    requires r == StepWork(c, s, s.h.e, s.h.k, outcome)
    ensures Inv(c, r, m)
  {
    if s.h.e.Insert? {
      InsertInPlace(c, s);
    } else {
      ReinsertInPlace(c, s);
    }
    InPlaceKeeps(c, s, m, r);
  }

  lemma WorkKeeps(c: Config, s: State, m: Memory, r: State, outcome: Outcome)
    requires Remembers(c) && Inv(c, s, m) && Room(s) && s.h.Work? && r == StepWork(c, s, s.h.e, s.h.k, outcome)
    ensures Inv(c, r, m)
  {
    if s.h.e.Go? {
      GoKeeps(c, s, m, r);
    } else if s.h.e.Remap? {
      RemapKeeps(c, s, m, r, outcome);
    } else if s.h.e.Evicted? {
      EvictedKeeps(c, s, m);
    } else if s.h.e.Listed? {
      PostedKeeps(c, s, m);
    } else if s.h.e.Flip? {
      FlipKeeps(c, s, m);
    } else {
      RelistKeeps(c, s, m, r, outcome);
    }
  }

  lemma HandlerKeeps(c: Config, s: State, m: Memory, r: State, outcome: Outcome)
    requires Remembers(c) && Inv(c, s, m) && Room(s) && !s.h.Idle? && HandlerReady(s) && r == StepHandler(c, s, outcome)
    ensures Inv(c, r, m)
  {
    match s.h
    case Wait(_, _, _) => WaitKeeps(c, s, m, r);
    case Top(_) => TopKeeps(c, s, m);
    case PostTop(_) =>
      InPlaceKeeps(c, s, m, r);
    case Work(_, _) => WorkKeeps(c, s, m, r, outcome);
  }

  lemma RequestKeeps(c: Config, s: State, m: Memory, a: Action, r: State)
    requires Inv(c, s, m) && Enabled(c, s, a) && (a.Fault? || a.Resize?) && r == Exec(c, s, a)
    ensures Inv(c, r, m)
  {
    if a.Resize? {
      ResizeInPlace(c, s, a.size);
    }
    InPlaceKeeps(c, s, m, r);
  }

  /** One step of any thread, of the application or of the kernel keeps the invariant, with the
      shadow memory moving along. */
  lemma ExecKeeps(c: Config, s: State, m: Memory, a: Action, r: State)
    requires Remembers(c) && Inv(c, s, m) && Room(s) && Enabled(c, s, a) && r == Exec(c, s, a)
    ensures Inv(c, r, Shadow(m, a))
  {
    match a
    case Load(_, _) =>
    case Store(p, off, v) => StoreKeeps(c, s, m, p, off, v);
    case Fault(_) => RequestKeeps(c, s, m, a, r);
    case Resize(_) => RequestKeeps(c, s, m, a, r);
    case Handler(outcome) => HandlerKeeps(c, s, m, r, outcome);
    case Writer => WriterKeeps(c, s, m, r);
    case Prefetcher => PrefetcherKeeps(c, s, m, r);
    case SetFlush =>
    case SpuriousPost =>
  }

  // ------------------------------------------------------------------------------ every run

  function ShadowAll(m: Memory, acts: seq<Action>): (r: Memory)
    decreases |acts|
  {
    if acts == [] then m else ShadowAll(Shadow(m, acts[0]), acts[1..])
  }

  lemma {:induction false} RunKeeps(c: Config, s: State, m: Memory, acts: seq<Action>)
    requires Safe(c) && Inv(c, s, m) && Run(c, s, acts)
    ensures Inv(c, Final(c, s, acts), ShadowAll(m, acts))
    decreases |acts|
  {
    if acts != [] {
      var r := Exec(c, s, acts[0]);
      ExecKeeps(c, s, m, acts[0], r);
      RunKeeps(c, r, Shadow(m, acts[0]), acts[1..]);
    }
  }

  ghost predicate Reachable(c: Config, s: State) {
    exists acts :: Run(c, Init(c), acts) && s == Final(c, Init(c), acts)
  }

  /** In every reachable state the invariant holds, for the memory the run's stores left. */
  lemma ReachableInv(c: Config, s: State) returns (m: Memory)
    requires Safe(c) && Reachable(c, s)
    ensures Inv(c, s, m)
  {
    var acts :| Run(c, Init(c), acts) && s == Final(c, Init(c), acts);
    m := ShadowAll(map[], acts);
    InitInv(c);
    RunKeeps(c, Init(c), map[], acts);
  }

  // ------------------------------------------------------------------------------ coherence

  predicate Stores(a: Action, p: PageId, off: nat) {
    a.Store? && a.p == p && a.off == off
  }

  /** `v` is the byte the application last stored at an offset of a page, or `base` if it never
      stored there. */
  ghost predicate LastStored(acts: seq<Action>, p: PageId, off: nat, base: byte, v: byte) {
    || (exists i :: 0 <= i < |acts| && Stores(acts[i], p, off) && acts[i].v == v
                    && forall j :: i < j < |acts| ==> !Stores(acts[j], p, off))
    || (v == base && forall j :: 0 <= j < |acts| ==> !Stores(acts[j], p, off))
  }

  lemma {:induction false} ShadowIsLast(m: Memory, acts: seq<Action>, p: PageId, off: nat)
    requires off < PAGE_SIZE
    ensures LastStored(acts, p, off, Peek(m, p)[off], Peek(ShadowAll(m, acts), p)[off])
    decreases |acts|
  {
    if acts != [] {
      var rest := acts[1..];
      var m1 := Shadow(m, acts[0]);
      var v := Peek(ShadowAll(m1, rest), p)[off];
      ShadowIsLast(m1, rest, p, off);
      if i :| 0 <= i < |rest| && Stores(rest[i], p, off) && rest[i].v == v && forall j :: i < j < |rest| ==> !Stores(rest[j], p, off) {
        assert acts[i + 1] == rest[i];
        assert forall j :: i + 1 < j < |acts| ==> acts[j] == rest[j - 1];
      } else {
        assert forall j :: 0 < j < |acts| ==> acts[j] == rest[j - 1];
        if Stores(acts[0], p, off) {
          assert Peek(m1, p)[off] == acts[0].v;
        }
      }
    }
  }

  /** Where the current content of a page is, from the machine's state alone: in the application,
      in the handler's hands, in the write list, or where its ownership says. */
  function CurrentCopy(c: Config, s: State, p: PageId): (content: Content) {
    var listed := FindWriteInfo(s.wl, p);
    if p in s.mem then s.mem[p]
    else if Concerns(EvictedOf(s.h), p) then EvictedOf(s.h).value.1.data
    else if Concerns(HoldsOf(s.h), p) then PlacedContent(HoldsOf(s.h).value.1)
    else if listed.Some? then listed.value.buf.data
    else if c.pageCache then
      match OwnerOf(s.pc, p)
      case None => ZeroPage()
      case Some(PageInfo(Application, _)) =>
        if Concerns(FlippingOf(s.h), p) && FlippingOf(s.h).value.1 then ZeroPage() else PlacedContent(ReadStore(s.kv, p))
      case Some(PageInfo(Cache, _)) =>
        var found := FindCached(s.pc.cached, p);
        if found.Some? then found.value.buf.data else ZeroPage()
      case Some(PageInfo(ExternRam, isZero)) =>
        if isZero then ZeroPage() else PlacedContent(ReadStore(s.kv, p))
    else PlacedContent(ReadStore(s.kv, p))
  }

  /** Refinement: at every moment of every run, under every interleaving, every byte of every page
      is the byte last stored there, zero if there is none, wherever the page currently is. */
  lemma MemoryPreserved(c: Config, acts: seq<Action>, p: PageId, off: nat)
    requires Safe(c) && Run(c, Init(c), acts) && off < PAGE_SIZE
    ensures LastStored(acts, p, off, 0, CurrentCopy(c, Final(c, Init(c), acts), p)[off])
  {
    InitInv(c);
    RunKeeps(c, Init(c), map[], acts);
    ShadowIsLast(map[], acts, p, off);
  }

  /** The application sees no difference from an ordinary array. */
  ghost predicate Coherent(c: Config) {
    forall acts, p: PageId, off: nat ::
      Run(c, Init(c), acts) && Enabled(c, Final(c, Init(c), acts), Load(p, off)) ==>
        LastStored(acts, p, off, 0, Final(c, Init(c), acts).mem[p][off])
  }

  lemma SafeIsCoherent(c: Config)
    requires Safe(c)
    ensures Coherent(c)
  {
    forall acts, p: PageId, off: nat | Run(c, Init(c), acts) && Enabled(c, Final(c, Init(c), acts), Load(p, off))
      ensures LastStored(acts, p, off, 0, Final(c, Init(c), acts).mem[p][off])
    {
      MemoryPreserved(c, acts, p, off);
    }
  }
}
