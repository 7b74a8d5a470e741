/** Conservation of the monitor's page buffers: each is mapped once, is in one place at a time,
    and is unmapped once, when nothing refers to it any more. */
module Buffers {
  import opened Pages
  import opened LruBuffer
  import opened ThreadedIo
  import opened PageCache
  import opened NoopStore
  import opened Monitor
  import opened MonitorInv
  import opened MonitorSteps
  import opened MonitorRuns

  // -------------------------------------------------------------------------------- the places

  /** A listed page that is not written yet, a stored page, the buffer taken from the write list,
      the buffer just filled by an eviction, a buffer the store handed back to the writer. */
  datatype Slot = InList(p: PageId) | InStore(p: PageId) | Held | Filled | Returned(j: nat)

  function HeldOf(h: HandlerPc): (b: Option<Buffer>) {
    match h
    case Wait(_, _, got) => got
    case Work(_, ToPlace(_, Data(b, fromList))) => if fromList then Some(b) else None
    case Work(_, ToTrim(tmp)) => tmp
    case _ => None
  }

  function FilledOf(h: HandlerPc): (b: Option<Buffer>) {
    if h.Work? && h.e.Evicted? then Some(h.e.buf) else None
  }

  function ReturnedOf(w: WriterPc): (bs: seq<Option<Buffer>>) {
    if w.Writing? || w.Deleting? || w.Freeing? then w.returned else []
  }

  /** The page's entry is still listed, but the store has its buffer already. */
  ghost predicate Written(w: WriterPc, p: PageId) {
    (w.Writing? || w.Deleting?) && exists j :: 0 <= j < |w.returned| && j < |w.batch| && w.batch[j].page == p
  }

  function Id(b: Option<Buffer>): (id: Option<nat>) {
    if b.Some? then Some(b.value.id) else None
  }

  /** Which buffer is in which place. */
  type Layout = Slot -> Option<nat>

  ghost function ListedId(wl: seq<WriteInfo>, w: WriterPc, p: PageId): (id: Option<nat>) {
    if FindWriteInfo(wl, p).Some? && !Written(w, p) then Some(FindWriteInfo(wl, p).value.buf.id) else None
  }

  function ReturnedId(w: WriterPc, j: nat): (id: Option<nat>) {
    if j < |ReturnedOf(w)| then Id(ReturnedOf(w)[j]) else None
  }

  ghost function LayoutOf(s: State): (at: Layout) {
    (x: Slot) => match x
      case InList(p) => ListedId(s.wl, s.w, p)
      case InStore(p) => Id(Lookup(s.kv, p))
      case Held => Id(HeldOf(s.h))
      case Filled => Id(FilledOf(s.h))
      case Returned(j) => ReturnedId(s.w, j)
  }

  /** Every buffer ever mapped is unmapped or in exactly one place. */
  ghost predicate Conserved(at: Layout, maps: Mappings) {
    && (forall id :: id in maps.unmapped ==> id < maps.next)
    && (forall x :: at(x).Some? ==> at(x).value < maps.next && at(x).value !in maps.unmapped)
    && (forall x, y :: at(x).Some? && at(x) == at(y) ==> x == y)
    && (forall id: nat :: id < maps.next && id !in maps.unmapped ==> exists x :: at(x) == Some(id))
  }

  // -------------------------------------------------------------------------------- the moves

  lemma Still(at: Layout, to: Layout, maps: Mappings)
    requires Conserved(at, maps) && forall x :: to(x) == at(x)
    ensures Conserved(to, maps)
  {
    forall id: nat | id < maps.next && id !in maps.unmapped
      ensures exists z :: to(z) == Some(id)
    {
      var z :| at(z) == Some(id);
      assert to(z) == Some(id);
    }
  }

  /** A buffer moves from one place to an empty one. */
  lemma Shift(at: Layout, to: Layout, maps: Mappings, x: Slot, y: Slot)
    requires Conserved(at, maps) && x != y
    requires at(y).None? && to(x).None? && to(y) == at(x) && forall z :: z != x && z != y ==> to(z) == at(z)
    ensures Conserved(to, maps)
  {
    forall id: nat | id < maps.next && id !in maps.unmapped
      ensures exists z :: to(z) == Some(id)
    {
      var z :| at(z) == Some(id);
      assert to(if z == x then y else z) == Some(id);
    }
  }

  /** A buffer moves to a place whose buffer moves on to an empty one. */
  lemma Displace(at: Layout, to: Layout, maps: Mappings, x: Slot, y: Slot, z: Slot)
    requires Conserved(at, maps) && x != y && y != z && x != z
    requires at(z).None? && to(x).None? && to(y) == at(x) && to(z) == at(y)
    requires forall q :: q != x && q != y && q != z ==> to(q) == at(q)
    ensures Conserved(to, maps)
  {
    forall id: nat | id < maps.next && id !in maps.unmapped
      ensures exists q :: to(q) == Some(id)
    {
      var q :| at(q) == Some(id);
      assert to(if q == x then y else if q == y then z else q) == Some(id);
    }
  }

  /** A fresh mapping appears in an empty place. */
  lemma Appear(at: Layout, to: Layout, maps: Mappings, y: Slot)
    requires Conserved(at, maps) && at(y).None? && to(y) == Some(maps.next) && forall z :: z != y ==> to(z) == at(z)
    ensures Conserved(to, maps.(next := maps.next + 1))
  {
    forall id: nat | id <= maps.next && id !in maps.unmapped
      ensures exists z :: to(z) == Some(id)
    {
      if id < maps.next {
        var z :| at(z) == Some(id);
        assert to(z) == Some(id);
      } else {
        assert to(y) == Some(id);
      }
    }
  }

  /** The buffers of some places are unmapped. */
  lemma Unmap(at: Layout, to: Layout, maps: Mappings, gone: set<nat>)
    requires Conserved(at, maps)
    requires forall z :: to(z) == if at(z).Some? && at(z).value in gone then None else at(z)
    requires forall id :: id in gone ==> exists z :: at(z) == Some(id)
    ensures Conserved(to, maps.(unmapped := maps.unmapped + gone))
  {
    forall id: nat | id < maps.next && id !in maps.unmapped + gone
      ensures exists z :: to(z) == Some(id)
    {
      var z :| at(z) == Some(id);
      assert to(z) == Some(id);
    }
  }

  // ----------------------------------------------------------------------- the handler's moves

  ghost predicate Ok(s: State) {
    Conserved(LayoutOf(s), s.maps)
  }

  /** Only the handler's position changes, not what it has in hand. */
  lemma SameHands(s: State, r: State)
    requires Ok(s) && r.wl == s.wl && r.kv == s.kv && r.w == s.w && r.maps == s.maps
    requires HeldOf(r.h) == HeldOf(s.h) && FilledOf(r.h) == FilledOf(s.h)
    ensures Ok(r)
  {
    Still(LayoutOf(s), LayoutOf(r), s.maps);
  }

  lemma FindIff(wl: seq<WriteInfo>, p: PageId, e: WriteInfo)
    requires UniqueKeys(wl)
    ensures FindWriteInfo(wl, p) == Some(e) <==> e in wl && e.page == p
  {
    if e in wl {
      UniqueKeysFind(wl, e);
    }
  }

  lemma StealMoves(c: Config, s: State, r: State, p: PageId, buf: Buffer)
    requires Ok(s) && UniqueKeys(s.wl) && WriterOk(c, s.w, s.wl, s.kv)
    requires FindWriteInfo(s.wl, p) == Some(WriteInfo(p, buf, false))
    requires r.wl == DelWriteInfo(s.wl, p) && r.kv == s.kv && r.w == s.w && r.maps == s.maps
    requires HeldOf(s.h) == None && HeldOf(r.h) == Some(buf) && FilledOf(s.h) == FilledOf(r.h)
    ensures Ok(r)
  {
    DelWriteInfoUnique(s.wl, p);
    assert FindWriteInfo(r.wl, p).None?;
    forall q | q != p
      ensures FindWriteInfo(r.wl, q) == FindWriteInfo(s.wl, q)
    {
    }
    Shift(LayoutOf(s), LayoutOf(r), s.maps, InList(p), Held);
  }

  lemma EvictedMoves(s: State, r: State, buf: Buffer)
    requires Ok(s) && r.wl == s.wl && r.kv == s.kv && r.w == s.w && HeldOf(r.h) == HeldOf(s.h)
    requires FilledOf(s.h) == None && FilledOf(r.h) == Some(buf) && buf.id == s.maps.next
    requires r.maps == s.maps.(next := s.maps.next + 1)
    ensures Ok(r)
  {
    Appear(LayoutOf(s), LayoutOf(r), s.maps, Filled);
  }

  lemma RetryMoves(s: State, r: State)
    requires Ok(s) && r.wl == s.wl && r.kv == s.kv && r.w == s.w && HeldOf(r.h) == HeldOf(s.h) && FilledOf(r.h) == FilledOf(s.h)
    requires r.maps == Mappings(s.maps.next + 1, s.maps.unmapped + {s.maps.next})
    ensures Ok(r)
  {
    Still(LayoutOf(s), LayoutOf(r), s.maps);
  }

  lemma ListMoves(c: Config, s: State, r: State, v: PageId, buf: Buffer)
    requires Ok(s) && UniqueKeys(s.wl) && WriterOk(c, s.w, s.wl, s.kv) && v !in WriteKeys(s.wl)
    requires FilledOf(s.h) == Some(buf) && FilledOf(r.h) == None && HeldOf(r.h) == HeldOf(s.h)
    requires r.wl == s.wl + [WriteInfo(v, buf, false)] && r.kv == s.kv && r.w == s.w && r.maps == s.maps
    ensures Ok(r)
  {
    var entry := WriteInfo(v, buf, false);
    AddWriteInfoKeys(s.wl, entry);
    assert forall e :: e in r.wl <==> e in s.wl || e == entry;
    FindIff(r.wl, v, entry);
    forall q | q != v
      ensures FindWriteInfo(r.wl, q) == FindWriteInfo(s.wl, q)
    {
    }
    assert !Written(s.w, v);
    Shift(LayoutOf(s), LayoutOf(r), s.maps, Filled, InList(v));
  }

  lemma WriteMoves(s: State, r: State, v: PageId, buf: Buffer)
    requires Ok(s) && FilledOf(s.h) == Some(buf) && FilledOf(r.h) == None && HeldOf(r.h) == HeldOf(s.h)
    requires r.wl == s.wl && r.kv == s.kv[v := buf] && r.w == s.w
    requires r.maps == s.maps.(unmapped := s.maps.unmapped + FreeId(Lookup(s.kv, v)))
    ensures Ok(r)
  {
    var at := LayoutOf(s);
    var mid: Layout := x => if x == InStore(v) then None else at(x);
    if Lookup(s.kv, v).Some? {
      assert at(InStore(v)) == Some(s.kv[v].id);
    }
    Unmap(at, mid, s.maps, FreeId(Lookup(s.kv, v)));
    Shift(mid, LayoutOf(r), r.maps, Filled, InStore(v));
  }

  lemma TrimMoves(s: State, r: State)
    requires Ok(s) && s.h.Work? && s.h.k.ToTrim? && HeldOf(r.h) == None && FilledOf(r.h) == FilledOf(s.h)
    requires r.wl == s.wl && r.kv == s.kv && r.w == s.w
    requires r.maps == s.maps.(unmapped := s.maps.unmapped + FreeId(s.h.k.tmp))
    ensures Ok(r)
  {
    if s.h.k.tmp.Some? {
      assert LayoutOf(s)(Held) == Some(s.h.k.tmp.value.id);
    }
    Unmap(LayoutOf(s), LayoutOf(r), s.maps, FreeId(s.h.k.tmp));
  }

  // ------------------------------------------------------------------------ the writer's moves

  lemma {:induction false} FreeIdsMember(bs: seq<Option<Buffer>>, id: nat)
    ensures id in FreeIds(bs) <==> exists j :: 0 <= j < |bs| && bs[j].Some? && bs[j].value.id == id
  {
    if bs != [] {
      FreeIdsMember(bs[1..], id);
      if id in FreeIds(bs[1..]) {
        var j :| 0 <= j < |bs[1..]| && bs[1..][j].Some? && bs[1..][j].value.id == id;
        assert bs[j + 1] == bs[1..][j];
      }
      if j :| 1 <= j < |bs| && bs[j].Some? && bs[j].value.id == id {
        assert bs[1..][j - 1] == bs[j];
      }
    }
  }

  lemma FreeingMoves(s: State, r: State)
    requires Ok(s) && s.w.Freeing? && ReturnedOf(r.w) == [] && !r.w.Writing? && !r.w.Deleting?
    requires r.wl == s.wl && r.kv == s.kv && r.h == s.h
    requires r.maps == s.maps.(unmapped := s.maps.unmapped + FreeIds(s.w.returned))
    ensures Ok(r)
  {
    var at, gone := LayoutOf(s), FreeIds(s.w.returned);
    forall id | id in gone
      ensures exists j :: at(Returned(j)) == Some(id)
    {
      FreeIdsMember(s.w.returned, id);
      var j :| 0 <= j < |s.w.returned| && s.w.returned[j].Some? && s.w.returned[j].value.id == id;
      assert at(Returned(j)) == Some(id);
    }
    forall j: nat | at(Returned(j)).Some?
      ensures at(Returned(j)).value in gone
    {
      FreeIdsMember(s.w.returned, at(Returned(j)).value);
    }
    Unmap(at, LayoutOf(r), s.maps, gone);
  }

  lemma WrittenGrows(batch: seq<WriteInfo>, returned: seq<Option<Buffer>>, b: Option<Buffer>, q: PageId)
    requires |returned| < |batch|
    ensures Written(Writing(batch, returned + [b]), q) <==> Written(Writing(batch, returned), q) || q == batch[|returned|].page
  {
    var n := |returned|;
    if q == batch[n].page {
      assert batch[n].page == q;
    } else if j :| 0 <= j <= n && batch[j].page == q {
      assert j < n;
    }
  }

  lemma WritingMoves(s: State, r: State, e: WriteInfo)
    requires Ok(s) && s.w.Writing? && |s.w.returned| < |s.w.batch| && e == s.w.batch[|s.w.returned|]
    requires FindWriteInfo(s.wl, e.page) == Some(e) && !Written(s.w, e.page)
    requires r.wl == s.wl && r.h == s.h && r.maps == s.maps
    requires r.kv == s.kv[e.page := e.buf] && r.w == Writing(s.w.batch, s.w.returned + [Lookup(s.kv, e.page)])
    ensures Ok(r)
  {
    var n := |s.w.returned|;
    forall x
      ensures x != InList(e.page) && x != InStore(e.page) && x != Returned(n) ==> LayoutOf(r)(x) == LayoutOf(s)(x)
    {
      if x.InList? {
        WrittenGrows(s.w.batch, s.w.returned, Lookup(s.kv, e.page), x.p);
      }
    }
    WrittenGrows(s.w.batch, s.w.returned, Lookup(s.kv, e.page), e.page);
    Displace(LayoutOf(s), LayoutOf(r), s.maps, InList(e.page), InStore(e.page), Returned(n));
  }

  lemma SettledListed(wl: seq<WriteInfo>, kv: Kv, w: WriterPc, q: PageId)
    requires UniqueKeys(wl) && w.Deleting? && BatchOk(wl, kv, w.batch, w.returned) && |w.returned| == |w.batch|
    ensures ListedId(DelBatch(wl, w.batch), Freeing(w.returned, false), q) == ListedId(wl, w, q)
  {
    DelBatchDiscipline(wl, w.batch);
    if e :| e in w.batch && e.page == q {
      var j :| 0 <= j < |w.batch| && w.batch[j] == e;
      assert Written(w, q);
      assert q !in WriteKeys(DelBatch(wl, w.batch));
    } else {
      assert !Written(w, q);
    }
  }

  /** The list changes, but not which unwritten pages it holds. */
  lemma RelistMoves(s: State, r: State)
    requires Ok(s) && r.kv == s.kv && r.h == s.h && r.maps == s.maps && ReturnedOf(r.w) == ReturnedOf(s.w)
    requires forall q :: ListedId(r.wl, r.w, q) == ListedId(s.wl, s.w, q)
    ensures Ok(r)
  {
    Still(LayoutOf(s), LayoutOf(r), s.maps);
  }

  lemma DeletingMoves(c: Config, s: State, r: State)
    requires Ok(s) && UniqueKeys(s.wl) && s.w.Deleting? && BatchOk(s.wl, s.kv, s.w.batch, s.w.returned)
    requires |s.w.returned| == |s.w.batch| && r.kv == s.kv && r.h == s.h && r.maps == s.maps
    requires r.wl == DelBatch(s.wl, s.w.batch) && r.w.Freeing? && r.w.returned == s.w.returned
    ensures Ok(r)
  {
    forall q
      ensures ListedId(r.wl, r.w, q) == ListedId(s.wl, s.w, q)
    {
      SettledListed(s.wl, s.kv, s.w, q);
      NotWriting(r.wl, r.w, Freeing(s.w.returned, false), q);
    }
    RelistMoves(s, r);
  }

  lemma NotWriting(wl: seq<WriteInfo>, w: WriterPc, v: WriterPc, q: PageId)
    requires w.Freeing? && v.Freeing?
    ensures ListedId(wl, w, q) == ListedId(wl, v, q)
  {
  }

  lemma {:induction false} SameBuffers(xs: seq<WriteInfo>, ys: seq<WriteInfo>, q: PageId)
    requires |xs| == |ys| && forall i :: 0 <= i < |xs| ==> xs[i].page == ys[i].page && xs[i].buf == ys[i].buf
    ensures FindWriteInfo(xs, q).Some? == FindWriteInfo(ys, q).Some?
    ensures FindWriteInfo(xs, q).Some? ==> FindWriteInfo(xs, q).value.buf == FindWriteInfo(ys, q).value.buf
  {
    if xs != [] {
      SameBuffers(xs[1..], ys[1..], q);
    }
  }

  lemma MarkMoves(s: State, r: State)
    requires Ok(s) && s.w.WriterTop?
    requires r.wl == Mark(s.wl) && r.w.Writing? && r.w.returned == [] && r.kv == s.kv && r.h == s.h && r.maps == s.maps
    ensures Ok(r)
  {
    forall q
      ensures ListedId(r.wl, r.w, q) == ListedId(s.wl, s.w, q)
    {
      SameBuffers(Mark(s.wl), s.wl, q);
    }
    RelistMoves(s, r);
  }

  // ------------------------------------------------------------------------------- every step

  lemma CheckWriteStays(c: Config, s: State, r: State)
    requires Ok(s) && s.h.Wait? && s.h.got.None? && r == StepCheckWrite(c, s, s.h.p)
    requires var w := FindWriteInfo(s.wl, s.h.p); w.None? || w.value.inFlight
    ensures Ok(r)
  {
    SameHands(s, r);
  }

  /** A check that finds the page takes it out of the list, and nothing else moves. */
  lemma CheckWriteTakes(c: Config, s: State, r: State, buf: Buffer)
    requires s.h.Wait? && r == StepCheckWrite(c, s, s.h.p)
    requires FindWriteInfo(s.wl, s.h.p).Some? && FindWriteInfo(s.wl, s.h.p).value == WriteInfo(s.h.p, buf, false)
    ensures r.wl == DelWriteInfo(s.wl, s.h.p) && r.kv == s.kv && r.w == s.w && r.maps == s.maps
    ensures HeldOf(r.h) == Some(buf) && FilledOf(r.h) == FilledOf(s.h)
  {
  }

  lemma CheckWriteBuffers(c: Config, s: State, r: State)
    requires Ok(s) && UniqueKeys(s.wl) && WriterOk(c, s.w, s.wl, s.kv)
    requires s.h.Wait? && s.h.stage == CheckWrite && s.h.got.None? && r == StepCheckWrite(c, s, s.h.p)
    ensures Ok(r)
  {
    var w := FindWriteInfo(s.wl, s.h.p);
    if w.Some? && !w.value.inFlight {
      CheckWriteTakes(c, s, r, w.value.buf);
      StealMoves(c, s, r, s.h.p, w.value.buf);
    } else {
      CheckWriteStays(c, s, r);
    }
  }

  lemma RemapBuffers(c: Config, s: State, r: State, outcome: Outcome)
    requires Ok(s) && s.h.Work? && s.h.e.Remap? && r == StepRemap(s, s.h.e.v, s.h.e.retry, s.h.k, outcome)
    ensures Ok(r)
  {
    if outcome == Moved {
      EvictedMoves(s, r, r.h.e.buf);
    } else {
      RetryMoves(s, r);
    }
  }

  lemma EvictedBuffers(c: Config, s: State, m: Memory, r: State)
    requires Ok(s) && Inv(c, s, m) && !c.zeroOpt && s.h.Work? && s.h.e.Evicted? && r == StepEvicted(c, s, s.h.e.v, s.h.e.buf, s.h.k)
    ensures Ok(r)
  {
    if c.threadedWrite {
      PageFacts(c, PlacesOf(s), m, s.h.e.v);
      ListMoves(c, s, r, s.h.e.v, s.h.e.buf);
    } else {
      WriteMoves(s, r, s.h.e.v, s.h.e.buf);
    }
  }

  lemma GoBuffers(c: Config, s: State, r: State)
    requires Ok(s) && s.h.Work? && s.h.e.Go? && r == StepGo(c, s, s.h.k)
    ensures Ok(r)
  {
    if s.h.k.ToBottom? {
      SameHands(s, r);
    } else if s.h.k.ToTrim? {
      TrimMoves(s, r);
    } else {
      SameHands(s, r);
    }
  }

  lemma WorkBuffers(c: Config, s: State, m: Memory, r: State, outcome: Outcome)
    requires Ok(s) && Inv(c, s, m) && !c.zeroOpt && s.h.Work? && r == StepWork(c, s, s.h.e, s.h.k, outcome)
    ensures Ok(r)
  {
    if s.h.e.Go? {
      GoBuffers(c, s, r);
    } else if s.h.e.Remap? {
      RemapBuffers(c, s, r, outcome);
    } else if s.h.e.Evicted? {
      EvictedBuffers(c, s, m, r);
    } else {
      SameHands(s, r);
    }
  }

  lemma WaitBuffers(c: Config, s: State, r: State)
    requires Ok(s) && s.h.Wait? && s.h.stage != CheckWrite && HandlerReady(s) && r == StepWait(c, s, s.h.stage, s.h.p, s.h.got)
    ensures Ok(r)
  {
    SameHands(s, r);
  }

  lemma TopBuffers(c: Config, s: State, r: State, outcome: Outcome)
    requires Ok(s) && (s.h.Idle? || s.h.Top? || s.h.PostTop?) && r == StepHandler(c, s, outcome)
    ensures Ok(r)
  {
    SameHands(s, r);
  }

  lemma HandlerBuffers(c: Config, s: State, m: Memory, r: State, outcome: Outcome)
    requires Ok(s) && Inv(c, s, m) && !c.zeroOpt && HandlerReady(s) && r == StepHandler(c, s, outcome)
    ensures Ok(r)
  {
    if s.h.Work? {
      WorkBuffers(c, s, m, r, outcome);
    } else if s.h.Wait? {
      if s.h.stage == CheckWrite {
        CheckWriteBuffers(c, s, r);
      } else {
        WaitBuffers(c, s, r);
      }
    } else {
      TopBuffers(c, s, r, outcome);
    }
  }

  lemma PauseBuffers(s: State, r: State)
    requires Ok(s) && WriterReady(s) && r == StepWriter(s)
    requires s.w.WriterPost? || s.w.WriterPark? || (s.w.WriterTop? && !WriterHasWork(s)) || (s.w.Writing? && |s.w.returned| >= |s.w.batch|)
    ensures Ok(r)
  {
    Still(LayoutOf(s), LayoutOf(r), s.maps);
  }

  lemma WriterBuffers(c: Config, s: State, m: Memory, r: State)
    requires Ok(s) && Inv(c, s, m) && WriterReady(s) && r == StepWriter(s)
    ensures Ok(r)
  {
    if s.w.WriterTop? && WriterHasWork(s) {
      MarkMoves(s, r);
    } else if s.w.Writing? && |s.w.returned| < |s.w.batch| {
      WritingMoves(s, r, s.w.batch[|s.w.returned|]);
    } else if s.w.Deleting? {
      DeletingMoves(c, s, r);
    } else if s.w.Freeing? {
      FreeingMoves(s, r);
    } else {
      PauseBuffers(s, r);
    }
  }

  lemma ExecBuffers(c: Config, s: State, m: Memory, a: Action, r: State)
    requires Ok(s) && Inv(c, s, m) && !c.zeroOpt && Enabled(c, s, a) && r == Exec(c, s, a)
    ensures Ok(r)
  {
    if a.Handler? {
      HandlerBuffers(c, s, m, r, a.outcome);
    } else if a.Writer? {
      WriterBuffers(c, s, m, r);
    } else {
      SameHands(s, r);
    }
  }

  lemma {:induction false} RunBuffers(c: Config, s: State, m: Memory, acts: seq<Action>)
    requires Safe(c) && !c.zeroOpt && Ok(s) && Inv(c, s, m) && Run(c, s, acts)
    ensures Ok(Final(c, s, acts))
    decreases |acts|
  {
    if acts != [] {
      var r := Exec(c, s, acts[0]);
      ExecKeeps(c, s, m, acts[0], r);
      ExecBuffers(c, s, m, acts[0], r);
      RunBuffers(c, r, Shadow(m, acts[0]), acts[1..]);
    }
  }

  // -------------------------------------------------------------------------- no prefetched pages

  predicate Prefetching(c: Config) {
    c.pageCache && c.prefetch
  }

  /** Nothing was ever prefetched. */
  predicate Unprefetched(s: State) {
    s.pc.cached == [] && s.pc.freed == {} && s.pl == [] && (s.f.PrefetcherTop? || s.f.PrefetcherPark?)
  }

  lemma WaitUnprefetched(c: Config, s: State)
    requires Unprefetched(s) && s.h.Wait? && HandlerReady(s)
    ensures Unprefetched(StepWait(c, s, s.h.stage, s.h.p, s.h.got))
  {
    if s.h.stage == CheckWrite {
      assert Unprefetched(StepCheckWrite(c, s, s.h.p));
    }
  }

  lemma WorkUnprefetched(c: Config, s: State, outcome: Outcome)
    requires !Prefetching(c) && Unprefetched(s) && s.h.Work?
    ensures Unprefetched(StepWork(c, s, s.h.e, s.h.k, outcome))
  {
    if s.h.e.Go? {
      GoUnprefetched(c, s);
    } else if s.h.e.Evicted? {
      assert Unprefetched(StepEvicted(c, s, s.h.e.v, s.h.e.buf, s.h.k));
    }
  }

  lemma ReadUnprefetched(c: Config, kv: Kv, pc: PageCacheState, p: PageId, keys: seq<int>)
    requires !c.prefetch && pc.cached == [] && pc.freed == {}
    ensures var r := ReadCached(c, kv, pc, p, keys).1; r.cached == [] && r.freed == {}
  {
  }

  lemma GoUnprefetched(c: Config, s: State)
    requires !Prefetching(c) && Unprefetched(s)
    requires s.h.Work?
    ensures Unprefetched(StepGo(c, s, s.h.k))
  {
    if s.h.k.ToBottom? && c.pageCache {
      ReadUnprefetched(c, s.kv, s.pc, s.h.k.p, s.reader.keys);
    }
  }

  lemma PrefetcherUnprefetched(c: Config, s: State)
    requires !Prefetching(c) && Unprefetched(s) && Enabled(c, s, Prefetcher)
    ensures Unprefetched(Exec(c, s, Prefetcher))
  {
  }

  lemma ExecUnprefetched(c: Config, s: State, a: Action, r: State)
    requires !Prefetching(c) && Unprefetched(s) && Enabled(c, s, a) && r == Exec(c, s, a)
    ensures Unprefetched(r)
  {
    if a.Handler? {
      if s.h.Wait? {
        WaitUnprefetched(c, s);
      } else if s.h.Work? {
        WorkUnprefetched(c, s, a.outcome);
      }
    } else if a.Prefetcher? {
      PrefetcherUnprefetched(c, s);
    }
  }

  lemma {:induction false} RunUnprefetched(c: Config, s: State, acts: seq<Action>)
    requires !Prefetching(c) && Unprefetched(s) && Run(c, s, acts)
    ensures Unprefetched(Final(c, s, acts))
    decreases |acts|
  {
    if acts != [] {
      ExecUnprefetched(c, s, acts[0], Exec(c, s, acts[0]));
      RunUnprefetched(c, Exec(c, s, acts[0]), acts[1..]);
    }
  }

  // ---------------------------------------------------------------------- borrowed buffers

  predicate Borrows(k: After) {
    k.ToPlace? && k.data.Data? && !k.data.fromList
  }

  /** The data about to be placed is either the handler's own or still the store's. */
  ghost predicate Lent(h: HandlerPc, kv: Kv) {
    h.Work? && Borrows(h.k) ==> h.e.Go? && Lookup(kv, h.k.p) == Some(h.k.data.buf)
  }

  lemma EvictionLends(c: Config, s: State, outcome: Outcome)
    requires s.h.Work? && !s.h.e.Go?
    ensures var r := StepWork(c, s, s.h.e, s.h.k, outcome); r.h.Work? && r.h.k == s.h.k
  {
    if s.h.e.Evicted? {
      assert StepEvicted(c, s, s.h.e.v, s.h.e.buf, s.h.k).pc == s.pc;
    }
  }

  lemma WorkLends(c: Config, s: State, r: State, outcome: Outcome)
    requires Lent(s.h, s.kv) && s.pc.cached == [] && !Prefetching(c) && s.h.Work? && r == StepWork(c, s, s.h.e, s.h.k, outcome)
    ensures Lent(r.h, r.kv)
  {
    if !s.h.e.Go? {
      EvictionLends(c, s, outcome);
    }
  }

  lemma WaitLends(c: Config, s: State, outcome: Outcome)
    requires !s.h.Work? && HandlerReady(s)
    ensures var r := StepHandler(c, s, outcome); !(r.h.Work? && Borrows(r.h.k))
  {
    if s.h.Wait? && s.h.stage == CheckWrite {
      assert var r := StepCheckWrite(c, s, s.h.p); !(r.h.Work? && Borrows(r.h.k));
    }
  }

  lemma WriterLends(c: Config, s: State, m: Memory, r: State)
    requires Lent(s.h, s.kv) && Inv(c, s, m) && WriterReady(s) && r == StepWriter(s)
    ensures Lent(r.h, r.kv)
  {
    if s.w.Writing? && |s.w.returned| < |s.w.batch| {
      assert s.w.batch[|s.w.returned|] in s.w.batch;
    }
  }

  lemma ExecLends(c: Config, s: State, m: Memory, a: Action, r: State)
    requires !Prefetching(c) && Unprefetched(s) && Lent(s.h, s.kv) && Inv(c, s, m) && Enabled(c, s, a) && r == Exec(c, s, a)
    ensures Lent(r.h, r.kv)
  {
    if a.Handler? {
      if s.h.Work? {
        WorkLends(c, s, r, a.outcome);
      } else {
        WaitLends(c, s, a.outcome);
      }
    } else if a.Writer? {
      WriterLends(c, s, m, r);
    }
  }

  lemma {:induction false} RunLends(c: Config, s: State, m: Memory, acts: seq<Action>)
    requires Safe(c) && !Prefetching(c) && Unprefetched(s) && Lent(s.h, s.kv) && Inv(c, s, m) && Run(c, s, acts)
    ensures var r := Final(c, s, acts); Lent(r.h, r.kv)
    decreases |acts|
  {
    if acts != [] {
      var r := Exec(c, s, acts[0]);
      ExecKeeps(c, s, m, acts[0], r);
      ExecUnprefetched(c, s, acts[0], r);
      ExecLends(c, s, m, acts[0], r);
      RunLends(c, r, Shadow(m, acts[0]), acts[1..]);
    }
  }

  // -------------------------------------------------------------------------------- theorems

  /** Every buffer ever mapped is unmapped or in exactly one place, where the page cache counts as
      a place and a freed buffer is in none. */
  ghost predicate Accounted(s: State) {
    && Conserved(LayoutOf(s), s.maps)
    && (forall e, x :: e in s.pc.cached ==> LayoutOf(s)(x) != Some(e.buf.id))
    && (forall id, x :: id in s.pc.freed ==> LayoutOf(s)(x) != Some(id))
  }

  lemma LentIsMapped(s: State)
    requires Ok(s) && Lent(s.h, s.kv) && s.h.Work? && s.h.k.ToPlace? && s.h.k.data.Data?
    ensures s.h.k.data.buf.id !in s.maps.unmapped
  {
    var at := LayoutOf(s);
    if Borrows(s.h.k) {
      assert at(InStore(s.h.k.p)) == Some(s.h.k.data.buf.id);
    } else {
      assert at(Held) == Some(s.h.k.data.buf.id);
    }
  }

  lemma InitOk(c: Config)
    ensures Ok(Init(c)) && Lent(Init(c).h, Init(c).kv) && Unprefetched(Init(c))
  {
  }

  /** The monitor's own unmapping, prefetching or not: on every run each buffer ever mapped is in
      exactly one of the write list, the store, the handler's hands and the writer's hands, or has
      been unmapped. */
  lemma MappingConservation(c: Config, s: State)
    requires Safe(c) && !c.zeroOpt && Reachable(c, s)
    ensures Conserved(LayoutOf(s), s.maps)
  {
    var acts :| Run(c, Init(c), acts) && s == Final(c, Init(c), acts);
    InitInv(c);
    InitOk(c);
    RunBuffers(c, Init(c), map[], acts);
  }

  /** Without prefetching nothing is ever freed behind the store's back. */
  lemma NothingFreed(c: Config, s: State)
    requires !Prefetching(c) && Reachable(c, s)
    ensures s.pc.freed == {} && s.pc.cached == []
  {
    var acts :| Run(c, Init(c), acts) && s == Final(c, Init(c), acts);
    InitOk(c);
    RunUnprefetched(c, Init(c), acts);
  }

  /** Without prefetching, every buffer is accounted for; and a buffer being copied into the
      application is not unmapped meanwhile. */
  lemma BufferConservation(c: Config, s: State)
    requires Safe(c) && !c.zeroOpt && !Prefetching(c) && Reachable(c, s)
    ensures Accounted(s)
    ensures s.h.Work? && s.h.k.ToPlace? && s.h.k.data.Data? ==> s.h.k.data.buf.id !in s.maps.unmapped
  {
    MappingConservation(c, s);
    NothingFreed(c, s);
    var acts :| Run(c, Init(c), acts) && s == Final(c, Init(c), acts);
    InitInv(c);
    InitOk(c);
    RunLends(c, Init(c), map[], acts);
    if s.h.Work? && s.h.k.ToPlace? && s.h.k.data.Data? {
      LentIsMapped(s);
    }
  }
}
