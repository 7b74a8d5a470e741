/** The handler's steps that move a page keep the invariant. */
module MonitorMoves {
  import opened Pages
  import opened LruBuffer
  import opened ThreadedIo
  import opened PageCache
  import opened NoopStore
  import opened Monitor
  import opened MonitorInv
  import opened MonitorSteps

  // ------------------------------------------------------------------ out of the application

  lemma MovedPages(c: Config, l: Places, m: Memory, v: PageId, buf: Buffer)
    requires PagesOk(c, l, m) && v in l.mem && buf.data == l.mem[v] && !Concerns(l.hands.holds, v)
    requires l.hands.evicted.None? && l.hands.flipping.None?
    ensures PagesOk(c, l.(mem := l.mem - {v}, hands := l.hands.(evicted := Some((v, buf)))), m)
  {
    forall q
      ensures PageOk(c, l.(mem := l.mem - {v}, hands := l.hands.(evicted := Some((v, buf)))), Peek(m, q), q)
    {
      PageFacts(c, l, m, q);
    }
  }

  lemma MovedHandler(c: Config, s: State, r: State, buf: Buffer)
    requires HandlerInv(c, s) && s.h.Work? && s.h.e.Remap?
    requires r.mem == s.mem - {s.h.e.v} && r.h == Work(Evicted(s.h.e.v, buf), s.h.k)
    requires r.lru == s.lru && r.lruMax == s.lruMax && r.wl == s.wl && r.pl == s.pl && r.pc == s.pc && r.reader == s.reader
    ensures HandlerInv(c, r)
  {
  }

  /** A successful REMAP puts the victim's content in the handler's hands. */
  lemma MovedKeeps(c: Config, s: State, m: Memory)
    requires Inv(c, s, m) && s.h.Work? && s.h.e.Remap?
    ensures Inv(c, StepRemap(s, s.h.e.v, s.h.e.retry, s.h.k, Moved), m)
  {
    var v, k := s.h.e.v, s.h.k;
    var r := StepRemap(s, v, s.h.e.retry, k, Moved);
    MovedPages(c, PlacesOf(s), m, v, r.h.e.buf);
    MovedHandler(c, s, r, r.h.e.buf);
  }

  // --------------------------------------------------------------- skipped, listed or written

  /** The evicted page leaves the handler's hands: as a known zero page, into the write list, or
      into the store. */
  lemma DroppedPages(c: Config, l: Places, m: Memory, v: PageId, zero: bool, writes: set<PageId>, kv: Kv, flipping: Option<(PageId, bool)>)
    requires PagesOk(c, l, m) && Concerns(l.hands.evicted, v) && l.hands.flipping.None? && v !in l.mem
    requires flipping == Some((v, zero)) || (flipping == None && !c.pageCache)
    requires if zero then c.zeroOpt && c.pageCache && Peek(m, v) == ZeroPage() && writes == l.writes && kv == l.kv
             else (writes == l.writes + {v} && kv == l.kv) || (writes == l.writes && kv == l.kv[v := l.hands.evicted.value.1])
    ensures PagesOk(c, l.(writes := writes, kv := kv, hands := Hands(l.hands.holds, None, flipping)), m)
  {
    forall q
      ensures PageOk(c, l.(writes := writes, kv := kv, hands := Hands(l.hands.holds, None, flipping)), Peek(m, q), q)
    {
      PageFacts(c, l, m, q);
    }
  }

  lemma DroppedHandler(c: Config, s: State, r: State, e: Evicting)
    requires HandlerInv(c, s) && s.h.Work? && s.h.e.Evicted?
    requires r.h == Work(e, s.h.k) && r.mem == s.mem && r.pl == s.pl && r.pc == s.pc && r.reader == s.reader
    requires r.lru == s.lru && r.lruMax == s.lruMax
    requires e.Go? || (e.Listed? && e.v == s.h.e.v) || (e.Flip? && e.v == s.h.e.v && c.pageCache)
    requires WriteKeys(r.wl) == WriteKeys(s.wl) || WriteKeys(r.wl) == WriteKeys(s.wl) + {s.h.e.v}
    requires c.pageCache ==> OwnedBy(s.pc, s.h.e.v, Application, false)
    ensures HandlerInv(c, r)
  {
  }

  lemma AppendWrite(c: Config, w: WriterPc, wl: seq<WriteInfo>, kv: Kv, m: Memory, e: WriteInfo)
    requires WriteListOk(wl, m) && WriterOk(c, w, wl, kv) && c.threadedWrite
    requires e.page !in WriteKeys(wl) && !e.inFlight && e.buf.data == Peek(m, e.page)
    ensures WriteListOk(wl + [e], m) && WriterOk(c, w, wl + [e], kv)
    ensures WriteKeys(wl + [e]) == WriteKeys(wl) + {e.page}
  {
    AddWriteInfoKeys(wl, e);
    assert forall x :: x in wl + [e] <==> x in wl || x == e;
  }

  lemma SkippedKeeps(c: Config, s: State, m: Memory)
    requires Remembers(c) && Inv(c, s, m) && s.h.Work? && s.h.e.Evicted? && c.zeroOpt && s.h.e.buf.data == ZeroPage()
    ensures Inv(c, s.(h := Work(Flip(s.h.e.v, true), s.h.k)), m)
  {
    var v := s.h.e.v;
    PageFacts(c, PlacesOf(s), m, v);
    DroppedPages(c, PlacesOf(s), m, v, true, WriteKeys(s.wl), s.kv, Some((v, true)));
    DroppedHandler(c, s, s.(h := Work(Flip(v, true), s.h.k)), Flip(v, true));
  }

  lemma ListedKeeps(c: Config, s: State, m: Memory, e: Evicting)
    requires Inv(c, s, m) && s.h.Work? && s.h.e.Evicted? && c.threadedWrite
    requires e == Listed(s.h.e.v) || e == AfterWritten(c, s.h.e.v, false)
    ensures Inv(c, s.(wl := s.wl + [WriteInfo(s.h.e.v, s.h.e.buf, false)], h := Work(e, s.h.k)), m)
  {
    var v, entry := s.h.e.v, WriteInfo(s.h.e.v, s.h.e.buf, false);
    PageFacts(c, PlacesOf(s), m, v);
    AppendWrite(c, s.w, s.wl, s.kv, m, entry);
    var r := s.(wl := s.wl + [entry], h := Work(e, s.h.k));
    DroppedPages(c, PlacesOf(s), m, v, false, WriteKeys(r.wl), s.kv, FlippingOf(r.h));
    DroppedHandler(c, s, r, e);
  }

  lemma WrittenKeeps(c: Config, s: State, m: Memory, maps: Mappings)
    requires Inv(c, s, m) && s.h.Work? && s.h.e.Evicted? && !c.threadedWrite
    ensures Inv(c, s.(kv := s.kv[s.h.e.v := s.h.e.buf], maps := maps, h := Work(AfterWritten(c, s.h.e.v, false), s.h.k)), m)
  {
    var v := s.h.e.v;
    var r := s.(kv := s.kv[v := s.h.e.buf], maps := maps, h := Work(AfterWritten(c, v, false), s.h.k));
    PageFacts(c, PlacesOf(s), m, v);
    DroppedPages(c, PlacesOf(s), m, v, false, WriteKeys(s.wl), r.kv, FlippingOf(r.h));
    DroppedHandler(c, s, r, r.h.e);
  }

  lemma EvictedKeeps(c: Config, s: State, m: Memory)
    requires Remembers(c) && Inv(c, s, m) && s.h.Work? && s.h.e.Evicted?
    ensures Inv(c, StepEvicted(c, s, s.h.e.v, s.h.e.buf, s.h.k), m)
  {
    if c.zeroOpt && s.h.e.buf.data == ZeroPage() {
      SkippedKeeps(c, s, m);
    } else if c.threadedWrite {
      var wl := s.wl + [WriteInfo(s.h.e.v, s.h.e.buf, false)];
      ListedKeeps(c, s, m, if s.sync.writerWaiting && |wl| >= WRITE_BATCH_SIZE then Listed(s.h.e.v) else AfterWritten(c, s.h.e.v, false));
    } else {
      WrittenKeeps(c, s, m, s.maps.(unmapped := s.maps.unmapped + FreeId(Lookup(s.kv, s.h.e.v))));
    }
  }

  // ------------------------------------------------------------------------- ownership follows

  /** Without a page cache nothing remains to be flipped. */
  lemma ForgetPages(c: Config, l: Places, m: Memory)
    requires PagesOk(c, l, m) && !c.pageCache
    ensures PagesOk(c, l.(hands := l.hands.(flipping := None)), m)
  {
    forall q
      ensures PageOk(c, l.(hands := l.hands.(flipping := None)), Peek(m, q), q)
    {
      PageFacts(c, l, m, q);
    }
  }

  lemma PostedHandler(c: Config, s: State, r: State)
    requires HandlerInv(c, s) && s.h.Work? && s.h.e.Listed?
    requires r == s.(sync := s.sync.(writerSem := s.sync.writerSem + 1), h := Work(AfterWritten(c, s.h.e.v, false), s.h.k))
    ensures HandlerInv(c, r)
  {
  }

  lemma PostedKeeps(c: Config, s: State, m: Memory)
    requires Inv(c, s, m) && s.h.Work? && s.h.e.Listed?
    ensures Inv(c, s.(sync := s.sync.(writerSem := s.sync.writerSem + 1), h := Work(AfterWritten(c, s.h.e.v, false), s.h.k)), m)
  {
    PostedHandler(c, s, s.(sync := s.sync.(writerSem := s.sync.writerSem + 1), h := Work(AfterWritten(c, s.h.e.v, false), s.h.k)));
    if !c.pageCache {
      ForgetPages(c, PlacesOf(s), m);
    }
  }

  lemma FlippedPage(c: Config, l: Places, content: Content, v: PageId, zero: bool, q: PageId)
    requires PageOk(c, l, content, q) && l.hands.flipping == Some((v, zero)) && l.hands.evicted.None? && !Concerns(l.hands.holds, v)
    requires c.pageCache && OwnedBy(l.pc, v, Application, false)
    ensures PageOk(c, l.(pc := UpdateAfterWrite(l.pc, v, zero), hands := l.hands.(flipping := None)), content, q)
  {
    var pc := UpdateAfterWrite(l.pc, v, zero);
    if q == v {
      assert OwnedBy(pc, v, ExternRam, zero);
    } else {
      assert OwnerOf(pc, q) == OwnerOf(l.pc, q);
    }
  }

  lemma FlippedPages(c: Config, l: Places, m: Memory, v: PageId, zero: bool)
    requires PagesOk(c, l, m) && l.hands.flipping == Some((v, zero)) && l.hands.evicted.None? && !Concerns(l.hands.holds, v)
    requires c.pageCache
    ensures PagesOk(c, l.(pc := UpdateAfterWrite(l.pc, v, zero), hands := l.hands.(flipping := None)), m)
    ensures OwnedBy(l.pc, v, Application, false)
  {
    PageFacts(c, l, m, v);
    forall q
      ensures PageOk(c, l.(pc := UpdateAfterWrite(l.pc, v, zero), hands := l.hands.(flipping := None)), Peek(m, q), q)
    {
      PageFacts(c, l, m, q);
      FlippedPage(c, l, Peek(m, q), v, zero, q);
    }
  }

  lemma FlippedHandler(c: Config, s: State, r: State)
    requires HandlerInv(c, s) && s.h.Work? && s.h.e.Flip? && OwnedBy(s.pc, s.h.e.v, Application, false)
    requires r == s.(pc := UpdateAfterWrite(s.pc, s.h.e.v, s.h.e.zero), h := Work(Go, s.h.k))
    ensures HandlerInv(c, r)
  {
  }

  lemma FlipKeeps(c: Config, s: State, m: Memory)
    requires Inv(c, s, m) && s.h.Work? && s.h.e.Flip?
    ensures Inv(c, s.(pc := UpdateAfterWrite(s.pc, s.h.e.v, s.h.e.zero), h := Work(Go, s.h.k)), m)
  {
    FlippedPages(c, PlacesOf(s), m, s.h.e.v, s.h.e.zero);
    ReownCached(c, s.pc, m, s.h.e.v, ExternRam, s.h.e.zero);
    FlippedHandler(c, s, s.(pc := UpdateAfterWrite(s.pc, s.h.e.v, s.h.e.zero), h := Work(Go, s.h.k)));
  }

  // ---------------------------------------------------------------------- into the application

  lemma PlacedPages(c: Config, l: Places, m: Memory, p: PageId, data: Placed)
    requires PagesOk(c, l, m) && l.hands == Hands(Some((p, data)), None, None)
    ensures PagesOk(c, l.(mem := if p in l.mem then l.mem else l.mem[p := PlacedContent(data)], hands := EMPTY_HANDS), m)
  {
    forall q
      ensures PageOk(c, l.(mem := if p in l.mem then l.mem else l.mem[p := PlacedContent(data)], hands := EMPTY_HANDS), Peek(m, q), q)
    {
      PageFacts(c, l, m, q);
    }
  }

  lemma PlacedHandler(c: Config, s: State, r: State, tmp: Option<Buffer>)
    requires HandlerInv(c, s) && s.h.Work? && s.h.e.Go? && s.h.k.ToPlace?
    requires r.h == Work(if c.asynRead then Go else Insert(s.h.k.p), ToTrim(tmp))
    requires r.lru == s.lru && r.lruMax == s.lruMax && r.wl == s.wl && r.pl == s.pl && r.pc == s.pc && r.reader == s.reader
    requires s.h.k.p in r.mem && forall q :: q in s.mem ==> q in r.mem
    ensures HandlerInv(c, r)
  {
  }

  lemma PlaceKeeps(c: Config, s: State, m: Memory)
    requires Inv(c, s, m) && s.h.Work? && s.h.e.Go? && s.h.k.ToPlace?
    ensures Inv(c, StepPlace(c, s, s.h.k.p, s.h.k.data), m)
  {
    var r := StepPlace(c, s, s.h.k.p, s.h.k.data);
    PlacedPages(c, PlacesOf(s), m, s.h.k.p, s.h.k.data);
    PlacedHandler(c, s, r, r.h.k.tmp);
  }
}
