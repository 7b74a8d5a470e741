/** lib/pagecache: which copy of a page is the current one, the cache of prefetched pages, and
    the choice of pages to prefetch. */
module PageCache {
  import opened Pages
  import opened ThreadedIo

  datatype Owner = Application | Cache | ExternRam

  datatype PageInfo = PageInfo(owner: Owner, isZero: bool)

  datatype CacheEntry = CacheEntry(page: PageId, buf: Buffer)

  /** `pagehash`, the cached pages (most recent first) with their bound, and the buffers that were
      given to `free`. */
  datatype PageCacheState = PageCacheState(hash: map<PageId, PageInfo>, cached: seq<CacheEntry>, max: nat, freed: set<nat>)

  function OwnerOf(pc: PageCacheState, p: PageId): (o: Option<PageInfo>) {
    if p in pc.hash then Some(pc.hash[p]) else None
  }

  // -------------------------------------------------------------------------- the cached list

  function CachedKeys(l: seq<CacheEntry>): (ks: set<PageId>) {
    set e | e in l :: e.page
  }

  ghost predicate UniqueCached(l: seq<CacheEntry>) {
    forall i, j :: 0 <= i < j < |l| ==> l[i].page != l[j].page
  }

  function FindCached(l: seq<CacheEntry>, p: PageId): (e: Option<CacheEntry>)
    ensures e.Some? ==> e.value in l && e.value.page == p
    ensures e.Some? <==> p in CachedKeys(l)
  {
    if l == [] then None
    else if l[0].page == p then Some(l[0])
    else FindCached(l[1..], p)
  }

  function EraseCached(l: seq<CacheEntry>, p: PageId): (r: seq<CacheEntry>)
    ensures forall e :: e in r <==> e in l && e.page != p
    ensures |r| <= |l|
  {
    if l == [] then []
    else if l[0].page == p then EraseCached(l[1..], p)
    else [l[0]] + EraseCached(l[1..], p)
  }

  lemma {:induction false} EraseCachedUnique(l: seq<CacheEntry>, p: PageId)
    requires UniqueCached(l)
    ensures UniqueCached(EraseCached(l, p))
    ensures CachedKeys(EraseCached(l, p)) == CachedKeys(l) - {p}
  {
    if l != [] {
      EraseCachedUnique(l[1..], p);
    }
  }

  /** `page_cache_lru_list::insert`: a duplicate keeps its buffer and only moves to the front. */
  function InsertCached(l: seq<CacheEntry>, e: CacheEntry): (r: seq<CacheEntry>) {
    match FindCached(l, e.page)
    case Some(kept) => [kept] + EraseCached(l, e.page)
    case None => [e] + l
  }

  function ModifyCached(l: seq<CacheEntry>, e: CacheEntry): (r: seq<CacheEntry>) {
    seq(|l|, i requires 0 <= i < |l| => if l[i].page == e.page then e else l[i])
  }

  // ------------------------------------------------------------------------------- ownership

  /** `changeOwnership`; a page that is not in `pagehash` is only logged. */
  function ChangeOwnership(pc: PageCacheState, p: PageId, owner: Owner, isZero: bool): (r: PageCacheState) {
    if p in pc.hash then pc.(hash := pc.hash[p := PageInfo(owner, isZero)]) else pc
  }

  /** `updatePageCacheAfterWrite`: an evicted page's current copy is now outside. */
  function UpdateAfterWrite(pc: PageCacheState, p: PageId, zeroPage: bool): (r: PageCacheState) {
    if p in pc.hash && pc.hash[p].owner == Application
    then ChangeOwnership(pc, p, ExternRam, zeroPage) else pc
  }

  /** `updatePageCacheAfterSkippedRead`: a page taken back from the write list. */
  function UpdateAfterSkippedRead(pc: PageCacheState, p: PageId): (r: PageCacheState) {
    if p in pc.hash && pc.hash[p].owner == ExternRam
    then ChangeOwnership(pc, p, Application, false) else pc
  }

  /** The location invariant of the structure itself: the list holds exactly the pages owned by
      the cache, once each. */
  ghost predicate CacheInv(pc: PageCacheState) {
    && UniqueCached(pc.cached)
    && (forall p :: p in CachedKeys(pc.cached) <==> OwnerOf(pc, p).Some? && pc.hash[p].owner == Cache)
  }

  function PopLru(pc: PageCacheState): (r: PageCacheState)
    requires pc.cached != []
  {
    var last := pc.cached[|pc.cached| - 1];
    ChangeOwnership(pc.(cached := pc.cached[..|pc.cached| - 1], freed := pc.freed + {last.buf.id}), last.page, ExternRam, false)
  }

  /** The buffer that an overwritten entry gives up. */
  function Overwritten(l: seq<CacheEntry>, p: PageId): (ids: set<nat>) {
    match FindCached(l, p)
    case Some(e) => {e.buf.id}
    case None => {}
  }

  /** The insertion part of `storePageInPageCache`. */
  function AddPage(pc: PageCacheState, e: CacheEntry): (r: PageCacheState) {
    var hash := pc.hash[e.page := PageInfo(Cache, false)];
    if e.page in pc.hash && e.page in CachedKeys(pc.cached)
    then pc.(hash := hash, cached := ModifyCached(pc.cached, e), freed := pc.freed + Overwritten(pc.cached, e.page))
    else pc.(hash := hash, cached := InsertCached(pc.cached, e))
  }

  /** `storePageInPageCache`. */
  function StorePage(pc: PageCacheState, e: CacheEntry): (r: PageCacheState) {
    var added := AddPage(pc, e);
    if |added.cached| > added.max && added.cached != [] then PopLru(added) else added
  }

  /** `storePagesInPageCache`. */
  function StorePages(pc: PageCacheState, es: seq<CacheEntry>): (r: PageCacheState)
    decreases |es|
  {
    if es == [] then pc else StorePages(StorePage(pc, es[0]), es[1..])
  }

  /** Storing touches only the stored pages and what it pushes out: a page pushed out is owned
      by external memory again, and no cached copy comes from anywhere else. */
  ghost predicate StoreEffect(pc: PageCacheState, es: seq<CacheEntry>, r: PageCacheState) {
    && r.max == pc.max
    && (forall e :: e in r.cached ==> e in pc.cached || e in es)
    && (forall q :: q in CachedKeys(es) ==> OwnerOf(r, q) in {Some(PageInfo(Cache, false)), Some(PageInfo(ExternRam, false))})
    && (forall q :: q !in CachedKeys(es) ==>
          || OwnerOf(r, q) == OwnerOf(pc, q)
          || (OwnerOf(pc, q).Some? && pc.hash[q].owner == Cache && OwnerOf(r, q) == Some(PageInfo(ExternRam, false))))
  }

  lemma AddPageInv(pc: PageCacheState, e: CacheEntry)
    requires CacheInv(pc) && e.page !in CachedKeys(pc.cached)
    ensures CacheInv(AddPage(pc, e)) && AddPage(pc, e).cached == [e] + pc.cached
    ensures CachedKeys(AddPage(pc, e).cached) == CachedKeys(pc.cached) + {e.page} && AddPage(pc, e).freed == pc.freed
  {
    var r := AddPage(pc, e);
    assert FindCached(pc.cached, e.page).None?;
    assert forall x :: x in r.cached <==> x == e || x in pc.cached;
    assert forall x :: x in pc.cached ==> x.page in CachedKeys(pc.cached);
  }

  lemma PopLruInv(pc: PageCacheState)
    requires CacheInv(pc) && pc.cached != []
    ensures CacheInv(PopLru(pc))
    ensures var last := pc.cached[|pc.cached| - 1].page;
      && OwnerOf(PopLru(pc), last) == Some(PageInfo(ExternRam, false))
      && (forall q :: q != last ==> OwnerOf(PopLru(pc), q) == OwnerOf(pc, q))
      && last in CachedKeys(pc.cached)
    ensures forall e :: e in PopLru(pc).cached ==> e in pc.cached
    ensures PopLru(pc).freed == pc.freed + {pc.cached[|pc.cached| - 1].buf.id}
  {
    var n := |pc.cached| - 1;
    var last, rest := pc.cached[n], pc.cached[..n];
    assert pc.cached == rest + [last];
    assert forall e :: e in rest ==> e.page != last.page;
    assert forall e :: e in pc.cached <==> e in rest || e == last;
    assert last.page in CachedKeys(pc.cached);
    assert CachedKeys(rest) == CachedKeys(pc.cached) - {last.page};
  }

  lemma StorePageInv(pc: PageCacheState, e: CacheEntry)
    requires CacheInv(pc) && e.page !in CachedKeys(pc.cached)
    ensures CacheInv(StorePage(pc, e)) && StoreEffect(pc, [e], StorePage(pc, e))
  {
    AddPageInv(pc, e);
    var added := AddPage(pc, e);
    assert CachedKeys([e]) == {e.page};
    if |added.cached| > added.max {
      PopLruInv(added);
    }
  }

  /** Storing distinct pages that are not yet cached keeps the location invariant; the branch
      that overwrites a cached page is never taken. */
  lemma {:induction false} StorePagesInv(pc: PageCacheState, es: seq<CacheEntry>)
    requires UniqueCached(es) && CacheInv(pc)
    requires forall q :: q in CachedKeys(es) ==> q !in CachedKeys(pc.cached)
    ensures CacheInv(StorePages(pc, es)) && StoreEffect(pc, es, StorePages(pc, es))
    decreases |es|
  {
    if es != [] {
      var e, rest := es[0], es[1..];
      assert es == [e] + rest;
      assert e in es && e.page in CachedKeys(es);
      StorePageInv(pc, e);
      var mid := StorePage(pc, e);
      forall q | q in CachedKeys(rest)
        ensures q !in CachedKeys(mid.cached) && q != e.page
      {
        var x :| x in rest && x.page == q;
        assert x in es && q in CachedKeys(es);
      }
      StorePagesInv(mid, rest);
    }
  }

  // ---------------------------------------------------------------------- the prefetch window

  /** The function-local statics of `readPageIfInPageCache_top`. */
  datatype Window = Window(prevAddr: int, numConseqAcc: nat)

  function Advance(w: Window, addr: int): (r: Window) {
    Window(addr, if (w.prevAddr + 4096) % 0x1_0000_0000_0000_0000 == addr then w.numConseqAcc + 1 else 0)
  }

  const NEAREST: nat := 1

  function Ahead(p: PageId, i: nat): (q: PageId) {
    PageId(p.ufd, (p.addr + i * 4096) % 0x1_0000_0000_0000_0000)
  }

  /** What the selection loop looks at besides the page hash. */
  datatype Pending = Pending(writes: set<PageId>, prefetches: seq<PageId>, checkZero: bool)

  predicate Eligible(pc: PageCacheState, pend: Pending, q: PageId) {
    && q in pc.hash && pc.hash[q].owner == ExternRam
    && (pend.checkZero ==> !pc.hash[q].isZero)
    && q !in pend.writes
    && q !in pend.prefetches
  }

  /** The selection loop from iteration `i` on, with `picked` taken so far. */
  function SelectFrom(pc: PageCacheState, pend: Pending, p: PageId, run: nat, size: int, i: nat, picked: seq<PageId>): (r: seq<PageId>)
    requires 1 <= i <= 101
    decreases 101 - i
  {
    if |picked| >= run then picked
    else
      var more := if Eligible(pc, pend, Ahead(p, i)) then picked + [Ahead(p, i)] else picked;
      if |more| >= size || i > 100 then more
      else SelectFrom(pc, pend, p, run, size, i + 1, more)
  }

  function Select(pc: PageCacheState, pend: Pending, p: PageId, run: nat, size: int): (r: seq<PageId>) {
    SelectFrom(pc, pend, p, run, size, NEAREST, [])
  }

  /** What the selection promises: distinct eligible pages ahead of `p`, never `p` itself, no more
      than the run, the configured size (at least one) and the hundred-page horizon allow. */
  ghost predicate SelectionOk(pc: PageCacheState, pend: Pending, p: PageId, last: nat, ks: seq<PageId>) {
    && NoDup(ks) && |ks| <= last
    && (forall q :: q in ks ==> Eligible(pc, pend, q))
    && (forall q :: q in ks ==> exists i: nat :: 1 <= i <= last && q == Ahead(p, i))
  }

  lemma AheadDistinct(p: PageId, i: nat, j: nat)
    requires i < j <= 101
    ensures Ahead(p, i) != Ahead(p, j)
  {
    var a := p.addr + i * 4096;
    var d := (j - i) * 4096;
    assert p.addr + j * 4096 == a + d && 0 < d < 0x1_0000_0000_0000_0000;
  }

  lemma {:induction false} SelectFromOk(pc: PageCacheState, pend: Pending, p: PageId, run: nat, size: int, i: nat, picked: seq<PageId>)
    requires 1 <= i <= 101 && SelectionOk(pc, pend, p, i - 1, picked)
    requires |picked| <= run && (|picked| < size || picked == [])
    ensures var r := SelectFrom(pc, pend, p, run, size, i, picked);
      SelectionOk(pc, pend, p, 101, r) && |r| <= run && |r| <= (if size < 1 then 1 else size)
    decreases 101 - i
  {
    if |picked| < run {
      var next := Ahead(p, i);
      var more := if Eligible(pc, pend, next) then picked + [next] else picked;
      forall q | q in picked
        ensures q != next
      {
        var j: nat :| 1 <= j <= i - 1 && q == Ahead(p, j);
        AheadDistinct(p, j, i);
      }
      assert NoDup(more) by {
        assert next !in picked;
      }
      assert SelectionOk(pc, pend, p, i, more);
      if !(|more| >= size || i > 100) {
        SelectFromOk(pc, pend, p, run, size, i + 1, more);
      }
    }
  }

  /** The window selection, for every page hash, both lists and every run length. */
  lemma SelectOk(pc: PageCacheState, pend: Pending, p: PageId, run: nat, size: int)
    requires 0 <= p.addr < 0x1_0000_0000_0000_0000
    ensures var r := Select(pc, pend, p, run, size);
      && SelectionOk(pc, pend, p, 101, r)
      && |r| <= run && |r| <= (if size < 1 then 1 else size) && |r| + 1 < MAX_MULTI_READ
      && p !in r
  {
    SelectFromOk(pc, pend, p, run, size, NEAREST, []);
    NotSelf(pc, pend, p, Select(pc, pend, p, run, size));
  }

  lemma NotSelf(pc: PageCacheState, pend: Pending, p: PageId, ks: seq<PageId>)
    requires 0 <= p.addr < 0x1_0000_0000_0000_0000 && SelectionOk(pc, pend, p, 101, ks)
    ensures p !in ks
  {
    forall q | q in ks
      ensures q != p
    {
      var j: nat :| 1 <= j <= 101 && q == Ahead(p, j);
      AheadDistinct(p, 0, j);
    }
  }

  /** The eligible pages among the next `n`, in ascending order. */
  function EligibleAhead(pc: PageCacheState, pend: Pending, p: PageId, n: nat): (r: seq<PageId>) {
    if n == 0 then []
    else EligibleAhead(pc, pend, p, n - 1) + (if Eligible(pc, pend, Ahead(p, n)) then [Ahead(p, n)] else [])
  }

  lemma {:induction false} EligiblePrefix(pc: PageCacheState, pend: Pending, p: PageId, n: nat, k: nat)
    requires n <= k
    ensures EligibleAhead(pc, pend, p, n) <= EligibleAhead(pc, pend, p, k)
  {
    if n < k {
      EligiblePrefix(pc, pend, p, n, k - 1);
    }
  }

  function Smaller(a: nat, b: nat): (r: nat) {
    if a < b then a else b
  }

  lemma {:induction false} SelectFromIsFirst(
    pc: PageCacheState, pend: Pending, p: PageId, run: nat, size: nat, i: nat, picked: seq<PageId>, all: seq<PageId>, last: nat)
    requires 1 <= i <= last == 101 && all == EligibleAhead(pc, pend, p, last)
    requires picked == EligibleAhead(pc, pend, p, i - 1) && |picked| <= run && |picked| < size
    ensures SelectFrom(pc, pend, p, run, size, i, picked) == all[..Smaller(Smaller(run, size), |all|)]
    decreases 101 - i
  {
    EligiblePrefix(pc, pend, p, i - 1, last);
    EligiblePrefix(pc, pend, p, i, last);
    if |picked| < run {
      var more := EligibleAhead(pc, pend, p, i);
      assert more == if Eligible(pc, pend, Ahead(p, i)) then picked + [Ahead(p, i)] else picked;
      if |more| < size && i <= 100 {
        SelectFromIsFirst(pc, pend, p, run, size, i + 1, more, all, last);
      }
    }
  }

  /** The loop takes the first eligible pages of the next 101, as many as the run of accesses and
      the configured size allow; a size below one looks at the next page only. */
  lemma SelectIsFirst(pc: PageCacheState, pend: Pending, p: PageId, run: nat, size: int, last: nat)
    requires last == if size < 1 then 1 else 101
    ensures var all := EligibleAhead(pc, pend, p, last);
      Select(pc, pend, p, run, size) == all[..Smaller(Smaller(run, if size < 1 then 1 else size), |all|)]
  {
    if size < 1 {
      assert EligibleAhead(pc, pend, p, last - 1) == [];
    } else {
      SelectFromIsFirst(pc, pend, p, run, size, 1, [], EligibleAhead(pc, pend, p, last), last);
    }
  }
}
