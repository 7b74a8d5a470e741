/** lib/pagecache/PageCacheImpl.cc: the tables as the methods change them, proved against the
    functions of `PageCache`, and what the window's counter means. */
module PageCacheTables {
  import opened Pages
  import opened ThreadedIo
  import opened PageCache
  import opened NoopStore
  import opened Monitor
  import opened MonitorSteps

  // ------------------------------------------------------------------------- the access window

  function WindowAfter(addrs: seq<int>): (w: Window)
    decreases |addrs|
  {
    if addrs == [] then Window(0, 0)
    else Advance(WindowAfter(addrs[..|addrs| - 1]), addrs[|addrs| - 1])
  }

  /** The access before access `k`; the window starts at address zero. */
  function Previous(addrs: seq<int>, k: nat): (a: int)
    requires k < |addrs|
  {
    if k == 0 then 0 else addrs[k - 1]
  }

  predicate Consecutive(addrs: seq<int>, k: nat)
    requires k < |addrs|
  {
    addrs[k] == (Previous(addrs, k) + 4096) % 0x1_0000_0000_0000_0000
  }

  /** Each of the last `n` accesses is to the page after the one before it. */
  ghost predicate EndsInRun(addrs: seq<int>, n: nat) {
    n <= |addrs| && forall k :: |addrs| - n <= k < |addrs| ==> Consecutive(addrs, k)
  }

  /** The counter is the length of the longest run of consecutive pages the accesses end in. */
  lemma {:induction false} WindowCountsRun(addrs: seq<int>)
    ensures var n := WindowAfter(addrs).numConseqAcc;
      EndsInRun(addrs, n) && forall k :: n < k <= |addrs| ==> !EndsInRun(addrs, k)
    ensures addrs != [] ==> WindowAfter(addrs).prevAddr == addrs[|addrs| - 1]
    decreases |addrs|
  {
    if addrs != [] {
      var last := |addrs| - 1;
      var before := addrs[..last];
      WindowCountsRun(before);
      var n := WindowAfter(before).numConseqAcc;
      assert forall k :: 0 <= k < last ==> Consecutive(before, k) == Consecutive(addrs, k);
      assert WindowAfter(before).prevAddr == Previous(addrs, last);
      if Consecutive(addrs, last) {
        assert EndsInRun(addrs, n + 1);
        forall k | n + 1 < k <= |addrs|
          ensures !EndsInRun(addrs, k)
        {
          assert !EndsInRun(before, k - 1);
        }
      } else {
        forall k | 0 < k <= |addrs|
          ensures !EndsInRun(addrs, k)
        {
          assert |addrs| - k <= last < |addrs|;
        }
      }
    }
  }

  // ------------------------------------------------------------------------------- the tables

  class Tables {
    var pagehash: map<PageId, PageInfo>
    var pages: seq<CacheEntry>
    const maxItems: nat
    ghost var freed: set<nat>
    var prevAddr: int
    var numConseqAcc: nat
    const keysForMread: array<int>
    var numPrefetch: nat

    ghost predicate Valid() {
      keysForMread.Length == MAX_MULTI_READ
    }

    ghost function Contents(): (pc: PageCacheState)
      reads `pagehash, `pages, `freed
    {
      PageCacheState(pagehash, pages, maxItems, freed)
    }

    /** The keys that the last preparation left. */
    ghost function Keys(): (keys: seq<int>)
      requires Valid() && numPrefetch < MAX_MULTI_READ
      reads `numPrefetch, keysForMread
    {
      keysForMread[..numPrefetch + 1]
    }

    constructor (pageCacheSize: nat)
      ensures Valid() && fresh(keysForMread)
      ensures Contents() == PageCacheState(map[], [], pageCacheSize, {}) && Window(prevAddr, numConseqAcc) == WindowAfter([])
    {
      pagehash, pages, maxItems, freed := map[], [], pageCacheSize, {};
      prevAddr, numConseqAcc, numPrefetch := 0, 0, 0;
      keysForMread := new int[MAX_MULTI_READ];
    }

    method AdvanceWindow(addr: int)
      modifies `prevAddr, `numConseqAcc
      ensures Window(prevAddr, numConseqAcc) == Advance(old(Window(prevAddr, numConseqAcc)), addr)
    {
      if (prevAddr + 4096) % 0x1_0000_0000_0000_0000 == addr {
        numConseqAcc := numConseqAcc + 1;
      } else {
        numConseqAcc := 0;
      }
      prevAddr := addr;
    }

    /** The selection loop: the faulting page and then the selected ones, never past the array. */
    method SelectKeys(p: PageId, pend: Pending, prefetchSize: int)
      requires Valid() && 0 <= p.addr < 0x1_0000_0000_0000_0000
      modifies `numPrefetch, keysForMread
      ensures var keys := Select(Contents(), pend, p, numConseqAcc, prefetchSize);
        && numPrefetch == |keys| < MAX_MULTI_READ - 1
        && keysForMread[0] == p.addr && forall j :: 0 <= j < numPrefetch ==> keysForMread[j + 1] == keys[j].addr
    {
      ghost var pc, keys := Contents(), Select(Contents(), pend, p, numConseqAcc, prefetchSize);
      var i := NEAREST;
      numPrefetch := 0;
      keysForMread[0] := p.addr;
      ghost var picked: seq<PageId> := [];
      while numPrefetch < numConseqAcc
        invariant 1 <= i <= 101 && |picked| == numPrefetch < i
        invariant keysForMread[0] == p.addr && forall j :: 0 <= j < numPrefetch ==> keysForMread[j + 1] == picked[j].addr
        invariant SelectFrom(pc, pend, p, numConseqAcc, prefetchSize, i, picked) == keys
        decreases 101 - i
      {
        var test := Ahead(p, i);
        ghost var more := if Eligible(pc, pend, test) then picked + [test] else picked;
        if test in pagehash && pagehash[test].owner == ExternRam && (pend.checkZero ==> !pagehash[test].isZero)
           && test !in pend.writes && test !in pend.prefetches {
          keysForMread[numPrefetch + 1] := test.addr;
          numPrefetch := numPrefetch + 1;
        }
        picked := more;
        if numPrefetch >= prefetchSize || i > 100 {
          break;
        }
        i := i + 1;
      }
      assert picked == keys;
    }

    /** `readPageIfInPageCache_top`: the window advances, and a miss on a stored page prepares the
        inline multi-read, or puts the selected pages on the prefetch list. */
    method ReadTop(c: Config, lists: IoLists, p: PageId) returns (miss: bool)
      requires Valid() && 0 <= p.addr < 0x1_0000_0000_0000_0000
      modifies `prevAddr, `numConseqAcc, `numPrefetch, keysForMread, lists`prefetchList
      ensures Window(prevAddr, numConseqAcc) == Advance(old(Window(prevAddr, numConseqAcc)), p.addr)
      ensures miss == Prefetches(c, Contents(), p)
      ensures var pend := Pending(WriteKeys(lists.writeList), old(lists.prefetchList), c.zeroOpt);
        var keys := if miss then Select(Contents(), pend, p, numConseqAcc, c.prefetchSize) else [];
        && lists.prefetchList == (if c.threadedPrefetch then old(lists.prefetchList) + keys else old(lists.prefetchList))
        && (miss ==> numPrefetch < MAX_MULTI_READ && Keys() == [p.addr] + Addrs(keys))
        && (!miss ==> numPrefetch == old(numPrefetch) && keysForMread[..] == old(keysForMread[..]))
    {
      AdvanceWindow(p.addr);
      miss := Prefetches(c, PageCacheState(pagehash, pages, maxItems, {}), p);
      if miss {
        var pend := Pending(WriteKeys(lists.writeList), lists.prefetchList, c.zeroOpt);
        SelectKeys(p, pend, c.prefetchSize);
        ghost var keys := Select(Contents(), pend, p, numConseqAcc, c.prefetchSize);
        assert Keys() == [p.addr] + Addrs(keys);
        if c.threadedPrefetch {
          SelectOk(Contents(), pend, p, numConseqAcc, c.prefetchSize);
          KeysBack(p.ufd, keys);
          assert keysForMread[1..numPrefetch + 1] == Addrs(keys);
          ListKeys(lists, p.ufd);
        }
      }
    }

    /** The selected pages go to the prefetch list. */
    method ListKeys(lists: IoLists, ufd: int)
      requires Valid() && numPrefetch < MAX_MULTI_READ
      modifies lists`prefetchList
      ensures lists.prefetchList == old(lists.prefetchList) + KeyPages(ufd, keysForMread[1..numPrefetch + 1])
    {
      var i := 0;
      while i < numPrefetch
        invariant 0 <= i <= numPrefetch && lists.prefetchList == old(lists.prefetchList) + KeyPages(ufd, keysForMread[1..i + 1])
      {
        lists.AddPrefetchInfo(PageId(ufd, keysForMread[i + 1]));
        i := i + 1;
      }
    }

    method UpdateAfterWrite(p: PageId, zeroPage: bool)
      modifies `pagehash
      ensures Contents() == PageCache.UpdateAfterWrite(old(Contents()), p, zeroPage)
    {
      if p in pagehash && pagehash[p].owner == Application {
        pagehash := pagehash[p := PageInfo(ExternRam, zeroPage)];
      }
    }

    method UpdateAfterSkippedRead(p: PageId)
      modifies `pagehash
      ensures Contents() == PageCache.UpdateAfterSkippedRead(old(Contents()), p)
    {
      if p in pagehash && pagehash[p].owner == ExternRam {
        pagehash := pagehash[p := PageInfo(Application, false)];
      }
    }

    method PopLru()
      requires pages != []
      modifies `pagehash, `pages, `freed
      ensures Contents() == PageCache.PopLru(old(Contents()))
    {
      var last := pages[|pages| - 1];
      freed := freed + {last.buf.id};
      pages := pages[..|pages| - 1];
      if last.page in pagehash {
        pagehash := pagehash[last.page := PageInfo(ExternRam, false)];
      }
    }

    method StorePage(e: CacheEntry)
      modifies `pagehash, `pages, `freed
      ensures Contents() == PageCache.StorePage(old(Contents()), e)
    {
      if e.page in pagehash && FindCached(pages, e.page).Some? {
        freed := freed + Overwritten(pages, e.page);
        pages := ModifyCached(pages, e);
      } else {
        pages := InsertCached(pages, e);
      }
      pagehash := pagehash[e.page := PageInfo(Cache, false)];
      if |pages| > maxItems && pages != [] {
        PopLru();
      }
    }

    method StorePages(es: seq<CacheEntry>)
      modifies `pagehash, `pages, `freed
      ensures Contents() == PageCache.StorePages(old(Contents()), es)
    {
      var i := 0;
      while i < |es|
        invariant 0 <= i <= |es|
        invariant PageCache.StorePages(Contents(), es[i..]) == PageCache.StorePages(old(Contents()), es)
      {
        assert es[i..][0] == es[i] && es[i..][1..] == es[i + 1..];
        StorePage(es[i]);
        i := i + 1;
      }
    }

    /** `changeOwnershipWithItr` on the entry of a page that is handed to the application. */
    method Grant(p: PageId)
      modifies `pagehash
      ensures Contents() == ChangeOwnership(old(Contents()), p, Application, false)
    {
      if p in pagehash {
        pagehash := pagehash[p := PageInfo(Application, false)];
      }
    }

    method ReadOne(client: Client, p: PageId) returns (data: Placed)
      ensures data == ReadStore(client.kv, p)
    {
      var value, length := client.Read(p);
      data := if length == PAGE_SIZE then Data(value.value, false) else ZeroFill;
    }

    /** The inline multi-read: whatever the keys are, key 0 counts as the faulting page and the
        others enter the cache. */
    method ReadMany(client: Client, p: PageId) returns (data: Placed)
      requires Valid() && numPrefetch < MAX_MULTI_READ
      modifies `pagehash, `pages, `freed
      ensures (data, Contents()) == ReadKeys(client.kv, old(Contents()), p, Keys())
    {
      var keys := KeyPages(p.ufd, keysForMread[..numPrefetch + 1]);
      var bufs, found := client.MultiRead(keys);
      assert keys[1..] == KeyPages(p.ufd, Keys()[1..]);
      assert bufs[1..] == ReadAll(client.kv, keys[1..]);
      if bufs[0].Some? {
        data := Data(bufs[0].value, false);
        Grant(p);
      } else {
        data := ZeroFill;
      }
      StorePages(Entries(keys[1..], bufs[1..]));
    }

    /** `readPageIfInPageCache_bottom`: in place what the machine's step computes. */
    method ReadBottom(c: Config, client: Client, p: PageId) returns (data: Placed)
      requires Valid() && numPrefetch < MAX_MULTI_READ
      modifies `pagehash, `pages, `freed
      ensures (data, Contents()) == ReadCached(c, client.kv, old(Contents()), p, Keys())
    {
      data := ZeroFill;
      if p !in pagehash {
        pagehash := pagehash[p := PageInfo(Application, false)];
      } else if pagehash[p].owner == Cache {
        var found := FindCached(pages, p);
        if found.Some? {
          data := Data(found.value.buf, false);
        }
        pages := EraseCached(pages, p);
        Grant(p);
      } else if pagehash[p].owner == ExternRam {
        if c.zeroOpt && pagehash[p].isZero {
          Grant(p);
        } else if !c.prefetch || c.threadedPrefetch {
          data := ReadOne(client, p);
          Grant(p);
        } else {
          data := ReadMany(client, p);
        }
      }
    }
  }
}
