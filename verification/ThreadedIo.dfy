/** include/threaded_io.h: the list of evicted pages waiting to be written and the list of
    pages waiting to be prefetched. Both are uthash tables, that is, sequences in insertion
    order with a lookup by key; `HASH_ADD` does not look for an existing key. */
module ThreadedIo {
  import opened Pages

  const WRITE_BATCH_SIZE: nat := 100
  const MAX_MULTI_READ: nat := 200
  const MAX_MULTI_WRITE: nat := 200

  datatype WriteInfo = WriteInfo(page: PageId, buf: Buffer, inFlight: bool)

  // ------------------------------------------------------------------------- the write list

  function WriteKeys(wl: seq<WriteInfo>): (ks: set<PageId>) {
    set e | e in wl :: e.page
  }

  /** No two entries have the same key. */
  ghost predicate UniqueKeys(wl: seq<WriteInfo>) {
    forall i, j :: 0 <= i < j < |wl| ==> wl[i].page != wl[j].page
  }

  function FindWriteInfo(wl: seq<WriteInfo>, p: PageId): (w: Option<WriteInfo>)
    ensures w.Some? ==> w.value in wl && w.value.page == p
    ensures w.Some? <==> p in WriteKeys(wl)
  {
    if wl == [] then None
    else if wl[0].page == p then Some(wl[0])
    else FindWriteInfo(wl[1..], p)
  }

  /** `del_write_info`: deletes the entry the lookup finds; logs an error if there is none. */
  function DelWriteInfo(wl: seq<WriteInfo>, p: PageId): (r: seq<WriteInfo>)
    ensures |r| == if p in WriteKeys(wl) then |wl| - 1 else |wl|
    ensures forall e :: e in r ==> e in wl
    ensures forall e :: e in wl && e.page != p ==> e in r
  {
    if wl == [] then []
    else if wl[0].page == p then wl[1..]
    else [wl[0]] + DelWriteInfo(wl[1..], p)
  }

  lemma {:induction false} DelWriteInfoUnique(wl: seq<WriteInfo>, p: PageId)
    requires UniqueKeys(wl)
    ensures UniqueKeys(DelWriteInfo(wl, p))
    ensures forall e :: e in DelWriteInfo(wl, p) <==> e in wl && e.page != p
    ensures WriteKeys(DelWriteInfo(wl, p)) == WriteKeys(wl) - {p}
  {
    if wl != [] {
      DelWriteInfoUnique(wl[1..], p);
      assert forall e :: e in wl[1..] ==> e.page != wl[0].page;
      assert forall e :: e in wl <==> e == wl[0] || e in wl[1..];
    }
  }

  lemma AddWriteInfoKeys(wl: seq<WriteInfo>, e: WriteInfo)
    ensures WriteKeys(wl + [e]) == WriteKeys(wl) + {e.page}
    ensures e.page !in WriteKeys(wl) && UniqueKeys(wl) ==> UniqueKeys(wl + [e])
  {
    assert forall x :: x in wl + [e] <==> x in wl || x == e;
  }

  lemma UniqueKeysFind(wl: seq<WriteInfo>, e: WriteInfo)
    requires UniqueKeys(wl) && e in wl
    ensures FindWriteInfo(wl, e.page) == Some(e)
  {
    var w := FindWriteInfo(wl, e.page).value;
    var i :| 0 <= i < |wl| && wl[i] == e;
    var j :| 0 <= j < |wl| && wl[j] == w;
  }

  /** The writer's selection among the first `n` entries: those of the first entry's
      descriptor, in list order, at most `WRITE_BATCH_SIZE` of them. */
  function BatchTo(wl: seq<WriteInfo>, n: nat): (b: seq<WriteInfo>)
    requires n <= |wl|
    ensures |b| <= WRITE_BATCH_SIZE && |b| <= n
  {
    if n == 0 then []
    else
      var b := BatchTo(wl, n - 1);
      if wl[n - 1].page.ufd == wl[0].page.ufd && |b| < WRITE_BATCH_SIZE
      then b + [wl[n - 1].(inFlight := true)] else b
  }

  /** The first `n` entries once the selected ones are marked. */
  function MarkTo(wl: seq<WriteInfo>, n: nat): (r: seq<WriteInfo>)
    requires n <= |wl|
    ensures |r| == n
    ensures forall i :: 0 <= i < n ==> r[i].page == wl[i].page && r[i].buf == wl[i].buf
  {
    if n == 0 then []
    else
      MarkTo(wl, n - 1) +
      [if wl[n - 1].page.ufd == wl[0].page.ufd && |BatchTo(wl, n - 1)| < WRITE_BATCH_SIZE
       then wl[n - 1].(inFlight := true) else wl[n - 1]]
  }

  lemma {:induction false} MarkIsBatch(wl: seq<WriteInfo>, n: nat)
    requires n <= |wl|
    requires forall i :: 0 <= i < |wl| ==> !wl[i].inFlight
    ensures forall e :: e in BatchTo(wl, n) <==> e in MarkTo(wl, n) && e.inFlight
  {
    if n > 0 {
      MarkIsBatch(wl, n - 1);
    }
  }

  lemma {:induction false} BatchUnique(wl: seq<WriteInfo>, n: nat)
    requires n <= |wl| && UniqueKeys(wl)
    ensures UniqueKeys(BatchTo(wl, n))
    ensures forall e :: e in BatchTo(wl, n) ==> e.page.ufd == wl[0].page.ufd
    ensures forall e :: e in BatchTo(wl, n) ==> exists i :: 0 <= i < n && wl[i].page == e.page
  {
    if n > 0 {
      BatchUnique(wl, n - 1);
      assert wl[n - 1].page == wl[n - 1].page;
    }
  }

  /** The whole mark section on a non-empty list: the batch, and the list with it in flight. */
  function Batch(wl: seq<WriteInfo>): (b: seq<WriteInfo>)
    ensures |b| <= WRITE_BATCH_SIZE && |b| <= |wl|
  {
    BatchTo(wl, |wl|)
  }

  function Mark(wl: seq<WriteInfo>): (r: seq<WriteInfo>) {
    MarkTo(wl, |wl|)
  }

  lemma {:induction false} BatchNonEmpty(wl: seq<WriteInfo>, n: nat)
    requires 1 <= n <= |wl|
    ensures |BatchTo(wl, n)| >= 1
  {
    if n > 1 {
      BatchNonEmpty(wl, n - 1);
    } else {
      assert BatchTo(wl, 0) == [];
    }
  }

  /** Marking selects distinct keys of one descriptor; the entries in flight afterwards are
      exactly the batch, and nothing else about the list changes. */
  lemma MarkDiscipline(wl: seq<WriteInfo>)
    requires wl != [] && UniqueKeys(wl) && forall e :: e in wl ==> !e.inFlight
    ensures UniqueKeys(Mark(wl)) && UniqueKeys(Batch(wl)) && Batch(wl) != []
    ensures forall e :: e in Batch(wl) <==> e in Mark(wl) && e.inFlight
    ensures forall e :: e in Batch(wl) ==> e.page.ufd == wl[0].page.ufd
    ensures WriteKeys(Mark(wl)) == WriteKeys(wl) && |Mark(wl)| == |wl|
    ensures forall e :: e in Mark(wl) ==> exists x :: x in wl && x.page == e.page && x.buf == e.buf
    ensures forall e :: e in wl ==> exists x :: x in Mark(wl) && x.page == e.page && x.buf == e.buf
  {
    var r := Mark(wl);
    MarkIsBatch(wl, |wl|);
    BatchUnique(wl, |wl|);
    BatchNonEmpty(wl, |wl|);
    forall e | e in r
      ensures exists x :: x in wl && x.page == e.page && x.buf == e.buf
    {
      var i :| 0 <= i < |r| && r[i] == e;
      assert wl[i] in wl;
    }
    forall e | e in wl
      ensures exists x :: x in r && x.page == e.page && x.buf == e.buf
    {
      var i :| 0 <= i < |wl| && wl[i] == e;
      assert r[i] in r;
    }
  }

  /** The delete section: one `del_write_info` per key of the batch. */
  function DelBatch(wl: seq<WriteInfo>, batch: seq<WriteInfo>): (r: seq<WriteInfo>)
    decreases |batch|
  {
    if batch == [] then wl
    else DelBatch(DelWriteInfo(wl, batch[0].page), batch[1..])
  }

  /** Every delete of the section finds its entry, exactly once: the list shrinks by the whole
      batch and keeps precisely the entries of other keys. */
  lemma {:induction false} DelBatchDiscipline(wl: seq<WriteInfo>, batch: seq<WriteInfo>)
    requires UniqueKeys(wl) && UniqueKeys(batch)
    requires forall e :: e in batch ==> e in wl
    ensures UniqueKeys(DelBatch(wl, batch))
    ensures forall e :: e in DelBatch(wl, batch) <==> e in wl && e !in batch
    ensures WriteKeys(DelBatch(wl, batch)) == WriteKeys(wl) - WriteKeys(batch)
    ensures |DelBatch(wl, batch)| == |wl| - |batch|
    decreases |batch|
  {
    if batch != [] {
      var e0, rest := batch[0], batch[1..];
      var shorter := DelWriteInfo(wl, e0.page);
      assert e0 in wl;
      DelWriteInfoUnique(wl, e0.page);
      assert forall e :: e in rest ==> e in batch && e.page != e0.page;
      DelBatchDiscipline(shorter, rest);
      assert forall e :: e in batch <==> e == e0 || e in rest;
      assert forall e :: e in wl && e.page == e0.page ==> e == e0;
    }
  }

  // ---------------------------------------------------------------------- the prefetch list

  /** `del_prefetch_info`. */
  function DelPrefetchInfo(pl: seq<PageId>, p: PageId): (r: seq<PageId>)
    ensures |r| == if p in pl then |pl| - 1 else |pl|
    ensures forall q :: q in r ==> q in pl
    ensures forall q :: q in pl && q != p ==> q in r
  {
    if pl == [] then []
    else if pl[0] == p then pl[1..]
    else [pl[0]] + DelPrefetchInfo(pl[1..], p)
  }

  lemma {:induction false} DelPrefetchInfoUnique(pl: seq<PageId>, p: PageId)
    requires NoDup(pl)
    ensures NoDup(DelPrefetchInfo(pl, p))
    ensures forall q :: q in DelPrefetchInfo(pl, p) <==> q in pl && q != p
  {
    if pl != [] {
      DelPrefetchInfoUnique(pl[1..], p);
      assert pl[0] !in pl[1..];
    }
  }

  function DelPrefetched(pl: seq<PageId>, keys: seq<PageId>): (r: seq<PageId>)
    decreases |keys|
  {
    if keys == [] then pl
    else DelPrefetched(DelPrefetchInfo(pl, keys[0]), keys[1..])
  }

  lemma {:induction false} DelPrefetchedDiscipline(pl: seq<PageId>, keys: seq<PageId>)
    requires NoDup(pl) && NoDup(keys)
    requires forall q :: q in keys ==> q in pl
    ensures NoDup(DelPrefetched(pl, keys))
    ensures forall q :: q in DelPrefetched(pl, keys) <==> q in pl && q !in keys
    ensures |DelPrefetched(pl, keys)| == |pl| - |keys|
    decreases |keys|
  {
    if keys != [] {
      DelPrefetchInfoUnique(pl, keys[0]);
      assert keys[0] in keys;
      assert forall q :: q in keys[1..] ==> q in keys && q != keys[0];
      DelPrefetchedDiscipline(DelPrefetchInfo(pl, keys[0]), keys[1..]);
    }
  }

  /** The prefetcher's selection among the first `n` keys: those of the first key's
      descriptor, at most `MAX_MULTI_READ`. */
  function PickTo(pl: seq<PageId>, n: nat): (ks: seq<PageId>)
    requires n <= |pl|
    ensures |ks| <= MAX_MULTI_READ
    ensures forall q :: q in ks ==> q in pl[..n] && q.ufd == pl[0].ufd
  {
    if n == 0 then []
    else
      var ks := PickTo(pl, n - 1);
      if pl[n - 1].ufd == pl[0].ufd && |ks| < MAX_MULTI_READ then ks + [pl[n - 1]] else ks
  }

  function Pick(pl: seq<PageId>): (ks: seq<PageId>)
    ensures |ks| <= MAX_MULTI_READ
    ensures forall q :: q in ks ==> q in pl && q.ufd == pl[0].ufd
  {
    PickTo(pl, |pl|)
  }

  lemma {:induction false} PickDiscipline(pl: seq<PageId>, n: nat)
    requires NoDup(pl) && n <= |pl|
    ensures NoDup(PickTo(pl, n))
    ensures n > 0 ==> PickTo(pl, n) != []
  {
    if n > 0 {
      PickDiscipline(pl, n - 1);
      assert pl[n - 1] !in pl[..n - 1];
    }
  }

  // ------------------------------------------------------------------------------ the class

  /** The two global lists, as the threads change them under `list_lock`. */
  class IoLists {
    var writeList: seq<WriteInfo>
    var prefetchList: seq<PageId>

    constructor ()
      ensures writeList == [] && prefetchList == []
    {
      writeList, prefetchList := [], [];
    }

    method AddWriteInfo(p: PageId, buf: Buffer)
      modifies this`writeList
      ensures writeList == old(writeList) + [WriteInfo(p, buf, false)]
    {
      writeList := writeList + [WriteInfo(p, buf, false)];
    }

    /** `extract_page_from_write_list` on what `find_write_info` found: a page that is not in
        flight leaves the list with its buffer. */
    method ExtractPage(p: PageId) returns (buf: Option<Buffer>)
      requires UniqueKeys(writeList)
      modifies this`writeList
      ensures buf.Some? <==> exists e :: e in old(writeList) && e.page == p && !e.inFlight
      ensures buf.Some? ==> WriteInfo(p, buf.value, false) in old(writeList)
      ensures forall e :: e in writeList <==> e in old(writeList) && (buf.None? || e.page != p)
      ensures UniqueKeys(writeList)
    {
      var w := FindWriteInfo(writeList, p);
      buf := None;
      forall e | e in writeList && e.page == p
        ensures w == Some(e)
      {
        UniqueKeysFind(writeList, e);
      }
      if w.Some? && !w.value.inFlight {
        buf := Some(w.value.buf);
        DelWriteInfoUnique(writeList, p);
        writeList := DelWriteInfo(writeList, p);
      }
    }

    /** The writer's mark loop over the list in insertion order. */
    method MarkBatch() returns (batch: seq<WriteInfo>)
      requires writeList != []
      modifies this`writeList
      ensures batch == Batch(old(writeList)) && writeList == Mark(old(writeList))
      ensures |batch| <= MAX_MULTI_WRITE
    {
      var all := writeList;
      var marked: seq<WriteInfo> := [];
      batch := [];
      var i := 0;
      while i < |all|
        invariant 0 <= i <= |all|
        invariant batch == BatchTo(all, i) && marked == MarkTo(all, i)
      {
        var current := all[i];
        if current.page.ufd == all[0].page.ufd && |batch| < WRITE_BATCH_SIZE {
          current := current.(inFlight := true);
          batch := batch + [current];
        }
        marked := marked + [current];
        i := i + 1;
      }
      writeList := marked;
    }

    /** The writer's delete loop. */
    method DeleteBatch(batch: seq<WriteInfo>)
      modifies this`writeList
      ensures writeList == DelBatch(old(writeList), batch)
    {
      var j := 0;
      while j < |batch|
        invariant 0 <= j <= |batch|
        invariant DelBatch(writeList, batch[j..]) == DelBatch(old(writeList), batch)
      {
        assert batch[j..][0] == batch[j] && batch[j..][1..] == batch[j + 1..];
        writeList := DelWriteInfo(writeList, batch[j].page);
        j := j + 1;
      }
    }

    method AddPrefetchInfo(p: PageId)
      modifies this`prefetchList
      ensures prefetchList == old(prefetchList) + [p]
    {
      prefetchList := prefetchList + [p];
    }

    /** The prefetcher's pick loop. */
    method PickBatch() returns (keys: seq<PageId>)
      requires prefetchList != []
      ensures keys == Pick(prefetchList)
    {
      keys := [];
      var i := 0;
      while i < |prefetchList|
        invariant 0 <= i <= |prefetchList|
        invariant keys == PickTo(prefetchList, i)
      {
        if prefetchList[i].ufd == prefetchList[0].ufd && |keys| < MAX_MULTI_READ {
          keys := keys + [prefetchList[i]];
        }
        i := i + 1;
      }
    }

    /** The prefetcher's delete loop. */
    method DeletePrefetched(keys: seq<PageId>)
      modifies this`prefetchList
      ensures prefetchList == DelPrefetched(old(prefetchList), keys)
    {
      var i := 0;
      while i < |keys|
        invariant 0 <= i <= |keys|
        invariant DelPrefetched(prefetchList, keys[i..]) == DelPrefetched(old(prefetchList), keys)
      {
        assert keys[i..][0] == keys[i] && keys[i..][1..] == keys[i + 1..];
        prefetchList := DelPrefetchInfo(prefetchList, keys[i]);
        i := i + 1;
      }
    }
  }
}
