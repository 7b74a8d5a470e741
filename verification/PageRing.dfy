/** include/buffer_allocator_array.h: the circular array of ready pages, one call at a time. */
module PageRing {
  import opened Pages
  import opened RingMachine

  // ------------------------------------------------------------------------- circular sequences

  /** The slot of the `k`-th page from `cur` on. */
  function Spot(cur: nat, k: nat, capacity: nat): (i: nat)
    requires capacity > 0
    ensures i < capacity
  {
    Slot(cur + k, capacity)
  }

  /** The `num` pages from `cur` on, around the circle. */
  function Around(pages: seq<nat>, cur: nat, num: nat): (r: seq<nat>)
    requires |pages| > 0
    ensures |r| == num && forall k :: 0 <= k < num ==> r[k] == pages[Spot(cur, k, |pages|)]
  {
    seq(num, k requires 0 <= k < num => pages[Spot(cur, k, |pages|)])
  }

  lemma AroundFirst(pages: seq<nat>, cur: nat, num: nat)
    requires cur < |pages| && 1 <= num
    ensures Around(pages, cur, num) == [pages[cur]] + Around(pages, Slot(cur + 1, |pages|), num - 1)
  {
    var c := |pages|;
    forall k: nat | 1 <= k < num
      ensures Spot(cur, k, c) == Spot(Slot(cur + 1, c), k - 1, c)
    {
      SlotOfSlot(cur + 1, k - 1, c);
    }
  }

  lemma AroundExtend(pages: seq<nat>, cur: nat, num: nat, x: nat)
    requires num < |pages|
    ensures Around(pages[Spot(cur, num, |pages|) := x], cur, num + 1) == Around(pages, cur, num) + [x]
  {
    var c := |pages|;
    forall k: nat | k < num
      ensures Spot(cur, k, c) != Spot(cur, num, c)
    {
      SlotDistinct(cur + k, cur + num, c);
    }
  }

  lemma SlotNext(j: nat, capacity: nat)
    requires capacity > 0
    ensures Slot(j + 1, capacity) == if Slot(j, capacity) + 1 == capacity then 0 else Slot(j, capacity) + 1
  {
    if capacity > 1 {
      SlotAdd(j, 1, capacity);
    }
  }

  /** Mappings are numbered in the order they are made. */
  function Fresh(first: nat, n: nat): (r: seq<nat>)
    ensures |r| == n && forall k :: 0 <= k < n ==> r[k] == first + k
  {
    seq(n, k => first + k)
  }

  /** One round of the refill loop. */
  lemma MapOne(pages: seq<nat>, cur: nat, num: nat, was: seq<nat>, first: nat, i: nat, slot: nat)
    requires num + i < |pages| && slot == Spot(cur, num + i, |pages|) && Around(pages, cur, num + i) == was + Fresh(first, i)
    ensures Around(pages[slot := first + i], cur, num + (i + 1)) == was + Fresh(first, i + 1)
    ensures Spot(cur, num + (i + 1), |pages|) == if slot + 1 == |pages| then 0 else slot + 1
  {
    AroundExtend(pages, cur, num + i, first + i);
    SlotNext(cur + (num + i), |pages|);
    assert Fresh(first, i + 1) == Fresh(first, i) + [first + i];
    assert was + Fresh(first, i + 1) == was + Fresh(first, i) + [first + i];
  }

  // ---------------------------------------------------------------------------------- the ring

  class Ring {
    const capacity: nat
    const initBatchSize: nat
    const pages: array<nat>
    var idxCurrent: nat
    var idxLast: nat
    var numInitialized: nat
    var nextMapping: nat

    ghost predicate Valid()
      reads this
    {
      && capacity > 0 && pages.Length == capacity
      && idxCurrent < capacity && numInitialized <= capacity
      && idxLast == Spot(idxCurrent, numInitialized, capacity)
    }

    /** The pages ready to be handed out, in that order. */
    ghost function Ready(): (ps: seq<nat>)
      requires Valid()
      reads this, pages
    {
      Around(pages[..], idxCurrent, numInitialized)
    }

    /** `init_page_buffer`. */
    constructor (size: nat, batch: nat)
      requires size > 0
      ensures Valid() && fresh(pages) && capacity == size && initBatchSize == batch
      ensures nextMapping == size && Ready() == Fresh(0, size)
    {
      capacity, initBatchSize := size, batch;
      pages := new nat[size];
      idxCurrent, idxLast, numInitialized, nextMapping := 0, 0, size, size;
      new;
      var i := 0;
      while i < capacity
        invariant 0 <= i <= capacity && forall k :: 0 <= k < i ==> pages[k] == k
        invariant idxCurrent == 0 && idxLast == 0 && numInitialized == capacity && nextMapping == capacity
      {
        pages[i] := i;
        i := i + 1;
      }
      assert Slot(size, size) == Slot(0, size);
    }

    /** `get_tmp_page`; nothing to return means that the caller waits. */
    method GetTmpPage() returns (page: Option<nat>, signal: bool)
      requires Valid()
      modifies `idxCurrent, `numInitialized
      ensures Valid()
      ensures page.None? <==> old(numInitialized) <= 1
      ensures page.None? ==> Ready() == old(Ready()) && !signal
      ensures page.Some? ==> old(Ready()) == [page.value] + Ready()
      ensures page.Some? ==> (signal <==> capacity - numInitialized >= initBatchSize + 1)
    {
      if numInitialized <= 1 {
        return None, false;
      }
      AroundFirst(pages[..], idxCurrent, numInitialized);
      SlotNext(idxCurrent, capacity);
      SlotOfSlot(idxCurrent + 1, numInitialized - 1, capacity);
      page := Some(pages[idxCurrent]);
      idxCurrent := idxCurrent + 1;
      numInitialized := numInitialized - 1;
      if idxCurrent >= capacity {
        idxCurrent := 0;
      }
      signal := capacity - numInitialized >= initBatchSize + 1;
    }

    /** The refill loop: maps `n` pages behind the ready ones. */
    method MapPages(n: nat)
      requires Valid() && numInitialized + n < capacity
      modifies `nextMapping, pages
      ensures nextMapping == old(nextMapping) + n
      ensures Around(pages[..], idxCurrent, numInitialized + n) == old(Ready()) + Fresh(old(nextMapping), n)
    {
      var idx := idxLast;
      var i := 0;
      while i < n
        invariant 0 <= i <= n && nextMapping == old(nextMapping) + i && 0 <= idx <= capacity
        invariant Spot(idxCurrent, numInitialized + i, capacity) == if idx == capacity then 0 else idx
        invariant Around(pages[..], idxCurrent, numInitialized + i) == old(Ready()) + Fresh(old(nextMapping), i)
      {
        if idx == capacity {
          idx := 0;
        }
        MapOne(pages[..], idxCurrent, numInitialized, old(Ready()), old(nextMapping), i, idx);
        ghost var mapped := pages[..][idx := nextMapping];
        pages[idx] := nextMapping;
        assert pages[..] == mapped;
        nextMapping := nextMapping + 1;
        idx := idx + 1;
        i := i + 1;
      }
    }

    /** `reinit_page_buffer`; false means that the thread waits. */
    method Reinit() returns (filled: bool)
      requires Valid()
      modifies `idxLast, `numInitialized, `nextMapping, pages
      ensures Valid()
      ensures filled <==> capacity - old(numInitialized) - 1 >= initBatchSize
      ensures !filled ==> Ready() == old(Ready()) && nextMapping == old(nextMapping)
      ensures filled ==>
        var n := capacity - old(numInitialized) - 1;
        nextMapping == old(nextMapping) + n && Ready() == old(Ready()) + Fresh(old(nextMapping), n)
    {
      var numToInit := capacity - numInitialized - 1;
      if numToInit < initBatchSize {
        return false;
      }
      MapPages(numToInit);
      SlotAdd(idxCurrent + numInitialized, numToInit, capacity);
      idxLast := idxLast + numToInit;
      if idxLast >= capacity {
        idxLast := idxLast - capacity;
      }
      numInitialized := numInitialized + numToInit;
      filled := true;
    }

    /** `cleanup_page_buffer`: the pages it unmaps. */
    method Cleanup() returns (unmapped: seq<nat>)
      requires Valid()
      ensures unmapped == Ready()
    {
      unmapped := [];
      var idx := idxCurrent;
      var i := 0;
      while i < numInitialized
        invariant 0 <= i <= numInitialized && idx == Spot(idxCurrent, i, capacity)
        invariant |unmapped| == i && forall k :: 0 <= k < i ==> unmapped[k] == Ready()[k]
      {
        SlotNext(idxCurrent + i, capacity);
        unmapped := unmapped + [pages[idx]];
        idx := idx + 1;
        if idx >= capacity {
          idx := 0;
        }
        i := i + 1;
      }
    }
  }
}
