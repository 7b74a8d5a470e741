/** patches/kernel/old/4.13/0003: remap_pages, which moves anonymous pages between two ranges by
    moving page-table entries, a huge page at a time where it can. */
module Remap {
  import opened Pages

  // ---------------------------------------------------------------------------- address spaces

  /** Addresses are counted in pages: every address and length the loop handles is aligned. */
  const HUGE: nat := 512

  /** The region of one huge page that an address is in. */
  function Region(a: int): (b: int) {
    a / 512
  }

  /** The page mapped at each address. */
  type Table = int -> Option<nat>

  /** Every page is mapped through a table of small pages or as part of a huge page. */
  ghost predicate Mapped(pages: Table, tables: set<int>, huge: set<int>) {
    forall a :: pages(a).Some? ==> Region(a) in tables || Region(a) in huge
  }

  /** A huge page has all its pages. */
  ghost predicate Full(pages: Table, huge: set<int>) {
    forall a :: Region(a) in huge ==> pages(a).Some?
  }

  /** The page tables of one address space: the pages mapped, the regions that have a directory
      entry, those with a table of small pages and those mapped huge. */
  class Mm {
    var pages: Table
    var dirs: set<int>
    var tables: set<int>
    var huge: set<int>

    ghost predicate Valid()
      reads this
    {
      tables !! huge && tables <= dirs && huge <= dirs && Mapped(pages, tables, huge) && Full(pages, huge)
    }
  }

  // ------------------------------------------------------------------------- what has been moved

  predicate In(a: int, start: int, n: int) {
    start <= a < start + n
  }

  /** The two ranges, and whether they are in the same address space. */
  datatype Job = Job(srcStart: int, dstStart: int, len: int, same: bool)

  ghost predicate Disjoint(j: Job) {
    j.same ==> j.srcStart + j.len <= j.dstStart || j.dstStart + j.len <= j.srcStart
  }

  /** What the source's space maps at `a` once the first `n` pages have moved. */
  function SrcAt(j: Job, s: Table, n: int, a: int): (p: Option<nat>) {
    if In(a, j.srcStart, n) then None
    else if j.same && In(a, j.dstStart, n) then s(a - j.dstStart + j.srcStart)
    else s(a)
  }

  function DstAt(j: Job, s: Table, d: Table, n: int, a: int): (p: Option<nat>) {
    if In(a, j.dstStart, n) then s(a - j.dstStart + j.srcStart)
    else if j.same && In(a, j.srcStart, n) then None
    else d(a)
  }

  /** Exactly the first `n` pages of the source range have moved, holes staying holes: from `s`
      and `d` before, to `p` and `q` now. Where they went there was nothing. */
  ghost predicate Moved(j: Job, s: Table, d: Table, n: int, p: Table, q: Table) {
    && (j.same ==> s == d && p == q)
    && (forall a :: p(a) == SrcAt(j, s, n, a))
    && (forall a :: q(a) == DstAt(j, s, d, n, a))
    && (forall a :: In(a, j.dstStart, n) ==> d(a).None?)
  }

  /** Nothing is mapped in the `k` pages from `start` on. */
  ghost predicate Clear(q: Table, start: int, k: int) {
    forall a :: In(a, start, k) ==> q(a).None?
  }

  /** Clearing the entries of `k` pages from `start` on. */
  function Cut(p: Table, start: int, k: int): (r: Table) {
    a => if In(a, start, k) then None else p(a)
  }

  /** Setting in `q` the entries that `p` has for `k` pages from `start` on, `delta` further. */
  function Paste(q: Table, p: Table, start: int, k: int, delta: int): (r: Table) {
    a => if In(a, start + delta, k) then p(a - delta) else q(a)
  }

  /** One more stretch of `k` pages moves between two address spaces. */
  lemma MoveAcross(j: Job, s: Table, d: Table, n: int, p: Table, q: Table, k: int)
    requires !j.same && 0 <= n && 0 <= k && Moved(j, s, d, n, p, q) && Clear(q, j.dstStart + n, k)
    ensures Moved(j, s, d, n + k, Cut(p, j.srcStart + n, k), Paste(q, p, j.srcStart + n, k, j.dstStart - j.srcStart))
  {
    var p1, q1 := Cut(p, j.srcStart + n, k), Paste(q, p, j.srcStart + n, k, j.dstStart - j.srcStart);
    forall a
      ensures p1(a) == SrcAt(j, s, n + k, a)
    {
      assert p(a) == SrcAt(j, s, n, a);
    }
    forall a
      ensures q1(a) == DstAt(j, s, d, n + k, a)
      ensures In(a, j.dstStart, n + k) ==> d(a).None?
    {
      assert q(a) == DstAt(j, s, d, n, a);
      assert p(a - (j.dstStart - j.srcStart)) == SrcAt(j, s, n, a - (j.dstStart - j.srcStart));
    }
    assert !j.same;
  }

  /** Within one space: first the source's entries go, then the destination's come. */
  lemma WithinOne(j: Job, s: Table, n: int, k: int, a: int)
    requires j.same && Disjoint(j) && 0 <= n && 0 <= k && n + k <= j.len
    ensures SrcAt(j, s, n + k, a) == DstAt(j, s, s, n + k, a)
    ensures SrcAt(j, s, n + k, a) ==
      if In(a, j.dstStart + n, k) then SrcAt(j, s, n, a - (j.dstStart - j.srcStart))
      else if In(a, j.srcStart + n, k) then None
      else SrcAt(j, s, n, a)
  {
  }

  /** One more stretch moves within one address space. */
  lemma MoveWithin(j: Job, s: Table, n: int, p: Table, k: int)
    requires j.same && Disjoint(j) && 0 <= n && 0 <= k && n + k <= j.len && Moved(j, s, s, n, p, p) && Clear(p, j.dstStart + n, k)
    ensures var r := Paste(Cut(p, j.srcStart + n, k), p, j.srcStart + n, k, j.dstStart - j.srcStart); Moved(j, s, s, n + k, r, r)
  {
    var r := Paste(Cut(p, j.srcStart + n, k), p, j.srcStart + n, k, j.dstStart - j.srcStart);
    forall a
      ensures r(a) == SrcAt(j, s, n + k, a) == DstAt(j, s, s, n + k, a)
    {
      WithinOne(j, s, n, k, a);
    }
    forall a | In(a, j.dstStart, n + k)
      ensures s(a).None?
    {
      assert p(a) == SrcAt(j, s, n, a);
    }
  }

  // ------------------------------------------------------------------------------- one iteration

  const EINTR: int := 4
  const ENOENT: int := 2
  const EAGAIN: int := 11
  const ENOMEM: int := 12
  const EFAULT: int := 14
  const EBUSY: int := 16
  const EEXIST: int := 17
  const EINVAL: int := 22

  datatype HugeTrouble = HugeFine | HugeBusy | HugeAgain

  datatype Trouble = Fine | Busy | Again | Fault

  /** What happens around one iteration: allocations that fail, tables that change under it,
      pages that are shared or in motion, a fatal signal. */
  datatype Event = Event(
    noSrcDir: bool, noDstDir: bool, noSrcTable: bool, noDstTable: bool,
    unstable: bool, hugeDst: bool, huge: HugeTrouble, small: Trouble, signal: bool)

  const QUIET: Event := Event(false, false, false, false, false, false, HugeFine, Fine, false)

  /** The page tables as the loop has them after `n` pages. */
  ghost predicate Consistent(j: Job, src: Mm, dst: Mm, s: Table, d: Table, n: int)
    reads src, dst
  {
    && src.Valid() && dst.Valid() && (src == dst <==> j.same) && Disjoint(j)
    && 0 <= n <= j.len && Moved(j, s, d, n, src.pages, dst.pages)
  }

  /** The entries of `k` pages leave one table and come into the other, or the same. */
  function SrcAfter(j: Job, p: Table, n: int, k: int): (r: Table) {
    var c := Cut(p, j.srcStart + n, k);
    if j.same then Paste(c, p, j.srcStart + n, k, j.dstStart - j.srcStart) else c
  }

  function DstAfter(j: Job, p: Table, q: Table, n: int, k: int): (r: Table) {
    if j.same then SrcAfter(j, p, n, k) else Paste(q, p, j.srcStart + n, k, j.dstStart - j.srcStart)
  }

  lemma StretchMoves(j: Job, s: Table, d: Table, n: nat, p: Table, q: Table, k: nat)
    requires Disjoint(j) && n + k <= j.len && Moved(j, s, d, n, p, q) && Clear(q, j.dstStart + n, k)
    ensures Moved(j, s, d, n + k, SrcAfter(j, p, n, k), DstAfter(j, p, q, n, k))
  {
    if j.same {
      MoveWithin(j, s, n, p, k);
    } else {
      MoveAcross(j, s, d, n, p, q, k);
    }
  }

  /** Moves the entries of `k` pages. */
  method MoveStretch(j: Job, src: Mm, dst: Mm, n: nat, k: nat)
    requires src == dst <==> j.same
    modifies src`pages, dst`pages
    ensures src.pages == old(SrcAfter(j, src.pages, n, k)) && dst.pages == old(DstAfter(j, src.pages, dst.pages, n, k))
  {
    var p := src.pages;
    src.pages := Cut(p, j.srcStart + n, k);
    dst.pages := Paste(dst.pages, p, j.srcStart + n, k, j.dstStart - j.srcStart);
  }

  // ------------------------------------------------------------------------------- a huge page

  lemma PasteHuge(q: Table, p: Table, tables: set<int>, huge: set<int>, from: int, to: int)
    requires Mapped(q, tables, huge) && Full(q, huge) && from % 512 == 0 && to % 512 == 0
    requires forall a :: Region(a) == Region(from) ==> p(a).Some?
    ensures var r := Paste(q, p, from, HUGE, to - from);
      Mapped(r, tables, huge + {Region(to)}) && Full(r, huge + {Region(to)})
  {
    var r := Paste(q, p, from, HUGE, to - from);
    forall a
      ensures r(a).Some? <==> q(a).Some? || Region(a) == Region(to)
    {
    }
  }

  /** The tables after a huge page moved between two spaces, or within one. */
  lemma HugeAcross(j: Job, p: Table, q: Table, n: int, src: (set<int>, set<int>), dst: (set<int>, set<int>))
    requires !j.same && (j.srcStart + n) % 512 == 0 && (j.dstStart + n) % 512 == 0 && Region(j.srcStart + n) in src.1
    requires Mapped(p, src.0, src.1) && Full(p, src.1) && Mapped(q, dst.0, dst.1) && Full(q, dst.1)
    ensures var p1, left := SrcAfter(j, p, n, HUGE), src.1 - {Region(j.srcStart + n)}; Mapped(p1, src.0, left) && Full(p1, left)
    ensures var q1, more := DstAfter(j, p, q, n, HUGE), dst.1 + {Region(j.dstStart + n)}; Mapped(q1, dst.0, more) && Full(q1, more)
  {
    PasteHuge(q, p, dst.0, dst.1, j.srcStart + n, j.dstStart + n);
  }

  lemma HugeWithin(j: Job, p: Table, n: int, tables: set<int>, huge: set<int>)
    requires j.same && (j.srcStart + n) % 512 == 0 && (j.dstStart + n) % 512 == 0 && Region(j.srcStart + n) in huge
    requires Mapped(p, tables, huge) && Full(p, huge)
    ensures var p1, now := SrcAfter(j, p, n, HUGE), huge - {Region(j.srcStart + n)} + {Region(j.dstStart + n)};
      Mapped(p1, tables, now) && Full(p1, now)
  {
    var from := j.srcStart + n;
    PasteHuge(Cut(p, from, HUGE), p, tables, huge - {Region(from)}, from, j.dstStart + n);
  }

  method MoveHugeWithin(j: Job, mm: Mm, ghost s: Table, n: nat)
    requires Consistent(j, mm, mm, s, s, n) && n + HUGE <= j.len
    requires (j.srcStart + n) % 512 == 0 && (j.dstStart + n) % 512 == 0
    requires Region(j.srcStart + n) in mm.huge && Region(j.dstStart + n) in mm.dirs - mm.tables - mm.huge
    modifies mm
    ensures Consistent(j, mm, mm, s, s, n + HUGE) && mm.huge <= old(mm.huge) + {Region(j.dstStart + n)}
  {
    StretchMoves(j, s, s, n, mm.pages, mm.pages, HUGE);
    HugeWithin(j, mm.pages, n, mm.tables, mm.huge);
    MoveStretch(j, mm, mm, n, HUGE);
    mm.huge := mm.huge - {Region(j.srcStart + n)} + {Region(j.dstStart + n)};
  }

  method MoveHugeAcross(j: Job, src: Mm, dst: Mm, ghost s: Table, ghost d: Table, n: nat)
    requires Consistent(j, src, dst, s, d, n) && n + HUGE <= j.len && src != dst
    requires (j.srcStart + n) % 512 == 0 && (j.dstStart + n) % 512 == 0
    requires Region(j.srcStart + n) in src.huge && Region(j.dstStart + n) in dst.dirs - dst.tables - dst.huge
    modifies src, dst
    ensures Consistent(j, src, dst, s, d, n + HUGE) && dst.huge <= old(dst.huge) + {Region(j.dstStart + n)}
  {
    StretchMoves(j, s, d, n, src.pages, dst.pages, HUGE);
    HugeAcross(j, src.pages, dst.pages, n, (src.tables, src.huge), (dst.tables, dst.huge));
    MoveStretch(j, src, dst, n, HUGE);
    src.huge := src.huge - {Region(j.srcStart + n)};
    dst.huge := dst.huge + {Region(j.dstStart + n)};
  }

  /** `remap_pages_huge_pmd`: one huge page, whole. */
  method HugeStep(j: Job, src: Mm, dst: Mm, ghost s: Table, ghost d: Table, n: nat, trouble: HugeTrouble) returns (err: int, now: nat)
    requires Consistent(j, src, dst, s, d, n) && n + HUGE <= j.len
    requires (j.srcStart + n) % 512 == 0 && (j.dstStart + n) % 512 == 0
    requires Region(j.srcStart + n) in src.huge && Region(j.dstStart + n) in dst.dirs - dst.tables - dst.huge
    modifies src, dst
    ensures err == match trouble case HugeFine => 0 case HugeBusy => -EBUSY case HugeAgain => -EAGAIN
    ensures now == (if err == 0 then n + HUGE else n) && Consistent(j, src, dst, s, d, now)
    ensures if err == 0 then dst.huge <= old(dst.huge) + {Region(j.dstStart + n)} else dst.huge <= old(dst.huge)
  {
    if trouble == HugeFine {
      err, now := 0, n + HUGE;
      if src == dst {
        MoveHugeWithin(j, src, s, n);
      } else {
        MoveHugeAcross(j, src, dst, s, d, n);
      }
    } else {
      err, now := if trouble == HugeBusy then -EBUSY else -EAGAIN, n;
    }
  }

  // ------------------------------------------------------------------------------ a small page

  lemma PasteSmall(q: Table, p: Table, tables: set<int>, huge: set<int>, from: int, to: int)
    requires Mapped(q, tables, huge) && Full(q, huge) && p(from).Some? && Region(to) in tables
    ensures var r := Paste(q, p, from, 1, to - from); Mapped(r, tables, huge) && Full(r, huge)
  {
  }

  lemma SmallWithin(j: Job, p: Table, n: int, tables: set<int>, huge: set<int>)
    requires j.same && Mapped(p, tables, huge) && Full(p, huge)
    requires Region(j.srcStart + n) !in huge && Region(j.dstStart + n) in tables && p(j.srcStart + n).Some?
    ensures var p1 := SrcAfter(j, p, n, 1); Mapped(p1, tables, huge) && Full(p1, huge)
  {
    PasteSmall(Cut(p, j.srcStart + n, 1), p, tables, huge, j.srcStart + n, j.dstStart + n);
  }

  lemma SmallAcross(j: Job, p: Table, q: Table, n: int, src: (set<int>, set<int>), dst: (set<int>, set<int>))
    requires !j.same && Mapped(p, src.0, src.1) && Full(p, src.1) && Mapped(q, dst.0, dst.1) && Full(q, dst.1)
    requires Region(j.srcStart + n) !in src.1 && Region(j.dstStart + n) in dst.0 && p(j.srcStart + n).Some?
    ensures var p1 := SrcAfter(j, p, n, 1); Mapped(p1, src.0, src.1) && Full(p1, src.1)
    ensures var q1 := DstAfter(j, p, q, n, 1); Mapped(q1, dst.0, dst.1) && Full(q1, dst.1)
  {
    PasteSmall(q, p, dst.0, dst.1, j.srcStart + n, j.dstStart + n);
  }

  lemma OneMoves(j: Job, s: Table, d: Table, n: nat, p: Table, q: Table)
    requires Disjoint(j) && n < j.len && Moved(j, s, d, n, p, q) && q(j.dstStart + n).None?
    ensures Moved(j, s, d, n + 1, SrcAfter(j, p, n, 1), DstAfter(j, p, q, n, 1))
  {
    StretchMoves(j, s, d, n, p, q, 1);
  }

  method MoveSmallWithin(j: Job, mm: Mm, ghost s: Table, n: nat)
    requires Consistent(j, mm, mm, s, s, n) && n < j.len
    requires Region(j.dstStart + n) in mm.tables && Region(j.srcStart + n) !in mm.huge
    requires mm.pages(j.srcStart + n).Some? && mm.pages(j.dstStart + n).None?
    modifies mm`pages
    ensures Consistent(j, mm, mm, s, s, n + 1)
  {
    SmallWithin(j, mm.pages, n, mm.tables, mm.huge);
    OneMoves(j, s, s, n, mm.pages, mm.pages);
    MoveStretch(j, mm, mm, n, 1);
  }

  method MoveSmallAcross(j: Job, src: Mm, dst: Mm, ghost s: Table, ghost d: Table, n: nat)
    requires Consistent(j, src, dst, s, d, n) && n < j.len && src != dst
    requires Region(j.dstStart + n) in dst.tables && Region(j.srcStart + n) !in src.huge
    requires src.pages(j.srcStart + n).Some? && dst.pages(j.dstStart + n).None?
    modifies src`pages, dst`pages
    ensures Consistent(j, src, dst, s, d, n + 1)
  {
    SmallAcross(j, src.pages, dst.pages, n, (src.tables, src.huge), (dst.tables, dst.huge));
    OneMoves(j, s, d, n, src.pages, dst.pages);
    MoveStretch(j, src, dst, n, 1);
  }

  /** The destination must be free; a hole at the source must be allowed. */
  function SmallError(from: Option<nat>, to: Option<nat>, holes: bool, trouble: Trouble): (err: int) {
    if to.Some? then -EEXIST
    else if from.None? then (if holes then 0 else -ENOENT)
    else if trouble == Fine then 0
    else if trouble == Busy then -EBUSY
    else if trouble == Again then -EAGAIN
    else -EFAULT
  }

  /** `remap_pages_pte`: one small page, or one hole. */
  method SmallStep(j: Job, src: Mm, dst: Mm, ghost s: Table, ghost d: Table, n: nat, holes: bool, trouble: Trouble) returns (err: int, now: nat)
    requires Consistent(j, src, dst, s, d, n) && n < j.len
    requires Region(j.dstStart + n) in dst.tables && Region(j.srcStart + n) !in src.huge
    modifies src`pages, dst`pages
    ensures err == SmallError(old(src.pages)(j.srcStart + n), old(dst.pages)(j.dstStart + n), holes, trouble)
    ensures now == (if err == 0 then n + 1 else n) && Consistent(j, src, dst, s, d, now)
  {
    if dst.pages(j.dstStart + n).Some? {
      err, now := -EEXIST, n;
    } else if src.pages(j.srcStart + n).None? {
      err, now := if holes then 0 else -ENOENT, if holes then n + 1 else n;
    } else if trouble == Fine {
      if src == dst {
        MoveSmallWithin(j, src, s, n);
      } else {
        MoveSmallAcross(j, src, dst, s, d, n);
      }
      err, now := 0, n + 1;
    } else {
      err, now := if trouble == Busy then -EBUSY else if trouble == Again then -EAGAIN else -EFAULT, n;
    }
  }

  // ------------------------------------------------------------------------------------ the loop

  /** Splitting a huge page, or giving a region an empty table, moves nothing. */
  method AddTable(mm: Mm, region: int)
    requires mm.Valid()
    modifies mm`dirs, mm`tables, mm`huge
    ensures mm.Valid() && mm.dirs == old(mm.dirs) + {region} && mm.tables == old(mm.tables) + {region} && mm.huge == old(mm.huge) - {region}
  {
    mm.dirs, mm.tables, mm.huge := mm.dirs + {region}, mm.tables + {region}, mm.huge - {region};
  }

  method AddDirectory(mm: Mm, region: int)
    requires mm.Valid()
    modifies mm`dirs
    ensures mm.Valid() && mm.dirs == old(mm.dirs) + {region}
  {
    mm.dirs := mm.dirs + {region};
  }

  /** Nothing stands in the way of the next page. */
  ghost predicate Open(j: Job, p: Table, q: Table, dstHuge: set<int>, n: int, holes: bool) {
    q(j.dstStart + n).None? && Region(j.dstStart + n) !in dstHuge && (holes || p(j.srcStart + n).Some?)
  }

  /** No hole from `n` up to `now`. */
  ghost predicate Solid(j: Job, p: Table, n: int, now: int) {
    forall a :: In(a, j.srcStart + n, now - n) ==> p(a).Some?
  }

  /** Beyond `now` pages no region of the destination's space has become huge. */
  ghost predicate NoMoreHuge(j: Job, now: int, before: set<int>, after: set<int>) {
    forall a :: a >= j.dstStart + now && Region(a) in after ==> Region(a) in before
  }

  /** Tables of small pages for both regions, given their directory entries. */
  method Tables(j: Job, src: Mm, dst: Mm, ghost s: Table, ghost d: Table, n: nat, holes: bool, dstNone: bool, e: Event) returns (err: int)
    requires Consistent(j, src, dst, s, d, n) && n < j.len
    requires Region(j.srcStart + n) !in src.huge && Region(j.dstStart + n) in dst.dirs - dst.huge
    requires !dstNone ==> Region(j.dstStart + n) in dst.tables
    modifies src`dirs, src`tables, src`huge, dst`dirs, dst`tables, dst`huge
    ensures Consistent(j, src, dst, s, d, n) && dst.huge <= old(dst.huge)
    ensures err <= 0 && err != -EAGAIN
    ensures err == 0 ==> Region(j.dstStart + n) in dst.tables && Region(j.srcStart + n) !in src.huge
    ensures e == QUIET && (holes || src.pages(j.srcStart + n).Some?) ==> err == 0
  {
    err := 0;
    if Region(j.srcStart + n) !in src.tables {
      if !holes {
        return -ENOENT;
      }
      if e.noSrcTable {
        return -ENOMEM;
      }
      AddTable(src, Region(j.srcStart + n));
    }
    if e.unstable {
      return -EFAULT;
    }
    if dstNone {
      if e.noDstTable {
        return -ENOMEM;
      }
      AddTable(dst, Region(j.dstStart + n));
    }
    if e.hugeDst {
      return -EFAULT;
    }
    assert Region(j.srcStart + n) in src.tables && Region(j.dstStart + n) in dst.tables;
  }

  /** The part of an iteration that moves a small page. */
  method SmallPart(j: Job, src: Mm, dst: Mm, ghost s: Table, ghost d: Table, n: nat, holes: bool, dstNone: bool, e: Event)
    returns (err: int, now: nat)
    requires Consistent(j, src, dst, s, d, n) && n < j.len
    requires Region(j.srcStart + n) !in src.huge && Region(j.dstStart + n) in dst.dirs - dst.huge
    requires !dstNone ==> Region(j.dstStart + n) in dst.tables
    modifies src, dst
    ensures now == (if err == 0 then n + 1 else n) && Consistent(j, src, dst, s, d, now) && dst.huge <= old(dst.huge)
    ensures err <= 0 && (err == -EAGAIN ==> e != QUIET)
    ensures e == QUIET && (holes || old(src.pages)(j.srcStart + n).Some?) ==>
      err == SmallError(old(src.pages)(j.srcStart + n), old(dst.pages)(j.dstStart + n), holes, Fine)
    ensures err == 0 && !holes ==> old(src.pages)(j.srcStart + n).Some?
  {
    now := n;
    err := Tables(j, src, dst, s, d, n, holes, dstNone, e);
    if err == 0 {
      err, now := SmallStep(j, src, dst, s, d, n, holes, e.small);
    }
  }

  /** `thp_aligned`: unknown, or whether the two ranges have the same offset within a huge page. */
  ghost predicate AlignedOk(j: Job, thpAligned: int) {
    && (thpAligned == 1 ==> j.srcStart % 512 == j.dstStart % 512)
    && (thpAligned == 0 ==> j.srcStart % 512 != j.dstStart % 512)
    && -1 <= thpAligned <= 1
  }

  lemma SameOffset(x: int, y: int, n: nat)
    ensures (x + n) % 512 == (y + n) % 512 <==> x % 512 == y % 512
  {
  }

  /** Directory entries for both regions. */
  method Directories(j: Job, src: Mm, dst: Mm, ghost s: Table, ghost d: Table, n: nat, holes: bool, e: Event) returns (err: int)
    requires Consistent(j, src, dst, s, d, n) && n < j.len
    modifies src`dirs, dst`dirs
    ensures Consistent(j, src, dst, s, d, n)
    ensures if err == 0 then Region(j.dstStart + n) in dst.dirs else err == -ENOENT || err == -ENOMEM
    ensures e == QUIET && (holes || src.pages(j.srcStart + n).Some?) ==> err == 0
  {
    err := 0;
    if Region(j.srcStart + n) !in src.dirs {
      if !holes {
        return -ENOENT;
      }
      if e.noSrcDir {
        return -ENOMEM;
      }
      AddDirectory(src, Region(j.srcStart + n));
    }
    if Region(j.dstStart + n) !in dst.dirs {
      if e.noDstDir {
        return -ENOMEM;
      }
      AddDirectory(dst, Region(j.dstStart + n));
    }
  }

  lemma RegionSolid(p: Table, huge: set<int>, from: int)
    requires Full(p, huge) && from % 512 == 0 && Region(from) in huge
    ensures forall a :: In(a, from, HUGE) ==> p(a).Some?
  {
    forall a | In(a, from, HUGE)
      ensures p(a).Some?
    {
    }
  }

  /** What the loop relies on from one iteration, besides that the tables stay consistent. */
  ghost predicate Progress(j: Job, n: int, now: int, err: int, e: Event, holes: bool, p: Table, q: Table, before: set<int>, after: set<int>) {
    && err <= 0 && (err == -EAGAIN ==> e != QUIET)
    && (if err == 0 || now > n then n < now <= j.len else now == n)
    && (!holes ==> Solid(j, p, n, now))
    && NoMoreHuge(j, now, before, after)
    && (e == QUIET && Open(j, p, q, before, n, holes) ==> err == 0)
  }

  lemma SmallProgress(j: Job, n: int, now: int, err: int, e: Event, holes: bool, p: Table, q: Table, before: set<int>, after: set<int>)
    requires n < j.len && now == (if err == 0 then n + 1 else n) && err <= 0 && (err == -EAGAIN ==> e != QUIET) && after <= before
    requires e == QUIET && (holes || p(j.srcStart + n).Some?) ==> err == SmallError(p(j.srcStart + n), q(j.dstStart + n), holes, Fine)
    requires err == 0 && !holes ==> p(j.srcStart + n).Some?
    ensures Progress(j, n, now, err, e, holes, p, q, before, after)
  {
  }

  /** A huge page at the source that can move whole. */
  method HugePart(j: Job, src: Mm, dst: Mm, ghost s: Table, ghost d: Table, n: nat, holes: bool, e: Event) returns (err: int, now: nat)
    requires Consistent(j, src, dst, s, d, n) && n + HUGE <= j.len
    requires (j.srcStart + n) % 512 == 0 && (j.dstStart + n) % 512 == 0
    requires Region(j.srcStart + n) in src.huge && Region(j.dstStart + n) in dst.dirs - dst.tables - dst.huge
    modifies src, dst
    ensures Consistent(j, src, dst, s, d, now) && (err != 0 ==> now == n)
    ensures Progress(j, n, now, err, e, holes, old(src.pages), old(dst.pages), old(dst.huge), dst.huge)
  {
    RegionSolid(src.pages, src.huge, j.srcStart + n);
    err, now := HugeStep(j, src, dst, s, d, n, e.huge);
  }

  /** The rest of an iteration: a huge page moves whole if it can, and is split otherwise. */
  method MoveNext(j: Job, src: Mm, dst: Mm, ghost s: Table, ghost d: Table, n: nat, holes: bool, e: Event, aligned: int)
    returns (err: int, now: nat, thpAligned: int)
    requires Consistent(j, src, dst, s, d, n) && n < j.len && AlignedOk(j, aligned)
    requires Region(j.dstStart + n) in dst.dirs - dst.huge
    modifies src, dst
    ensures Consistent(j, src, dst, s, d, now) && AlignedOk(j, thpAligned) && (err != 0 ==> now == n)
    ensures Progress(j, n, now, err, e, holes, old(src.pages), old(dst.pages), old(dst.huge), dst.huge)
  {
    var from, to := j.srcStart + n, j.dstStart + n;
    var dstNone := Region(to) !in dst.tables;
    thpAligned := aligned;
    SameOffset(j.srcStart, j.dstStart, n);
    if Region(from) in src.huge {
      if thpAligned == -1 {
        thpAligned := if from % 512 == to % 512 then 1 else 0;
      }
      if !(thpAligned == 0 || from % 512 != 0 || !dstNone || j.len - n < HUGE) {
        assert to % 512 == 0;
        err, now := HugePart(j, src, dst, s, d, n, holes, e);
        return;
      }
      AddTable(src, Region(from));
    }
    err, now := SmallPart(j, src, dst, s, d, n, holes, dstNone, e);
    SmallProgress(j, n, now, err, e, holes, old(src.pages), old(dst.pages), old(dst.huge), dst.huge);
  }

  /** One iteration of the loop: how far it got, and its error. */
  method Iterate(j: Job, src: Mm, dst: Mm, ghost s: Table, ghost d: Table, n: nat, holes: bool, e: Event, aligned: int)
    returns (err: int, now: nat, thpAligned: int)
    requires Consistent(j, src, dst, s, d, n) && n < j.len && AlignedOk(j, aligned)
    modifies src, dst
    ensures Consistent(j, src, dst, s, d, now) && AlignedOk(j, thpAligned)
    ensures Progress(j, n, now, err, e, holes, old(src.pages), old(dst.pages), old(dst.huge), dst.huge)
  {
    thpAligned, now := aligned, n;
    err := Directories(j, src, dst, s, d, n, holes, e);
    if err == 0 {
      if Region(j.dstStart + n) in dst.huge {
        err := -EEXIST;
      } else {
        err, now, thpAligned := MoveNext(j, src, dst, s, d, n, holes, e, aligned);
        if (err == 0 || err == -EAGAIN) && e.signal {
          err := -EINTR;
        }
      }
    }
  }

  /** Nothing stands in the way of the whole range. */
  ghost predicate Free(j: Job, s: Table, d: Table, dstHuge: set<int>, holes: bool) {
    && (forall a :: In(a, j.dstStart, j.len) ==> d(a).None? && Region(a) !in dstHuge)
    && (holes || forall a :: In(a, j.srcStart, j.len) ==> s(a).Some?)
  }

  /** What is at the front of both ranges has not been touched yet. */
  lemma Untouched(j: Job, s: Table, d: Table, n: int, p: Table, q: Table, a: int)
    requires Disjoint(j) && Moved(j, s, d, n, p, q) && 0 <= n
    ensures In(a, j.srcStart + n, j.len - n) ==> p(a) == s(a)
    ensures In(a, j.dstStart + n, j.len - n) ==> q(a) == d(a)
  {
  }

  lemma SolidGrows(j: Job, s: Table, d: Table, n: int, now: int, p: Table, q: Table)
    requires Disjoint(j) && Moved(j, s, d, n, p, q) && 0 <= n <= now <= j.len && Solid(j, s, 0, n) && Solid(j, p, n, now)
    ensures Solid(j, s, 0, now)
  {
    forall a | In(a, j.srcStart, now)
      ensures s(a).Some?
    {
      if !In(a, j.srcStart, n) {
        Untouched(j, s, d, n, p, q, a);
      }
    }
  }

  /** The loop. Each iteration meets one of the given events; when they run out nothing disturbs it
      any more. */
  method RemapLoop(j: Job, src: Mm, dst: Mm, ghost s: Table, ghost d: Table, holes: bool, env: seq<Event>) returns (moved: nat, err: int)
    requires Consistent(j, src, dst, s, d, 0) && j.len > 0
    modifies src, dst
    ensures Consistent(j, src, dst, s, d, moved) && moved <= j.len && (moved == 0 ==> err < 0)
    ensures !holes ==> Solid(j, s, 0, moved)
    ensures env == [] && Free(j, s, d, old(dst.huge), holes) ==> moved == j.len
  {
    moved, err := 0, -ENOMEM;
    var thpAligned, i := -1, 0;
    while moved < j.len
      invariant Consistent(j, src, dst, s, d, moved) && AlignedOk(j, thpAligned) && 0 <= i <= |env|
      invariant moved == 0 ==> err < 0
      invariant !holes ==> Solid(j, s, 0, moved)
      invariant NoMoreHuge(j, moved, old(dst.huge), dst.huge)
      decreases j.len - moved, |env| - i
    {
      var e := if i < |env| then env[i] else QUIET;
      ghost var n, p, q, before := moved, src.pages, dst.pages, dst.huge;
      err, moved, thpAligned := Iterate(j, src, dst, s, d, moved, holes, e, thpAligned);
      if !holes {
        SolidGrows(j, s, d, n, moved, p, q);
      }
      if err != 0 && err != -EAGAIN {
        break;
      }
      i := if i < |env| then i + 1 else i;
    }
  }

  /** `remap_pages` once the ranges' mappings are found fit (`fit`) and prepared (`prepared`).
      A positive result says that exactly that many pages moved, without passing a hole unless
      holes are allowed; a negative one that nothing moved; zero is never returned. Undisturbed,
      with nothing in the way, everything moves. */
  method RemapPages(src: Mm, dst: Mm, dstStart: int, srcStart: int, len: nat, holes: bool, fit: bool, prepared: bool, env: seq<Event>)
    returns (r: int)
    requires src.Valid() && dst.Valid() && len > 0 && Disjoint(Job(srcStart, dstStart, len, src == dst))
    modifies src, dst
    ensures src.Valid() && dst.Valid() && r != 0 && r <= len
    ensures r > 0 ==> Moved(Job(srcStart, dstStart, len, src == dst), old(src.pages), old(dst.pages), r, src.pages, dst.pages)
    ensures r < 0 ==> (forall a :: src.pages(a) == old(src.pages)(a)) && (forall a :: dst.pages(a) == old(dst.pages)(a))
    ensures r > 0 && !holes ==> forall a :: In(a, srcStart, r) ==> old(src.pages)(a).Some?
    ensures fit && prepared && env == [] && Free(Job(srcStart, dstStart, len, src == dst), old(src.pages), old(dst.pages), old(dst.huge), holes)
      ==> r == len
  {
    if !fit {
      return -EINVAL;
    }
    if !prepared {
      return -ENOMEM;
    }
    var j := Job(srcStart, dstStart, len, src == dst);
    ghost var s, d := src.pages, dst.pages;
    var moved, err := RemapLoop(j, src, dst, s, d, holes, env);
    r := if moved > 0 then moved else err;
  }
}
