/** lib/lrubuffer: the list that decides which resident page leaves next. `lru_list` is a
    sequence (most recent first) with a unique index on the hash code. */
module LruBuffer {
  import opened Pages
  import opened PageKey

  // ---------------------------------------------------------------- pages in recency order

  function Without(s: seq<PageId>, p: PageId): (r: seq<PageId>) {
    if s == [] then []
    else if s[0] == p then Without(s[1..], p)
    else [s[0]] + Without(s[1..], p)
  }

  lemma {:induction false} WithoutMembers(s: seq<PageId>, p: PageId)
    ensures forall q :: q in Without(s, p) <==> q in s && q != p
    ensures p !in s ==> Without(s, p) == s
  {
    if s != [] {
      WithoutMembers(s[1..], p);
    }
  }

  lemma {:induction false} WithoutNoDup(s: seq<PageId>, p: PageId)
    requires NoDup(s)
    ensures NoDup(Without(s, p))
    ensures p in s ==> |Without(s, p)| == |s| - 1
  {
    if s != [] {
      WithoutNoDup(s[1..], p);
      WithoutMembers(s[1..], p);
      assert s[0] !in s[1..];
    }
  }

  /** `lru_list::insert`: push to the front, or relocate the existing entry there. */
  function ToFront(s: seq<PageId>, p: PageId): (r: seq<PageId>)
    ensures forall q :: q in r <==> q in s || q == p
    ensures |r| > 0 && r[0] == p
  {
    WithoutMembers(s, p);
    [p] + Without(s, p)
  }

  lemma ToFrontNoDup(s: seq<PageId>, p: PageId)
    requires NoDup(s)
    ensures NoDup(ToFront(s, p))
    ensures |ToFront(s, p)| == if p in s then |s| else |s| + 1
  {
    WithoutNoDup(s, p);
    WithoutMembers(s, p);
  }

  /** The first `k` victims, in the order they are popped: from the back of the list. */
  function Victims(s: seq<PageId>, k: nat): (r: seq<PageId>)
    requires k <= |s|
    ensures |r| == k
    ensures forall i :: 0 <= i < k ==> r[i] == s[|s| - 1 - i]
  {
    seq(k, i requires 0 <= i < k => s[|s| - 1 - i])
  }

  lemma VictimsSplit(s: seq<PageId>, k: nat)
    requires NoDup(s) && k <= |s|
    ensures NoDup(Victims(s, k)) && NoDup(s[..|s| - k])
    ensures forall q :: q in s <==> q in s[..|s| - k] || q in Victims(s, k)
    ensures forall q :: !(q in s[..|s| - k] && q in Victims(s, k))
  {
    forall q | q in s
      ensures q in s[..|s| - k] || q in Victims(s, k)
    {
      var i :| 0 <= i < |s| && s[i] == q;
      if i < |s| - k {
        assert s[..|s| - k][i] == q;
      } else {
        assert Victims(s, k)[|s| - 1 - i] == q;
      }
    }
  }

  // ------------------------------------------------------------- least recently inserted

  datatype LruOp = Inserted(p: PageId) | Popped

  /** The list after any history of insertions and pops (a pop of an empty list does nothing). */
  function AfterOps(ops: seq<LruOp>): (s: seq<PageId>) {
    if ops == [] then []
    else
      var s := AfterOps(ops[..|ops| - 1]);
      match ops[|ops| - 1]
      case Inserted(p) => ToFront(s, p)
      case Popped => if s == [] then s else s[..|s| - 1]
  }

  /** The time of the last insertion of `p`, or -1. */
  function LastInserted(ops: seq<LruOp>, p: PageId): (t: int) {
    if ops == [] then -1
    else if ops[|ops| - 1] == Inserted(p) then |ops| - 1
    else LastInserted(ops[..|ops| - 1], p)
  }

  ghost predicate Decreasing(s: seq<PageId>, time: PageId -> int) {
    forall i, j :: 0 <= i < j < |s| ==> time(s[i]) > time(s[j])
  }

  lemma {:induction false} WithoutDecreasing(s: seq<PageId>, p: PageId, time: PageId -> int)
    requires Decreasing(s, time)
    ensures Decreasing(Without(s, p), time)
  {
    if s != [] {
      WithoutDecreasing(s[1..], p, time);
      WithoutMembers(s[1..], p);
      assert forall q :: q in s[1..] ==> time(s[0]) > time(q);
    }
  }

  lemma ToFrontDecreasing(s: seq<PageId>, p: PageId, before: PageId -> int, after: PageId -> int)
    requires Decreasing(s, before)
    requires forall q :: q in s ==> before(q) < after(p)
    requires forall q :: q in s && q != p ==> after(q) == before(q)
    ensures Decreasing(ToFront(s, p), after)
  {
    WithoutDecreasing(s, p, before);
    WithoutMembers(s, p);
    var rest := Without(s, p);
    forall i, j | 0 <= i < j < |ToFront(s, p)|
      ensures after(ToFront(s, p)[i]) > after(ToFront(s, p)[j])
    {
      assert rest[j - 1] in rest;
      if i > 0 {
        assert rest[i - 1] in rest;
      }
    }
  }

  /** Recency is the order of the list, over every history: entries stand in strictly
      decreasing order of their last insertion, so the back is the least recent member. */
  lemma {:induction false} RecencyOrder(ops: seq<LruOp>)
    ensures Decreasing(AfterOps(ops), q => LastInserted(ops, q))
    ensures forall q :: q in AfterOps(ops) ==> 0 <= LastInserted(ops, q) < |ops|
  {
    if ops != [] {
      var before := ops[..|ops| - 1];
      RecencyOrder(before);
      var s := AfterOps(before);
      match ops[|ops| - 1]
      case Popped =>
        assert forall q :: LastInserted(ops, q) == LastInserted(before, q);
      case Inserted(p) =>
        ToFrontDecreasing(s, p, q => LastInserted(before, q), q => LastInserted(ops, q));
    }
  }

  /** Every victim of a batch was inserted before every page that stays, and earlier victims
      before later ones. */
  lemma VictimsAreLeastRecent(ops: seq<LruOp>, k: nat)
    requires k <= |AfterOps(ops)|
    ensures var s := AfterOps(ops); var v := Victims(s, k);
      && (forall i, q :: 0 <= i < k && q in s[..|s| - k] ==> LastInserted(ops, v[i]) < LastInserted(ops, q))
      && (forall i, j :: 0 <= i < j < k ==> LastInserted(ops, v[i]) < LastInserted(ops, v[j]))
  {
    RecencyOrder(ops);
    var s := AfterOps(ops);
    var time := q => LastInserted(ops, q);
    assert forall i, j :: 0 <= i < j < |s| ==> time(s[i]) > time(s[j]);
  }

  // ------------------------------------------------------------------------------ the class

  /** `c_cache_node` with hash code 0 answers "nothing to evict". */
  const NO_NODE := CacheNode(0, 0)

  ghost predicate GoodNode(n: CacheNode) {
    ValidPage(PageOf(n)) && n == NodeOf(PageOf(n))
  }

  ghost predicate GoodNodes(il: seq<CacheNode>) {
    && (forall i :: 0 <= i < |il| ==> GoodNode(il[i]))
    && NoDup(PagesOf(il))
  }

  function Map<A, B>(f: A -> B, s: seq<A>): (r: seq<B>)
    ensures |r| == |s| && forall i :: 0 <= i < |s| ==> r[i] == f(s[i])
  {
    seq(|s|, i requires 0 <= i < |s| => f(s[i]))
  }

  lemma MapPush<A, B>(f: A -> B, x: A, s: seq<A>)
    ensures Map(f, [x] + s) == [f(x)] + Map(f, s)
  {
  }

  lemma MapFront<A, B>(f: A -> B, s: seq<A>, k: nat)
    requires k < |s|
    ensures Map(f, [s[k]] + (s[..k] + s[k + 1..])) == [Map(f, s)[k]] + (Map(f, s)[..k] + Map(f, s)[k + 1..])
  {
  }

  const DECODE: CacheNode -> PageId := n => PageOf(n)

  /** The pages that the nodes stand for. */
  function PagesOf(il: seq<CacheNode>): (s: seq<PageId>)
    ensures |s| == |il|
    ensures forall i :: 0 <= i < |il| ==> s[i] == PageOf(il[i])
  {
    Map(DECODE, il)
  }

  lemma GoodNodesCompare(n: CacheNode, m: CacheNode)
    requires GoodNode(n) && GoodNode(m)
    ensures n.hashcode == m.hashcode <==> PageOf(n) == PageOf(m)
    ensures n.hashcode != 0
  {
    KeyRoundTrip(PageOf(n), PageOf(m));
  }

  /** The lookup in the unique hash index, as a position in the list or -1. */
  function FindCode(il: seq<CacheNode>, code: int): (k: int)
    ensures -1 <= k < |il|
    ensures k >= 0 ==> il[k].hashcode == code
    ensures k < 0 ==> forall i :: 0 <= i < |il| ==> il[i].hashcode != code
  {
    if il == [] then -1
    else if il[0].hashcode == code then 0
    else var k := FindCode(il[1..], code); if k < 0 then -1 else k + 1
  }

  lemma {:induction false} WithoutAt(s: seq<PageId>, k: nat)
    requires NoDup(s) && k < |s|
    ensures Without(s, s[k]) == s[..k] + s[k + 1..]
  {
    if k == 0 {
      assert s[0] !in s[1..];
      WithoutMembers(s[1..], s[0]);
    } else {
      WithoutAt(s[1..], k - 1);
      assert s[..k] + s[k + 1..] == [s[0]] + (s[1..][..k - 1] + s[1..][k..]);
    }
  }

  /** `push_front`, or `relocate` of the entry the index already holds. */
  function PushFront(il: seq<CacheNode>, node: CacheNode): (r: seq<CacheNode>) {
    var k := FindCode(il, node.hashcode);
    if k < 0 then [node] + il else [il[k]] + (il[..k] + il[k + 1..])
  }

  lemma NewFront(il: seq<CacheNode>, node: CacheNode, s: seq<PageId>, p: PageId)
    requires s == Map(DECODE, il) && p == DECODE(node) && p !in s
    ensures Map(DECODE, [node] + il) == ToFront(s, p)
  {
    WithoutMembers(s, p);
    MapPush(DECODE, node, il);
  }

  lemma MovedFront(il: seq<CacheNode>, s: seq<PageId>, k: nat)
    requires s == Map(DECODE, il) && NoDup(s) && k < |il|
    ensures Map(DECODE, [il[k]] + (il[..k] + il[k + 1..])) == ToFront(s, s[k])
  {
    WithoutAt(s, k);
    MapFront(DECODE, il, k);
  }

  lemma PushFrontPages(il: seq<CacheNode>, node: CacheNode, s: seq<PageId>, p: PageId)
    requires s == PagesOf(il) && NoDup(s) && p == PageOf(node)
    requires forall i :: 0 <= i < |il| ==> (il[i].hashcode == node.hashcode <==> s[i] == p)
    ensures PagesOf(PushFront(il, node)) == ToFront(s, p)
  {
    var k := FindCode(il, node.hashcode);
    if k < 0 {
      NewFront(il, node, s, p);
    } else {
      assert il[k].hashcode == node.hashcode;
      MovedFront(il, s, k);
    }
  }

  lemma PushFrontIsToFront(il: seq<CacheNode>, node: CacheNode)
    requires GoodNodes(il) && GoodNode(node)
    ensures GoodNodes(PushFront(il, node))
    ensures PagesOf(PushFront(il, node)) == ToFront(PagesOf(il), PageOf(node))
  {
    forall i | 0 <= i < |il|
      ensures il[i].hashcode == node.hashcode <==> PagesOf(il)[i] == PageOf(node)
    {
      GoodNodesCompare(il[i], node);
    }
    PushFrontPages(il, node, PagesOf(il), PageOf(node));
    ToFrontNoDup(PagesOf(il), PageOf(node));
  }

  class LruList {
    var il: seq<CacheNode>
    var maxNumItems: nat

    ghost predicate Valid()
      reads this
    {
      GoodNodes(il)
    }

    ghost function View(): (s: seq<PageId>)
      reads this
    {
      PagesOf(il)
    }

    constructor (cacheSize: nat)
      ensures Valid() && View() == [] && maxNumItems == cacheSize
    {
      il := [];
      maxNumItems := cacheSize;
    }

    /** `insertCacheNode`: the page becomes the most recent; with `evict`, a list over its
        bound gives up its back, possibly the page just inserted. */
    method InsertCacheNode(key: int, ufd: int, evict: bool) returns (node: CacheNode)
      requires Valid() && ValidPage(PageId(ufd, key))
      modifies this
      ensures Valid() && maxNumItems == old(maxNumItems)
      ensures var p := PageId(ufd, key); var inserted := ToFront(old(View()), p);
        if evict && |inserted| > maxNumItems
        then node == NodeOf(inserted[|inserted| - 1]) && node.hashcode != 0 && View() == inserted[..|inserted| - 1]
        else node == NO_NODE && View() == inserted
    {
      node := CacheNode(HashPageKey(key, ufd), ufd);
      KeyRoundTrip(PageId(ufd, key), PageId(ufd, key));
      PushFrontIsToFront(il, node);
      il := PushFront(il, node);
      node := NO_NODE;
      if evict && |il| > maxNumItems {
        GoodNodesCompare(il[|il| - 1], il[|il| - 1]);
        node := PopLru();
      }
    }

    /** `popLRU` on a non-empty list. */
    method PopLru() returns (node: CacheNode)
      requires Valid() && il != []
      modifies this
      ensures Valid() && maxNumItems == old(maxNumItems)
      ensures node == old(il)[|old(il)| - 1] && il == old(il)[..|old(il)| - 1]
      ensures View() == old(View())[..|old(View())| - 1]
      ensures PageOf(node) == old(View())[|old(View())| - 1] && GoodNode(node)
    {
      node := il[|il| - 1];
      il := il[..|il| - 1];
    }

    /** `popNLRU`: as many pops as asked for and available, least recent first. */
    method PopNLru(numPop: int) returns (count: int, nodes: seq<CacheNode>)
      requires Valid()
      modifies this
      ensures Valid() && maxNumItems == old(maxNumItems)
      ensures count == if numPop > |old(View())| then |old(View())| else numPop
      ensures var n: nat := if count < 0 then 0 else count;
        && n <= |old(View())|
        && PagesOf(nodes) == Victims(old(View()), n)
        && View() == old(View())[..|old(View())| - n]
        && forall i :: 0 <= i < |nodes| ==> GoodNode(nodes[i])
    {
      count := numPop;
      if count > |il| {
        count := |il|;
      }
      nodes := [];
      var i := 0;
      while i < count
        invariant 0 <= i <= (if count < 0 then 0 else count)
        invariant count <= |old(il)|
        invariant il == old(il)[..|old(il)| - i]
        invariant |nodes| == i
        invariant forall j :: 0 <= j < i ==> nodes[j] == old(il)[|old(il)| - 1 - j]
        invariant Valid() && maxNumItems == old(maxNumItems)
      {
        var node := PopLru();
        nodes := nodes + [node];
        i := i + 1;
      }
      assert PagesOf(nodes) == Victims(old(View()), i);
      assert View() == old(View())[..|old(View())| - i];
    }

    /** `setSize`: the bound is a `size_t`, so a negative size becomes a very large one. */
    method SetSize(size: int) returns (r: int)
      requires Valid() && -0x8000_0000 <= size < 0x8000_0000
      modifies this
      ensures Valid() && View() == old(View()) && r == size
      ensures maxNumItems == if size >= 0 then size else 0x1_0000_0000_0000_0000 + size
    {
      maxNumItems := size % 0x1_0000_0000_0000_0000;
      r := if maxNumItems < 0x8000_0000 then maxNumItems else maxNumItems - 0x1_0000_0000_0000_0000;
    }
  }
}
