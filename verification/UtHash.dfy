/** include/uthash.h: a hash table whose items are also linked in insertion order. */
module UtHash {
  import opened Pages
  import opened Links
  import opened UtSort

  const INITIAL_BUCKETS: nat := 512
  const INITIAL_LOG2: nat := 5
  /** How much the recorded logarithm is too small: 512 is the ninth power of two. */
  const EXTRA: nat := 4
  const CAPACITY_THRESH: nat := 10

  datatype Bucket = Bucket(hhHead: Ptr, count: nat, expandMult: nat)

  /** `&` on unsigned numbers. */
  function And(x: nat, y: nat): (r: nat)
    ensures r <= y
  {
    if x == 0 || y == 0 then 0 else (if x % 2 == 1 && y % 2 == 1 then 1 else 0) + 2 * And(x / 2, y / 2)
  }

  function Pow2(n: nat): (r: nat)
    ensures r > 0
  {
    if n == 0 then 1 else 2 * Pow2(n - 1)
  }

  lemma {:induction false} Pow2Grows(m: nat, n: nat)
    requires m <= n
    ensures Pow2(m) <= Pow2(n)
  {
    if m < n {
      Pow2Grows(m, n - 1);
    }
  }

  lemma RemainderIs(x: nat, d: nat, q: nat, r: nat)
    requires r < d && x == q * d + r
    ensures x % d == r
  {
    var k := x / d - q;
    assert k * d == r - x % d;
    assert k >= 1 ==> k * d >= d;
    assert k <= -1 ==> k * d + d <= 0;
  }

  lemma HalfRemainder(x: nat, d: nat)
    requires d > 0
    ensures x % (2 * d) == x % 2 + 2 * ((x / 2) % d)
  {
    var q, r := (x / 2) / d, (x / 2) % d;
    assert x == 2 * (q * d + r) + x % 2;
    assert q * (2 * d) == 2 * (q * d);
    RemainderIs(x, 2 * d, q, x % 2 + 2 * r);
  }

  /** The mask of a power of two is the remainder. */
  lemma {:induction false} MaskIsRemainder(x: nat, k: nat)
    ensures And(x, Pow2(k) - 1) == x % Pow2(k)
  {
    if k > 0 {
      var d := Pow2(k - 1);
      MaskIsRemainder(x / 2, k - 1);
      HalfRemainder(x, d);
      AndOdd(x, d);
    }
  }

  lemma AndOdd(x: nat, d: nat)
    requires d > 0
    ensures And(x, 2 * d - 1) == x % 2 + 2 * And(x / 2, d - 1)
  {
    assert (2 * d - 1) % 2 == 1 && (2 * d - 1) / 2 == d - 1;
  }

  /** `HASH_TO_BKT`; the number of buckets is always a power of two. */
  function ToBkt(hashv: nat, buckets: nat): (b: nat)
    requires buckets > 0
    ensures b < buckets
  {
    And(hashv, buckets - 1)
  }

  // ------------------------------------------------------------------------- chains of all buckets

  ghost predicate BucketOk(chain: seq<Ptr>, bucket: Bucket, next: Field, prev: Field) {
    Linked(chain, next, prev) && bucket.hhHead == Nth(chain, 0) && bucket.count == |chain|
  }

  /** The chains hold exactly the given items, each in its bucket. */
  ghost predicate ChainsOk(items: seq<Ptr>, chains: seq<seq<Ptr>>, buckets: seq<Bucket>, next: Field, prev: Field, hashv: map<Ptr, nat>) {
    && |chains| == |buckets| > 0
    && (forall p :: p in items ==> p in hashv)
    && (forall b :: 0 <= b < |chains| ==> BucketOk(chains[b], buckets[b], next, prev))
    && (forall b, p :: 0 <= b < |chains| ==> (p in chains[b] <==> p in items && ToBkt(hashv[p], |buckets|) == b))
  }

  /** No node is in two chains, and null is in none. */
  lemma Apart(items: seq<Ptr>, chains: seq<seq<Ptr>>, buckets: seq<Bucket>, next: Field, prev: Field, hashv: map<Ptr, nat>, b: nat, c: nat, q: Ptr)
    requires ChainsOk(items, chains, buckets, next, prev, hashv) && b < |chains| && c < |chains| && b != c
    requires q == NULL || q in chains[b]
    ensures q !in chains[c]
  {
    assert BucketOk(chains[c], buckets[c], next, prev);
    LinkedNoDup(chains[c], next, prev);
    if q in chains[b] {
      assert ToBkt(hashv[q], |buckets|) == b;
    }
  }

  lemma AddLinks(items: seq<Ptr>, chains: seq<seq<Ptr>>, buckets: seq<Bucket>, next: Field, prev: Field, hashv: map<Ptr, nat>, p: Ptr, b: nat, c: nat)
    requires ChainsOk(items, chains, buckets, next, prev, hashv) && p != NULL && p !in items && b < |buckets| && c < |buckets|
    ensures var head := buckets[b].hhHead;
      Linked(if c == b then [p] + chains[b] else chains[c], next[p := head], PushPrev(prev, head, p))
  {
    var head := buckets[b].hhHead;
    assert BucketOk(chains[b], buckets[b], next, prev) && BucketOk(chains[c], buckets[c], next, prev);
    if c == b {
      Push(chains[b], next, prev, p);
    } else {
      LinkedNoDup(chains[c], next, prev);
      Apart(items, chains, buckets, next, prev, hashv, b, c, head);
      Frame(chains[c], next, prev, next[p := head], PushPrev(prev, head, p));
    }
  }

  /** One item enters its bucket at the front. */
  lemma ChainsAdd(items: seq<Ptr>, chains: seq<seq<Ptr>>, buckets: seq<Bucket>, next: Field, prev: Field, hashv: map<Ptr, nat>, p: Ptr, b: nat, mult: nat)
    requires ChainsOk(items, chains, buckets, next, prev, hashv) && p != NULL && p !in items && p in hashv
    requires b == ToBkt(hashv[p], |buckets|)
    ensures var head := buckets[b].hhHead;
      ChainsOk(items + [p], chains[b := [p] + chains[b]], buckets[b := Bucket(p, buckets[b].count + 1, mult)],
               next[p := head], PushPrev(prev, head, p), hashv)
  {
    var head := buckets[b].hhHead;
    var chains1, buckets1 := chains[b := [p] + chains[b]], buckets[b := Bucket(p, buckets[b].count + 1, mult)];
    forall c | 0 <= c < |chains|
      ensures BucketOk(chains1[c], buckets1[c], next[p := head], PushPrev(prev, head, p))
    {
      AddLinks(items, chains, buckets, next, prev, hashv, p, b, c);
    }
    forall c, q | 0 <= c < |chains|
      ensures q in chains1[c] <==> q in items + [p] && ToBkt(hashv[q], |buckets|) == c
    {
      if c == b {
        assert q in chains1[c] <==> q == p || q in chains[b];
      }
    }
  }

  lemma RemoveLinks(items: seq<Ptr>, chains: seq<seq<Ptr>>, buckets: seq<Bucket>, next: Field, prev: Field, hashv: map<Ptr, nat>, b: nat, k: nat, c: nat)
    requires ChainsOk(items, chains, buckets, next, prev, hashv) && b < |buckets| && c < |buckets| && k < |chains[b]|
    requires chains[b][k] in next && chains[b][k] in prev
    ensures var p := chains[b][k];
      Linked(if c == b then Removed(chains[b], k) else chains[c], UnlinkNext(next, p, prev[p]), UnlinkPrev(prev, p, next[p]))
  {
    var p := chains[b][k];
    assert BucketOk(chains[b], buckets[b], next, prev) && BucketOk(chains[c], buckets[c], next, prev);
    if c == b {
      Remove(chains[b], next, prev, k);
    } else {
      assert NodeAt(chains[b], next, prev, k);
      LinkedNoDup(chains[c], next, prev);
      Apart(items, chains, buckets, next, prev, hashv, b, c, prev[p]);
      Apart(items, chains, buckets, next, prev, hashv, b, c, next[p]);
      Frame(chains[c], next, prev, UnlinkNext(next, p, prev[p]), UnlinkPrev(prev, p, next[p]));
    }
  }

  function BucketWithout(bucket: Bucket, p: Ptr, after: Ptr): (r: Bucket)
    requires bucket.count > 0
  {
    Bucket(if bucket.hhHead == p then after else bucket.hhHead, bucket.count - 1, bucket.expandMult)
  }

  lemma RemoveBucket(chain: seq<Ptr>, bucket: Bucket, next: Field, prev: Field, k: nat)
    requires BucketOk(chain, bucket, next, prev) && k < |chain|
    ensures NodeAt(chain, next, prev, k) && bucket.count > 0
    ensures var p := chain[k]; BucketOk(Removed(chain, k), BucketWithout(bucket, p, next[p]), UnlinkNext(next, p, prev[p]), UnlinkPrev(prev, p, next[p]))
  {
    assert NodeAt(chain, next, prev, k);
    Remove(chain, next, prev, k);
    LinkedNoDup(chain, next, prev);
    assert Nth(Removed(chain, k), 0) == if k == 0 then Nth(chain, 1) else chain[0];
  }

  /** One item leaves its bucket. */
  lemma ChainsRemove(items: seq<Ptr>, chains: seq<seq<Ptr>>, buckets: seq<Bucket>, next: Field, prev: Field, hashv: map<Ptr, nat>, b: nat, k: nat, rest: seq<Ptr>)
    requires ChainsOk(items, chains, buckets, next, prev, hashv) && b < |buckets| && k < |chains[b]|
    requires forall q :: q in rest <==> q in items && q != chains[b][k]
    ensures NodeAt(chains[b], next, prev, k) && buckets[b].count > 0
    ensures var p := chains[b][k];
      ChainsOk(rest, chains[b := Removed(chains[b], k)], buckets[b := BucketWithout(buckets[b], p, next[p])],
               UnlinkNext(next, p, prev[p]), UnlinkPrev(prev, p, next[p]), hashv)
  {
    var p := chains[b][k];
    RemoveBucket(chains[b], buckets[b], next, prev, k);
    var chains1, buckets1 := chains[b := Removed(chains[b], k)], buckets[b := BucketWithout(buckets[b], p, next[p])];
    var next1, prev1 := UnlinkNext(next, p, prev[p]), UnlinkPrev(prev, p, next[p]);
    forall c | 0 <= c < |chains|
      ensures BucketOk(chains1[c], buckets1[c], next1, prev1)
    {
      RemoveLinks(items, chains, buckets, next, prev, hashv, b, k, c);
    }
    LinkedNoDup(chains[b], next, prev);
    assert p in chains[b] && ToBkt(hashv[p], |buckets|) == b;
    forall c, q | 0 <= c < |chains|
      ensures q in chains1[c] <==> q in rest && ToBkt(hashv[q], |buckets|) == c
    {
      assert q in chains1[c] <==> q in chains[c] && (c == b ==> q != p);
    }
  }

  // ------------------------------------------------------------------------------------- counts

  function SumCounts(buckets: seq<Bucket>, n: nat): (sum: nat)
    requires n <= |buckets|
  {
    if n == 0 then 0 else SumCounts(buckets, n - 1) + buckets[n - 1].count
  }

  function Members(s: seq<Ptr>): (r: set<Ptr>) {
    set p | p in s
  }

  lemma {:induction false} DistinctMembers(s: seq<Ptr>)
    requires NoDup(s)
    ensures |Members(s)| == |s|
  {
    if s != [] {
      var rest := s[1..];
      DistinctMembers(rest);
      assert s[0] !in rest && Members(s) == Members(rest) + {s[0]};
    }
  }

  /** The items of the first `n` buckets. */
  function InFirst(items: seq<Ptr>, hashv: map<Ptr, nat>, buckets: nat, n: nat): (r: set<Ptr>)
    requires buckets > 0 && forall p :: p in items ==> p in hashv
  {
    set p | p in items && ToBkt(hashv[p], buckets) < n
  }

  lemma OneMore(items: seq<Ptr>, chain: seq<Ptr>, hashv: map<Ptr, nat>, buckets: nat, n: nat)
    requires buckets > 0 && (forall p :: p in items ==> p in hashv) && NoDup(chain)
    requires forall p :: p in chain <==> p in items && ToBkt(hashv[p], buckets) == n
    ensures |InFirst(items, hashv, buckets, n + 1)| == |InFirst(items, hashv, buckets, n)| + |chain|
  {
    DistinctMembers(chain);
    var before := InFirst(items, hashv, buckets, n);
    assert InFirst(items, hashv, buckets, n + 1) == before + Members(chain) && before !! Members(chain);
  }

  lemma {:induction false} CountsUpTo(items: seq<Ptr>, chains: seq<seq<Ptr>>, buckets: seq<Bucket>, next: Field, prev: Field, hashv: map<Ptr, nat>, n: nat)
    requires ChainsOk(items, chains, buckets, next, prev, hashv) && n <= |buckets|
    ensures |InFirst(items, hashv, |buckets|, n)| == SumCounts(buckets, n)
  {
    if n == 0 {
      assert InFirst(items, hashv, |buckets|, n) == {};
    } else {
      CountsUpTo(items, chains, buckets, next, prev, hashv, n - 1);
      assert BucketOk(chains[n - 1], buckets[n - 1], next, prev);
      LinkedNoDup(chains[n - 1], next, prev);
      OneMore(items, chains[n - 1], hashv, |buckets|, n - 1);
    }
  }

  /** The bucket counts add up to the number of items. */
  lemma CountsAddUp(items: seq<Ptr>, chains: seq<seq<Ptr>>, buckets: seq<Bucket>, next: Field, prev: Field, hashv: map<Ptr, nat>)
    requires ChainsOk(items, chains, buckets, next, prev, hashv) && NoDup(items)
    ensures SumCounts(buckets, |buckets|) == |items|
  {
    CountsUpTo(items, chains, buckets, next, prev, hashv, |buckets|);
    DistinctMembers(items);
    assert InFirst(items, hashv, |buckets|, |buckets|) == Members(items);
  }

  // ----------------------------------------------------------------------------- ideal chain length

  /** The length every chain would have if the items were spread evenly over twice the buckets. */
  function IdealMaxlen(items: nat, log2: nat, buckets: nat): (n: nat)
    requires buckets > 0
  {
    items / Pow2(log2 + 1) + if And(items, 2 * buckets - 1) != 0 then 1 else 0
  }

  lemma MultipleAtLeast(x: nat, d: nat)
    requires x > 0 && d > 0 && x % d == 0
    ensures x >= d
  {
  }

  lemma AtLeastOnce(x: nat, d: nat)
    requires 0 < d <= x
    ensures x / d >= 1
  {
    assert x == d * (x / d) + x % d;
  }

  lemma PositiveSum(x: nat, d: nat, e: nat, mask: nat)
    requires x > 0 && 0 < e <= d && mask == x % d
    ensures x / e + (if mask != 0 then 1 else 0) > 0
  {
    if mask == 0 {
      MultipleAtLeast(x, d);
      AtLeastOnce(x, e);
    }
  }

  lemma MaskOfTwice(x: nat, k: nat, n: nat, log2: nat)
    requires n == Pow2(k) && log2 <= k
    ensures And(x, 2 * n - 1) == x % (2 * n) && Pow2(log2 + 1) <= 2 * n
  {
    MaskIsRemainder(x, k + 1);
    Pow2Grows(log2 + 1, k + 1);
  }

  /** It is never a zero divisor, even though the table starts with 512 buckets and a logarithm of 5. */
  lemma IdealNonZero(items: nat, log2: nat, buckets: nat)
    requires items > 0 && buckets == Pow2(log2 + EXTRA)
    ensures IdealMaxlen(items, log2, buckets) > 0
  {
    MaskOfTwice(items, log2 + EXTRA, buckets, log2);
    PositiveSum(items, 2 * buckets, Pow2(log2 + 1), And(items, 2 * buckets - 1));
  }

  // ----------------------------------------------------------------------------------- the table

  /** Items remember their hash, and `index` is the plain map from keys to items. */
  ghost predicate KeysOk(items: seq<Ptr>, index: map<PageId, Ptr>, key: map<Ptr, PageId>, hashv: map<Ptr, nat>, hash: PageId -> nat) {
    && (forall p :: p in items ==> p in key && p in hashv && hashv[p] == hash(key[p]) && key[p] in index && index[key[p]] == p)
    && (forall k :: k in index ==> index[k] in items && key[index[k]] == k)
  }

  ghost predicate ListOk(items: seq<Ptr>, next: Field, prev: Field, head: Ptr, tail: Ptr) {
    Linked(items, next, prev) && head == Nth(items, 0) && (items != [] ==> tail == Nth(items, |items| - 1))
  }

  function EmptyBuckets(n: nat): (bs: seq<Bucket>) {
    seq(n, _ => Bucket(NULL, 0, 0))
  }

  function EmptyChains(n: nat): (cs: seq<seq<Ptr>>) {
    seq(n, _ => [])
  }

  /** Items already in the new buckets: those of the first `i` old ones and of a part of the next. */
  ghost predicate Done(done: seq<Ptr>, items: seq<Ptr>, hashv: map<Ptr, nat>, n: nat, i: nat, part: seq<Ptr>)
    requires n > 0 && forall p :: p in items ==> p in hashv
  {
    forall p :: p in done <==> p in items && (ToBkt(hashv[p], n) < i || (ToBkt(hashv[p], n) == i && p in part))
  }

  /** `expand_mult` of a bucket that is longer than ideal. */
  function ExpandMult(count: nat, ideal: nat): (m: nat)
    requires ideal > 0
  {
    count / ideal
  }

  /** The chain links of items not yet moved are as they were. */
  ghost predicate Unmoved(done: seq<Ptr>, items: seq<Ptr>, was: Field, next: Field) {
    forall p :: p in items && p !in done ==> p in was && p in next && next[p] == was[p]
  }

  lemma ForwardLinks(chain: seq<Ptr>, next: Field, prev: Field)
    requires Linked(chain, next, prev)
    ensures Forward(chain, next)
  {
    forall j | 0 <= j < |chain|
      ensures StepsTo(chain, next, j)
    {
      assert NodeAt(chain, next, prev, j);
    }
  }

  lemma AllLinked(items: seq<Ptr>, chains: seq<seq<Ptr>>, buckets: seq<Bucket>, next: Field, prev: Field, hashv: map<Ptr, nat>)
    requires ChainsOk(items, chains, buckets, next, prev, hashv)
    ensures Unmoved([], items, next, next)
  {
    forall p | p in items
      ensures p in next
    {
      var b := ToBkt(hashv[p], |buckets|);
      assert BucketOk(chains[b], buckets[b], next, prev);
      assert p in chains[b];
      LinkedNoDup(chains[b], next, prev);
    }
  }

  lemma HashFrame(items: seq<Ptr>, chains: seq<seq<Ptr>>, buckets: seq<Bucket>, next: Field, prev: Field, hashv: map<Ptr, nat>, p: Ptr, h: nat)
    requires ChainsOk(items, chains, buckets, next, prev, hashv) && p !in items
    ensures ChainsOk(items, chains, buckets, next, prev, hashv[p := h])
  {
    assert forall q :: q in items ==> hashv[p := h][q] == hashv[q];
  }

  lemma KeysWithout(items: seq<Ptr>, index: map<PageId, Ptr>, key: map<Ptr, PageId>, hashv: map<Ptr, nat>, hash: PageId -> nat, p: Ptr, rest: seq<Ptr>)
    requires KeysOk(items, index, key, hashv, hash) && p in items && forall q :: q in rest <==> q in items && q != p
    ensures KeysOk(rest, index - {key[p]}, key, hashv, hash)
  {
  }

  lemma ChainIndex(items: seq<Ptr>, chains: seq<seq<Ptr>>, buckets: seq<Bucket>, next: Field, prev: Field, hashv: map<Ptr, nat>, p: Ptr) returns (k: nat)
    requires ChainsOk(items, chains, buckets, next, prev, hashv) && p in items
    ensures var b := ToBkt(hashv[p], |buckets|);
      k < |chains[b]| && chains[b][k] == p && p in next && p in prev && buckets[b].count > 0
  {
    var b := ToBkt(hashv[p], |buckets|);
    assert BucketOk(chains[b], buckets[b], next, prev) && p in chains[b];
    k :| 0 <= k < |chains[b]| && chains[b][k] == p;
    assert NodeAt(chains[b], next, prev, k);
  }

  /** The chains once an item is deleted. */
  lemma ChainsWithout(items: seq<Ptr>, chains: seq<seq<Ptr>>, buckets: seq<Bucket>, next: Field, prev: Field, hashv: map<Ptr, nat>, p: Ptr, rest: seq<Ptr>)
    returns (cs: seq<seq<Ptr>>)
    requires ChainsOk(items, chains, buckets, next, prev, hashv) && p in items && forall q :: q in rest <==> q in items && q != p
    ensures p in next && p in prev && buckets[ToBkt(hashv[p], |buckets|)].count > 0
    ensures var b := ToBkt(hashv[p], |buckets|);
      ChainsOk(rest, cs, buckets[b := BucketWithout(buckets[b], p, next[p])], UnlinkNext(next, p, prev[p]), UnlinkPrev(prev, p, next[p]), hashv)
  {
    var b := ToBkt(hashv[p], |buckets|);
    var k := ChainIndex(items, chains, buckets, next, prev, hashv, p);
    ChainsRemove(items, chains, buckets, next, prev, hashv, b, k, rest);
    cs := chains[b := Removed(chains[b], k)];
  }

  /** An item without neighbours is the only one. */
  lemma Neighbours(items: seq<Ptr>, next: Field, prev: Field, p: Ptr)
    requires Linked(items, next, prev) && p in items
    ensures p in next && p in prev
    ensures prev[p] == NULL && next[p] == NULL ==> Drop(items, p) == []
  {
    var i :| 0 <= i < |items| && items[i] == p;
    assert NodeAt(items, next, prev, i);
    NthNull(items, next, prev, i - 1);
    NthNull(items, next, prev, i + 1);
    if prev[p] == NULL && next[p] == NULL {
      assert items == [p];
    }
  }

  /** The list once an item is deleted. */
  lemma ListWithout(items: seq<Ptr>, next: Field, prev: Field, head: Ptr, tail: Ptr, p: Ptr) returns (rest: seq<Ptr>)
    requires ListOk(items, next, prev, head, tail) && p in items
    ensures p in next && p in prev && rest == Drop(items, p) && |rest| == |items| - 1
    ensures forall q :: q in rest <==> q in items && q != p
    ensures prev[p] == NULL && next[p] == NULL <==> rest == []
    ensures ListOk(rest, UnlinkNext(next, p, prev[p]), UnlinkPrev(prev, p, next[p]),
                   if prev[p] == NULL then next[p] else head, if p == tail then prev[p] else tail)
  {
    var i :| 0 <= i < |items| && items[i] == p;
    assert NodeAt(items, next, prev, i);
    LinkedNoDup(items, next, prev);
    RemovedIsDrop(items, i);
    Remove(items, next, prev, i);
    rest := Removed(items, i);
    NthNull(items, next, prev, i - 1);
    NthNull(items, next, prev, i + 1);
    assert Nth(rest, 0) == (if i == 0 then Nth(items, 1) else items[0]);
    assert Nth(rest, |rest| - 1) == (if i == |items| - 1 then Nth(items, i - 1) else items[|items| - 1]);
  }

  class Table {
    const hash: PageId -> nat
    var next: Field
    var prev: Field
    var hhNext: Field
    var hhPrev: Field
    var key: map<Ptr, PageId>
    var hashv: map<Ptr, nat>
    var head: Ptr
    var tail: Ptr
    var buckets: seq<Bucket>
    var log2: nat
    var numItems: nat
    var ineffExpands: nat
    var noexpand: bool
    /** The items in application order, and the nodes of each bucket. */
    ghost var items: seq<Ptr>
    ghost var chains: seq<seq<Ptr>>
    /** The plain map the table implements. */
    ghost var index: map<PageId, Ptr>

    ghost predicate Valid()
      reads this
    {
      && ListOk(items, next, prev, head, tail) && numItems == |items|
      && KeysOk(items, index, key, hashv, hash)
      && (items != [] ==> ChainsOk(items, chains, buckets, hhNext, hhPrev, hashv) && |buckets| == Pow2(log2 + EXTRA))
    }

    constructor (hash: PageId -> nat)
      ensures Valid() && items == [] && index == map[]
    {
      this.hash := hash;
      next, prev, hhNext, hhPrev, key, hashv := map[], map[], map[], map[], map[], map[];
      head, tail, buckets, log2, numItems, ineffExpands, noexpand := NULL, NULL, [], 0, 0, 0, false;
      items, chains, index := [], [], map[];
    }

    /** `HASH_FIND_IN_BKT`: the walk along one chain. */
    method FindInBkt(first: Ptr, ghost chain: seq<Ptr>, k: PageId) returns (out: Ptr)
      requires Linked(chain, hhNext, hhPrev) && first == Nth(chain, 0)
      requires forall p :: p in chain ==> p in key && p in hashv && hashv[p] == hash(key[p])
      ensures out != NULL ==> out in chain && key[out] == k
      ensures out == NULL ==> forall p :: p in chain ==> key[p] != k
    {
      out := first;
      ghost var i := 0;
      while out != NULL
        invariant 0 <= i <= |chain| && out == Nth(chain, i)
        invariant forall j :: 0 <= j < i ==> key[chain[j]] != k
        decreases |chain| - i
      {
        assert NodeAt(chain, hhNext, hhPrev, i) && chain[i] in chain;
        if hashv[out] == hash(k) && key[out] == k {
          return;
        }
        out := hhNext[out];
        i := i + 1;
      }
      NthNull(chain, hhNext, hhPrev, i);
    }

    /** `HASH_FIND`: the item with the key, if there is one. */
    method Find(k: PageId) returns (out: Ptr)
      requires Valid()
      ensures out == if k in index then index[k] else NULL
    {
      NthNull(items, next, prev, 0);
      if head == NULL {
        return NULL;
      }
      var b := ToBkt(hash(k), |buckets|);
      out := FindInBkt(buckets[b].hhHead, chains[b], k);
      if k in index {
        assert index[k] in chains[b];
      }
    }

    /** `HASH_ITER`: the items in application order. */
    method Iterate() returns (out: seq<Ptr>)
      requires ListOk(items, next, prev, head, tail)
      ensures out == items
    {
      out := [];
      var p := head;
      while p != NULL
        invariant |out| <= |items| && out == items[..|out|] && p == Nth(items, |out|)
        decreases |items| - |out|
      {
        assert NodeAt(items, next, prev, |out|);
        out := out + [p];
        p := next[p];
      }
      NthNull(items, next, prev, |out|);
    }

    /** One node to the front of its new bucket. */
    method MoveNode(thh: Ptr, ideal: nat, bs: seq<Bucket>, ghost cs: seq<seq<Ptr>>, ghost done: seq<Ptr>)
      returns (over: bool, bs1: seq<Bucket>, ghost cs1: seq<seq<Ptr>>)
      requires ideal > 0 && ChainsOk(done, cs, bs, hhNext, hhPrev, hashv) && thh != NULL && thh !in done && thh in hashv
      modifies `hhNext, `hhPrev
      ensures |bs1| == |bs| && ChainsOk(done + [thh], cs1, bs1, hhNext, hhPrev, hashv)
      ensures thh in hhNext && hhNext == old(hhNext)[thh := hhNext[thh]]
    {
      var b := ToBkt(hashv[thh], |bs|);
      var count := bs[b].count + 1;
      over := count > ideal;
      var mult := if over then ExpandMult(count, ideal) else bs[b].expandMult;
      ChainsAdd(done, cs, bs, hhNext, hhPrev, hashv, thh, b, mult);
      hhNext, hhPrev := hhNext[thh := bs[b].hhHead], PushPrev(hhPrev, bs[b].hhHead, thh);
      bs1, cs1 := bs[b := Bucket(thh, count, mult)], cs[b := [thh] + cs[b]];
    }

    /** The inner loop of `HASH_EXPAND_BUCKETS`: one old chain to the new buckets. */
    method MoveChain(i: nat, ideal: nat, bs: seq<Bucket>, ghost cs: seq<seq<Ptr>>, ghost done: seq<Ptr>, ghost was: Field)
      returns (nonideal: nat, bs1: seq<Bucket>, ghost cs1: seq<seq<Ptr>>, ghost done1: seq<Ptr>)
      requires ideal > 0 && i < |buckets| == |chains| && forall p :: p in items ==> p in hashv
      requires forall p :: p in chains[i] <==> p in items && ToBkt(hashv[p], |buckets|) == i
      requires NoDup(chains[i]) && buckets[i].hhHead == Nth(chains[i], 0)
      requires Forward(chains[i], was)
      requires ChainsOk(done, cs, bs, hhNext, hhPrev, hashv)
      requires Done(done, items, hashv, |buckets|, i, []) && Unmoved(done, items, was, hhNext)
      modifies `hhNext, `hhPrev
      ensures |bs1| == |bs| && ChainsOk(done1, cs1, bs1, hhNext, hhPrev, hashv)
      ensures Done(done1, items, hashv, |buckets|, i + 1, []) && Unmoved(done1, items, was, hhNext)
    {
      nonideal, bs1, cs1, done1 := 0, bs, cs, done;
      var thh := buckets[i].hhHead;
      ghost var chain, j := chains[i], 0;
      while thh != NULL
        invariant 0 <= j <= |chain| && thh == Nth(chain, j) && |bs1| == |bs|
        invariant ChainsOk(done1, cs1, bs1, hhNext, hhPrev, hashv)
        invariant Done(done1, items, hashv, |buckets|, i, chain[..j]) && Unmoved(done1, items, was, hhNext)
        decreases |chain| - j
      {
        assert StepsTo(chain, was, j);
        var hhNxt := hhNext[thh];
        var over;
        over, bs1, cs1 := MoveNode(thh, ideal, bs1, cs1, done1);
        done1 := done1 + [thh];
        nonideal := if over then nonideal + 1 else nonideal;
        thh, j := hhNxt, j + 1;
      }
      ForwardNull(chain, was, j);
      assert chain[..j] == chain;
    }

    /** The outer loop: all old chains. */
    method MoveChains(ideal: nat) returns (nonideal: nat, bs: seq<Bucket>, ghost cs: seq<seq<Ptr>>)
      requires ideal > 0 && ChainsOk(items, chains, buckets, hhNext, hhPrev, hashv)
      modifies `hhNext, `hhPrev
      ensures |bs| == 2 * |buckets| && ChainsOk(items, cs, bs, hhNext, hhPrev, hashv)
    {
      var n := |buckets|;
      bs, cs, nonideal := EmptyBuckets(2 * n), EmptyChains(2 * n), 0;
      ghost var done, was, prevWas := [], hhNext, hhPrev;
      AllLinked(items, chains, buckets, was, prevWas, hashv);
      var i := 0;
      while i < n
        invariant 0 <= i <= n && |bs| == 2 * n
        invariant ChainsOk(done, cs, bs, hhNext, hhPrev, hashv)
        invariant Done(done, items, hashv, n, i, []) && Unmoved(done, items, was, hhNext)
      {
        LinkedNoDup(chains[i], was, prevWas);
        ForwardLinks(chains[i], was, prevWas);
        var over;
        over, bs, cs, done := MoveChain(i, ideal, bs, cs, done, was);
        nonideal := nonideal + over;
        i := i + 1;
      }
    }

    /** `HASH_EXPAND_BUCKETS`: twice the buckets for the same items. */
    method ExpandBuckets()
      requires numItems > 0 && ChainsOk(items, chains, buckets, hhNext, hhPrev, hashv) && |buckets| == Pow2(log2 + EXTRA)
      modifies `buckets, `log2, `ineffExpands, `noexpand, `hhNext, `hhPrev, `chains
      ensures ChainsOk(items, chains, buckets, hhNext, hhPrev, hashv)
      ensures |buckets| == Pow2(log2 + EXTRA) && |buckets| == 2 * old(|buckets|)
    {
      var ideal := IdealMaxlen(numItems, log2, |buckets|);
      IdealNonZero(numItems, log2, |buckets|);
      ghost var cs;
      var nonideal, bs;
      nonideal, bs, cs := MoveChains(ideal);
      buckets, chains := bs, cs;
      log2 := log2 + 1;
      ineffExpands := if nonideal > numItems / 2 then ineffExpands + 1 else 0;
      if ineffExpands > 1 {
        noexpand := true;
      }
    }

    /** `HASH_ADD_TO_BKT`: the last item enters its bucket, which may make the table expand. */
    method AddToBkt(p: Ptr, ghost others: seq<Ptr>)
      requires items == others + [p] && numItems > 0 && p != NULL && p !in others && p in hashv
      requires ChainsOk(others, chains, buckets, hhNext, hhPrev, hashv) && |buckets| == Pow2(log2 + EXTRA)
      modifies `buckets, `log2, `ineffExpands, `noexpand, `hhNext, `hhPrev, `chains
      ensures ChainsOk(items, chains, buckets, hhNext, hhPrev, hashv) && |buckets| == Pow2(log2 + EXTRA)
    {
      var b := ToBkt(hashv[p], |buckets|);
      var bucket := buckets[b];
      ChainsAdd(others, chains, buckets, hhNext, hhPrev, hashv, p, b, bucket.expandMult);
      hhNext, hhPrev := hhNext[p := bucket.hhHead], PushPrev(hhPrev, bucket.hhHead, p);
      buckets, chains := buckets[b := Bucket(p, bucket.count + 1, bucket.expandMult)], chains[b := [p] + chains[b]];
      if bucket.count + 1 >= (bucket.expandMult + 1) * CAPACITY_THRESH && !noexpand {
        ExpandBuckets();
      }
    }

    /** `HASH_APPEND_LIST`, or the first item of a list. */
    method AppendItem(p: Ptr)
      requires ListOk(items, next, prev, head, tail) && p != NULL && p !in items
      modifies `next, `prev, `head, `tail
      ensures ListOk(items + [p], next, prev, head, tail)
    {
      Append(items, next, prev, p);
      NthNull(items, next, prev, 0);
      if head == NULL {
        next, prev := next[p := NULL], prev[p := NULL];
        head := p;
      } else {
        next, prev := AppendNext(next, tail, p), prev[p := tail];
      }
      tail := p;
    }

    /** `HASH_MAKE_TABLE`. */
    method MakeTable()
      modifies `buckets, `log2, `ineffExpands, `noexpand, `chains
      ensures ChainsOk([], chains, buckets, hhNext, hhPrev, hashv) && |buckets| == Pow2(log2 + EXTRA)
    {
      buckets, log2, ineffExpands, noexpand := EmptyBuckets(INITIAL_BUCKETS), INITIAL_LOG2, 0, false;
      chains := EmptyChains(INITIAL_BUCKETS);
      assert Pow2(5) == 32;
    }

    /** The item's key, its hash and its place at the end of the list. */
    method Register(p: Ptr, k: PageId)
      requires ListOk(items, next, prev, head, tail) && KeysOk(items, index, key, hashv, hash) && p != NULL && p !in items && k !in index
      modifies `next, `prev, `head, `tail, `key, `hashv, `items, `numItems, `index
      ensures ListOk(items, next, prev, head, tail) && KeysOk(items, index, key, hashv, hash)
      ensures items == old(items) + [p] && index == old(index)[k := p] && numItems == old(numItems) + 1
      ensures key == old(key)[p := k] && hashv == old(hashv)[p := hash(k)]
    {
      AppendItem(p);
      hashv, key := hashv[p := hash(k)], key[p := k];
      items, index, numItems := items + [p], index[k := p], numItems + 1;
    }

    /** `HASH_ADD` of an item with a new key: it becomes the last one. */
    method Add(p: Ptr, k: PageId)
      requires Valid() && p != NULL && p !in items && k !in index
      modifies this
      ensures Valid() && items == old(items) + [p] && index == old(index)[k := p] && key == old(key)[p := k]
    {
      NthNull(items, next, prev, 0);
      var first := head == NULL;
      ghost var others, hashes := items, hashv;
      Register(p, k);
      if first {
        MakeTable();
      } else {
        HashFrame(others, chains, buckets, hhNext, hhPrev, hashes, p, hash(k));
      }
      AddToBkt(p, others);
    }

    /** `HASH_DEL_IN_BKT`. */
    method DelInBkt(p: Ptr)
      requires ChainsOk(items, chains, buckets, hhNext, hhPrev, hashv) && p in items
      modifies `buckets, `hhNext, `hhPrev, `chains
      ensures ChainsOk(Drop(items, p), chains, buckets, hhNext, hhPrev, hashv) && |buckets| == old(|buckets|)
    {
      DropMembers(items, p);
      chains := ChainsWithout(items, chains, buckets, hhNext, hhPrev, hashv, p, Drop(items, p));
      var b := ToBkt(hashv[p], |buckets|);
      buckets := buckets[b := BucketWithout(buckets[b], p, hhNext[p])];
      hhNext, hhPrev := UnlinkNext(hhNext, p, hhPrev[p]), UnlinkPrev(hhPrev, p, hhNext[p]);
    }

    /** The patch-up of the application order. */
    method UnlinkItem(p: Ptr)
      requires ListOk(items, next, prev, head, tail) && KeysOk(items, index, key, hashv, hash) && p in items && numItems == |items|
      modifies `next, `prev, `head, `tail, `items, `numItems, `index
      ensures ListOk(items, next, prev, head, tail) && KeysOk(items, index, key, hashv, hash)
      ensures items == Drop(old(items), p) && index == old(index - {key[p]}) && numItems == |items|
    {
      ghost var rest := ListWithout(items, next, prev, head, tail, p);
      KeysWithout(items, index, key, hashv, hash, p, rest);
      var before, after := prev[p], next[p];
      ghost var first, last := if before == NULL then after else head, if p == tail then before else tail;
      if p == tail {
        tail := before;
      }
      if before == NULL {
        head := after;
      }
      assert head == first && tail == last;
      next, prev := UnlinkNext(next, p, before), UnlinkPrev(prev, p, after);
      items, index, numItems := rest, index - {key[p]}, numItems - 1;
    }

    /** `HASH_DELETE`: the other items keep their order; with the last one the table goes. */
    method Delete(p: Ptr)
      requires Valid() && p in items
      modifies this
      ensures Valid() && items == Drop(old(items), p) && index == old(index - {key[p]}) && key == old(key)
    {
      Neighbours(items, next, prev, p);
      if prev[p] != NULL || next[p] != NULL {
        DelInBkt(p);
      }
      UnlinkItem(p);
    }

    // ------------------------------------------------------------------------------------- sorting

    /** The length of the run that starts at `p`, and the node after it. */
    method FindRun(p: Ptr, insize: nat, ghost s: seq<Ptr>) returns (psize: nat, q: Ptr)
      requires Forward(s, next) && s != [] && p == s[0] && insize > 0
      ensures psize == Least(insize, |s|) && q == Nth(s, psize)
    {
      q, psize := p, 0;
      var i := 0;
      while i < insize
        invariant 0 <= i <= insize && psize == i < |s| && q == s[psize]
      {
        assert StepsTo(s, next, psize);
        psize := psize + 1;
        q := next[q];
        ForwardNull(s, next, psize);
        if q == NULL {
          break;
        }
        i := i + 1;
      }
    }

    /** The inner loop: merges the run of `psize` nodes at `p` with up to `insize` nodes at `q`, and
        appends them to the output that ends in `last`. */
    method MergeTwo(p0: Ptr, psize0: nat, q0: Ptr, insize: nat, first0: Ptr, last0: Ptr, rank: Rank,
                    ghost out0: seq<Ptr>, ghost xs0: seq<Ptr>, ghost rest0: seq<Ptr>)
      returns (q: Ptr, first: Ptr, last: Ptr, ghost out: seq<Ptr>)
      requires Merging(out0, xs0, rest0, next, prev) && psize0 == |xs0| > 0 && p0 == xs0[0] && q0 == Nth(rest0, 0)
      requires first0 == Nth(out0, 0) && last0 == Nth(out0, |out0| - 1)
      modifies `next, `prev
      ensures out == out0 + Merge(xs0, Take(rest0, insize), rank)
      ensures Merging(out, [], Skip(rest0, insize), next, prev) && q == Nth(Skip(rest0, insize), 0)
      ensures first == Nth(out, 0) && last == Nth(out, |out| - 1)
    {
      var p, psize, qsize := p0, psize0, insize;
      q, first, last, out := q0, first0, last0, out0;
      ghost var xs, rest, goal, zs := xs0, rest0, out0 + Merge(xs0, Take(rest0, insize), rank), Skip(rest0, insize);
      while psize > 0 || (qsize > 0 && q != NULL)
        invariant MergeState(out, xs, rest, qsize, next, prev, rank, goal, zs)
        invariant psize == |xs| && (psize > 0 ==> p == xs[0]) && q == Nth(rest, 0)
        invariant first == Nth(out, 0) && last == Nth(out, |out| - 1)
        decreases psize + |rest|
      {
        ForwardNull(rest, next, 0);
        OutNull(out, next, prev);
        var e;
        if psize > 0 && (qsize == 0 || q == NULL || rank(p) <= rank(q)) {
          StepFirst(out, xs, rest, qsize, next, prev, rank, goal, zs);
          e := p;
          p, psize := next[p], psize - 1;
          xs := xs[1..];
        } else {
          StepSecond(out, xs, rest, qsize, next, prev, rank, goal, zs);
          e := q;
          q, qsize := next[q], qsize - 1;
          rest := rest[1..];
        }
        next, prev := LinkAfter(next, last, e), prev[e := last];
        first := if last == NULL then e else first;
        last := e;
        out := out + [e];
      }
      ForwardNull(rest, next, 0);
    }

    /** The next two runs. */
    method MergeNext(p: Ptr, insize: nat, first0: Ptr, last0: Ptr, rank: Rank, ghost out0: seq<Ptr>, ghost rest: seq<Ptr>)
      returns (q: Ptr, first: Ptr, last: Ptr, ghost out: seq<Ptr>)
      requires Merging(out0, [], rest, next, prev) && rest != [] && p == rest[0] && insize > 0
      requires first0 == Nth(out0, 0) && last0 == Nth(out0, |out0| - 1)
      modifies `next, `prev
      ensures out == out0 + Merge(Take(rest, insize), Take(Skip(rest, insize), insize), rank)
      ensures var zs := Skip(Skip(rest, insize), insize); Merging(out, [], zs, next, prev) && q == Nth(zs, 0)
      ensures first == Nth(out, 0) && last == Nth(out, |out| - 1)
    {
      SplitRun(out0, rest, insize, next, prev);
      var psize, mid := FindRun(p, insize, rest);
      q, first, last, out := MergeTwo(p, psize, mid, insize, first0, last0, rank, out0, Take(rest, insize), Skip(rest, insize));
    }

    /** One pass over the list with runs of `insize`. */
    method SortPass(list: Ptr, insize: nat, rank: Rank, ghost s: seq<Ptr>)
      returns (first: Ptr, last: Ptr, nmerges: nat, ghost out: seq<Ptr>)
      requires Linked(s, next, prev) && s != [] && list == s[0] && insize > 0
      modifies `next, `prev
      ensures out == Pass(s, insize, rank) && Linked(out, next, prev)
      ensures first == Nth(out, 0) && last == Nth(out, |out| - 1) && (nmerges <= 1 <==> |s| <= 2 * insize)
    {
      PassStart(s, next, prev);
      var p := list;
      first, last, nmerges, out := NULL, NULL, 0, [];
      ghost var rest := s;
      while p != NULL
        invariant Merging(out, [], rest, next, prev) && p == Nth(rest, 0)
        invariant first == Nth(out, 0) && last == Nth(out, |out| - 1)
        invariant PassState(s, insize, rank, nmerges, out, rest)
        decreases |rest|
      {
        PassStep(s, insize, rank, nmerges, out, rest);
        nmerges := nmerges + 1;
        p, first, last, out := MergeNext(p, insize, first, last, rank, out, rest);
        rest := Skip(Skip(rest, insize), insize);
      }
      ForwardNull(rest, next, 0);
      PassEnd(out, next, prev);
      next := next[last := NULL];
    }

    /** The passes, until one merge was enough. */
    method SortList(rank: Rank)
      requires ListOk(items, next, prev, head, tail) && items != []
      modifies `next, `prev, `head, `tail
      ensures ListOk(SortFrom(items, 1, rank), next, prev, head, tail)
    {
      var insize, list, looping := 1, head, true;
      ghost var s := items;
      while looping
        invariant Linked(s, next, prev) && s != [] && list == s[0] && insize > 0
        invariant looping ==> SortFrom(s, insize, rank) == SortFrom(items, 1, rank)
        invariant !looping ==> s == SortFrom(items, 1, rank) && head == s[0] && tail == Nth(s, |s| - 1)
        decreases looping, |s| - insize
      {
        PassLength(s, insize, rank);
        var last, nmerges;
        list, last, nmerges, s := SortPass(list, insize, rank, s);
        if nmerges <= 1 {
          looping, tail, head := false, last, list;
        }
        insize := 2 * insize;
      }
    }

    /** `HASH_SRT`: the items become the stable sort of themselves; the buckets are not touched. */
    method Sort(rank: Rank)
      requires Valid()
      modifies `next, `prev, `head, `tail, `items
      ensures Valid() && items == SortFrom(old(items), 1, rank)
    {
      NthNull(items, next, prev, 0);
      LinkedNoDup(items, next, prev);
      SortItems(items, rank);
      if head != NULL {
        SortList(rank);
        ghost var sorted := SortFrom(items, 1, rank);
        items := sorted;
      }
    }
  }

  /** The bucket counts of a table add up to its number of items. */
  lemma TableCounts(t: Table)
    requires t.Valid() && t.items != []
    ensures SumCounts(t.buckets, |t.buckets|) == t.numItems
  {
    LinkedNoDup(t.items, t.next, t.prev);
    CountsAddUp(t.items, t.chains, t.buckets, t.hhNext, t.hhPrev, t.hashv);
  }
}
