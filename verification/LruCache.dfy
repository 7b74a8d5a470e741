/** lib/lrubuffer/lrucache.h: an LRU cache as a doubly linked queue with a chained hash. */
module LruCache {
  import opened Pages
  import opened Links
  import opened UtSort

  // ------------------------------------------------------------------------------ what it computes

  /** Addresses, most recently referenced first. */
  type Addrs = seq<nat>

  function MoveToFront(s: Addrs, a: nat): (r: Addrs) {
    [a] + Drop(s, a)
  }

  function Truncate(s: Addrs, n: nat): (r: Addrs) {
    s[..Least(n, |s|)]
  }

  /** One reference: a cached page moves to the front; another one enters there, in place of the
      last page if the cache is full, unless that page cannot be evicted. */
  function Reference(s: Addrs, a: nat, frames: nat, evicts: bool): (r: Addrs) {
    if a in s then MoveToFront(s, a)
    else if |s| < frames then [a] + s
    else if evicts && s != [] then [a] + s[..|s| - 1]
    else s
  }

  /** All addresses ever referenced, by their last reference. */
  function ByRecency(refs: Addrs): (r: Addrs)
    decreases |refs|
  {
    if refs == [] then [] else MoveToFront(ByRecency(refs[..|refs| - 1]), refs[|refs| - 1])
  }

  function CacheAfter(refs: Addrs, frames: nat): (r: Addrs)
    decreases |refs|
  {
    if refs == [] then [] else Reference(CacheAfter(refs[..|refs| - 1], frames), refs[|refs| - 1], frames, true)
  }

  lemma {:induction false} DropNoDup(s: Addrs, a: nat)
    requires NoDup(s)
    ensures NoDup(Drop(s, a)) && |Drop(s, a)| == if a in s then |s| - 1 else |s|
  {
    if s != [] {
      DropNoDup(s[1..], a);
      DropMembers(s[1..], a);
      assert s[0] !in s[1..];
      if s[0] == a {
        DropNone(s[1..], a);
      }
    }
  }

  /** Dropping an address commutes with keeping the first ones. */
  lemma {:induction false} DropPrefix(s: Addrs, a: nat, n: nat)
    requires NoDup(s) && n <= |s|
    ensures a in s[..n] ==> Drop(s[..n], a) == Truncate(Drop(s, a), n - 1)
    ensures a !in s[..n] ==> n <= |Drop(s, a)| + 1 && Truncate(Drop(s, a), n) == Truncate(s[..n], |Drop(s, a)|)
  {
    DropNoDup(s, a);
    if n > 0 {
      var t := s[1..];
      assert s[..n] == [s[0]] + t[..n - 1];
      DropPrefix(t, a, n - 1);
      if s[0] == a {
        assert a !in t;
        DropNone(t, a);
        DropNone(t[..n - 1], a);
      } else {
        DropNoDup(t, a);
      }
    }
  }

  lemma ReferenceTruncates(s: Addrs, a: nat, frames: nat)
    requires NoDup(s)
    ensures Reference(Truncate(s, frames), a, frames, true) == Truncate(MoveToFront(s, a), frames)
  {
    var n := Least(frames, |s|);
    var q := s[..n];
    DropNoDup(s, a);
    if a in q {
      DropPrefix(s, a, n);
    } else if n < frames {
      assert q == s;
      DropNone(s, a);
    } else if frames > 0 {
      FullReference(s, a, n);
    }
  }

  /** A full cache gives up its last entry. */
  lemma FullReference(s: Addrs, a: nat, n: nat)
    requires NoDup(s) && 0 < n <= |s| && a !in s[..n]
    ensures Truncate(MoveToFront(s, a), n) == [a] + s[..n - 1]
  {
    DropNoDup(s, a);
    DropPrefix(s, a, n - 1);
    assert s[..n] == s[..n - 1] + [s[n - 1]];
    assert Truncate(s[..n - 1], |Drop(s, a)|) == s[..n - 1];
  }

  lemma {:induction false} RecencyNoDup(refs: Addrs)
    ensures NoDup(ByRecency(refs))
    decreases |refs|
  {
    if refs != [] {
      var before, a := ByRecency(refs[..|refs| - 1]), refs[|refs| - 1];
      RecencyNoDup(refs[..|refs| - 1]);
      DropNoDup(before, a);
      DropMembers(before, a);
    }
  }

  /** After any references the cache holds the most recently referenced addresses, in that order:
      the page that leaves is always the least recently referenced one. */
  lemma {:induction false} HoldsMostRecent(refs: Addrs, frames: nat)
    ensures CacheAfter(refs, frames) == Truncate(ByRecency(refs), frames)
    decreases |refs|
  {
    if refs != [] {
      var before, a := refs[..|refs| - 1], refs[|refs| - 1];
      HoldsMostRecent(before, frames);
      RecencyNoDup(before);
      ReferenceTruncates(ByRecency(before), a, frames);
    }
  }

  // ------------------------------------------------------------------------------- the chained hash

  function Idx(hash: nat -> nat, a: nat, capacity: nat): (i: nat)
    requires capacity > 0
    ensures i < capacity
  {
    hash(a) % capacity
  }

  /** `where` gives the chain node of every address in the hash. */
  ghost predicate HashOk(chains: seq<seq<Ptr>>, heads: seq<Ptr>, next: Field, addrOf: map<Ptr, nat>, where: map<nat, Ptr>, hash: nat -> nat) {
    && NodesOk(chains, |heads|, addrOf, where, hash)
    && (forall b :: 0 <= b < |chains| ==> ChainOk(chains[b], heads[b], next))
  }

  ghost predicate ChainOk(chain: seq<Ptr>, head: Ptr, next: Field) {
    Forward(chain, next) && head == Nth(chain, 0)
  }

  lemma {:induction false} ForwardOnce(s: seq<Ptr>, next: Field, i: nat, j: nat)
    requires Forward(s, next) && i < j < |s|
    ensures s[i] != s[j]
    decreases |s| - j
  {
    assert StepsTo(s, next, i) && StepsTo(s, next, j);
    if j + 1 < |s| {
      ForwardOnce(s, next, i + 1, j + 1);
    } else {
      assert StepsTo(s, next, i + 1);
    }
  }

  lemma ForwardNoDup(s: seq<Ptr>, next: Field)
    requires Forward(s, next)
    ensures NoDup(s) && forall p :: p in s ==> p != NULL && p in next
  {
    forall i, j | 0 <= i < j < |s|
      ensures s[i] != s[j]
    {
      ForwardOnce(s, next, i, j);
    }
    forall p | p in s
      ensures p != NULL && p in next
    {
      var i :| 0 <= i < |s| && s[i] == p;
      assert StepsTo(s, next, i);
    }
  }

  lemma ForwardFrame(s: seq<Ptr>, next: Field, next1: Field)
    requires Forward(s, next) && forall p :: p in s ==> p in next && p in next1 && next1[p] == next[p]
    ensures Forward(s, next1)
  {
    forall i | 0 <= i < |s|
      ensures StepsTo(s, next1, i)
    {
      assert StepsTo(s, next, i) && s[i] in s;
    }
  }

  lemma ForwardAppend(s: seq<Ptr>, next: Field, h: Ptr)
    requires Forward(s, next) && h != NULL && h !in s
    ensures Forward(s + [h], AppendNext(next, Nth(s, |s| - 1), h))
  {
    var n, t := |s|, s + [h];
    var next1 := AppendNext(next, Nth(s, n - 1), h);
    ForwardNoDup(s, next);
    forall i | 0 <= i < |t|
      ensures StepsTo(t, next1, i)
    {
      if i < n {
        assert StepsTo(s, next, i) && t[i] == s[i] && s[i] in s;
        assert i != n - 1 ==> s[i] != s[n - 1];
      }
    }
  }

  lemma ForwardRemove(s: seq<Ptr>, next: Field, k: nat)
    requires Forward(s, next) && k < |s| && s[k] in next
    ensures Forward(Removed(s, k), UnlinkNext(next, s[k], Nth(s, k - 1)))
  {
    var r := Removed(s, k);
    var next1 := UnlinkNext(next, s[k], Nth(s, k - 1));
    ForwardNoDup(s, next);
    forall i | 0 <= i < |r|
      ensures StepsTo(r, next1, i)
    {
      var at := if i < k then i else i + 1;
      assert StepsTo(s, next, at) && StepsTo(s, next, k) && r[i] == s[at];
      assert k > 0 ==> StepsTo(s, next, k - 1);
      assert Nth(r, i + 1) == Nth(s, if i + 1 < k then i + 1 else i + 2);
      assert s[at] == Nth(s, k - 1) <==> at == k - 1;
    }
  }

  lemma HashApart(chains: seq<seq<Ptr>>, heads: seq<Ptr>, next: Field, addrOf: map<Ptr, nat>, where: map<nat, Ptr>, hash: nat -> nat, b: nat, c: nat, h: Ptr)
    requires HashOk(chains, heads, next, addrOf, where, hash) && b < |heads| && c < |heads| && b != c && (h == NULL || h in chains[b])
    ensures h !in chains[c]
  {
    assert ChainOk(chains[c], heads[c], next);
    ForwardNoDup(chains[c], next);
    assert h in chains[b] ==> InChain(h, b, |heads|, addrOf, where, hash);
    assert h in chains[c] ==> InChain(h, c, |heads|, addrOf, where, hash);
  }

  /** What is known of one chain. */
  lemma ChainFacts(chains: seq<seq<Ptr>>, heads: seq<Ptr>, next: Field, addrOf: map<Ptr, nat>, where: map<nat, Ptr>, hash: nat -> nat, b: nat)
    requires HashOk(chains, heads, next, addrOf, where, hash) && b < |heads|
    ensures ChainOk(chains[b], heads[b], next) && forall h :: h in chains[b] ==> h in addrOf
  {
    forall h | h in chains[b]
      ensures h in addrOf
    {
      assert InChain(h, b, |heads|, addrOf, where, hash);
    }
  }

  lemma InsertLinks(chains: seq<seq<Ptr>>, heads: seq<Ptr>, next: Field, addrOf: map<Ptr, nat>, where: map<nat, Ptr>, hash: nat -> nat, h: Ptr, b: nat, c: nat)
    requires HashOk(chains, heads, next, addrOf, where, hash) && b < |heads| && c < |heads| && h != NULL && h !in addrOf
    ensures var last := Nth(chains[b], |chains[b]| - 1);
      ChainOk(if c == b then chains[b] + [h] else chains[c], if c == b && last == NULL then h else heads[c], AppendNext(next, last, h))
  {
    var last := Nth(chains[b], |chains[b]| - 1);
    ChainFacts(chains, heads, next, addrOf, where, hash, b);
    ChainFacts(chains, heads, next, addrOf, where, hash, c);
    ForwardNoDup(chains[c], next);
    if c == b {
      ForwardAppend(chains[b], next, h);
      assert chains[b] != [] ==> chains[b][0] in chains[b] && last in chains[b];
    } else {
      HashApart(chains, heads, next, addrOf, where, hash, b, c, last);
      ForwardFrame(chains[c], next, AppendNext(next, last, h));
    }
  }

  /** `insertHash` of an address that is not in the hash: a new node at the end of its chain. */
  lemma HashInsert(chains: seq<seq<Ptr>>, heads: seq<Ptr>, next: Field, addrOf: map<Ptr, nat>, where: map<nat, Ptr>, hash: nat -> nat, h: Ptr, a: nat)
    requires HashOk(chains, heads, next, addrOf, where, hash) && h != NULL && h !in addrOf && a !in where
    ensures var b := Idx(hash, a, |heads|); var last := Nth(chains[b], |chains[b]| - 1);
      HashOk(chains[b := chains[b] + [h]], if last == NULL then heads[b := h] else heads, AppendNext(next, last, h), addrOf[h := a], where[a := h], hash)
  {
    var b := Idx(hash, a, |heads|);
    var last := Nth(chains[b], |chains[b]| - 1);
    var chains1, heads1, next1 := chains[b := chains[b] + [h]], if last == NULL then heads[b := h] else heads, AppendNext(next, last, h);
    forall c | 0 <= c < |chains|
      ensures ChainOk(chains1[c], heads1[c], next1)
    {
      InsertLinks(chains, heads, next, addrOf, where, hash, h, b, c);
    }
    InsertNodes(chains, |heads|, addrOf, where, hash, h, a);
  }

  /** A chain's node has an address of that chain, and `where` finds it. */
  ghost predicate InChain(h: Ptr, b: nat, capacity: nat, addrOf: map<Ptr, nat>, where: map<nat, Ptr>, hash: nat -> nat) {
    capacity > 0 && h in addrOf && Idx(hash, addrOf[h], capacity) == b && addrOf[h] in where && where[addrOf[h]] == h
  }

  /** `where` gives a node with the address, in the chain of the address. */
  ghost predicate InHash(a: nat, chains: seq<seq<Ptr>>, addrOf: map<Ptr, nat>, where: map<nat, Ptr>, hash: nat -> nat)
    requires |chains| > 0 && a in where
  {
    where[a] in chains[Idx(hash, a, |chains|)] && where[a] in addrOf && addrOf[where[a]] == a
  }

  ghost predicate NodesOk(chains: seq<seq<Ptr>>, capacity: nat, addrOf: map<Ptr, nat>, where: map<nat, Ptr>, hash: nat -> nat) {
    && |chains| == capacity > 0
    && (forall b, h {:trigger InChain(h, b, capacity, addrOf, where, hash)} ::
          0 <= b < |chains| && h in chains[b] ==> InChain(h, b, capacity, addrOf, where, hash))
    && (forall a {:trigger InHash(a, chains, addrOf, where, hash)} :: a in where ==> InHash(a, chains, addrOf, where, hash))
  }

  lemma InsertNodes(chains: seq<seq<Ptr>>, capacity: nat, addrOf: map<Ptr, nat>, where: map<nat, Ptr>, hash: nat -> nat, h: Ptr, a: nat)
    requires NodesOk(chains, capacity, addrOf, where, hash) && h !in addrOf && a !in where
    ensures var b := Idx(hash, a, capacity); NodesOk(chains[b := chains[b] + [h]], capacity, addrOf[h := a], where[a := h], hash)
  {
    var b := Idx(hash, a, capacity);
    var chains1, addrOf1, where1 := chains[b := chains[b] + [h]], addrOf[h := a], where[a := h];
    forall c, x | 0 <= c < |chains| && x in chains1[c]
      ensures InChain(x, c, capacity, addrOf1, where1, hash)
    {
      assert x in chains[c] ==> InChain(x, c, capacity, addrOf, where, hash);
    }
    forall x | x in where1
      ensures InHash(x, chains1, addrOf1, where1, hash)
    {
      assert x in where ==> InHash(x, chains, addrOf, where, hash);
    }
  }

  lemma RemoveChains(chains: seq<seq<Ptr>>, heads: seq<Ptr>, next: Field, addrOf: map<Ptr, nat>, where: map<nat, Ptr>, hash: nat -> nat, b: nat, k: nat, c: nat)
    requires HashOk(chains, heads, next, addrOf, where, hash) && b < |heads| && c < |heads| && k < |chains[b]| && chains[b][k] in next
    ensures ChainOk(if c == b then Removed(chains[b], k) else chains[c], if c == b && k == 0 then next[chains[b][k]] else heads[c],
                    UnlinkNext(next, chains[b][k], Nth(chains[b], k - 1)))
  {
    var chain := chains[b];
    assert ChainOk(chain, heads[b], next) && ChainOk(chains[c], heads[c], next);
    ForwardNoDup(chains[c], next);
    if c == b {
      ForwardRemove(chain, next, k);
      assert StepsTo(chain, next, k);
      assert Nth(Removed(chain, k), 0) == if k == 0 then Nth(chain, 1) else chain[0];
    } else {
      HashApart(chains, heads, next, addrOf, where, hash, b, c, Nth(chain, k - 1));
      ForwardFrame(chains[c], next, UnlinkNext(next, chain[k], Nth(chain, k - 1)));
    }
  }

  /** `removeHash` of an address that is in the hash. */
  lemma HashRemove(chains: seq<seq<Ptr>>, heads: seq<Ptr>, next: Field, addrOf: map<Ptr, nat>, where: map<nat, Ptr>, hash: nat -> nat, b: nat, k: nat, a: nat)
    requires HashOk(chains, heads, next, addrOf, where, hash) && a in where && b == Idx(hash, a, |heads|)
    requires k < |chains[b]| && chains[b][k] == where[a] && where[a] in next
    ensures var h := where[a];
      HashOk(chains[b := Removed(chains[b], k)], heads[b := if k == 0 then next[h] else heads[b]], UnlinkNext(next, h, Nth(chains[b], k - 1)),
             addrOf, where - {a}, hash)
  {
    var h := where[a];
    var chains1, heads1 := chains[b := Removed(chains[b], k)], heads[b := if k == 0 then next[h] else heads[b]];
    var next1 := UnlinkNext(next, h, Nth(chains[b], k - 1));
    forall c | 0 <= c < |chains|
      ensures ChainOk(chains1[c], heads1[c], next1)
    {
      RemoveChains(chains, heads, next, addrOf, where, hash, b, k, c);
    }
    assert ChainOk(chains[b], heads[b], next);
    ForwardNoDup(chains[b], next);
    RemoveNodes(chains, |heads|, addrOf, where, hash, b, k, a);
  }

  lemma RemoveNodes(chains: seq<seq<Ptr>>, capacity: nat, addrOf: map<Ptr, nat>, where: map<nat, Ptr>, hash: nat -> nat, b: nat, k: nat, a: nat)
    requires NodesOk(chains, capacity, addrOf, where, hash) && a in where && b == Idx(hash, a, capacity)
    requires k < |chains[b]| && chains[b][k] == where[a] && NoDup(chains[b])
    ensures NodesOk(chains[b := Removed(chains[b], k)], capacity, addrOf, where - {a}, hash)
  {
    var chains1, where1 := chains[b := Removed(chains[b], k)], where - {a};
    RemovedMembers(chains[b], k);
    assert InHash(a, chains, addrOf, where, hash);
    forall c, x | 0 <= c < |chains| && x in chains1[c]
      ensures InChain(x, c, capacity, addrOf, where1, hash)
    {
      assert InChain(x, c, capacity, addrOf, where, hash);
    }
    forall x | x in where1
      ensures InHash(x, chains1, addrOf, where1, hash)
    {
      assert InHash(x, chains, addrOf, where, hash);
    }
  }

  // --------------------------------------------------------------------------- queue and hash together

  /** The addresses of the queue's nodes. */
  function Addresses(queue: seq<Ptr>, addr: map<Ptr, nat>): (r: Addrs)
    requires forall q :: q in queue ==> q in addr
    ensures |r| == |queue| && forall i :: 0 <= i < |queue| ==> r[i] == addr[queue[i]]
  {
    seq(|queue|, i requires 0 <= i < |queue| => addr[queue[i]])
  }

  ghost predicate QueueOk(queue: seq<Ptr>, next: Field, prev: Field, front: Ptr, rear: Ptr) {
    Linked(queue, next, prev) && front == Nth(queue, 0) && rear == Nth(queue, |queue| - 1)
  }

  /** Queue and hash index the same nodes. */
  ghost predicate IndexOk(queue: seq<Ptr>, addr: map<Ptr, nat>, where: map<nat, Ptr>, node: map<Ptr, Ptr>) {
    && (forall q :: q in queue ==> q in addr)
    && (forall q {:trigger Indexed(q, addr, where, node)} :: q in queue ==> Indexed(q, addr, where, node))
    && (forall a {:trigger Queued(a, queue, addr, where, node)} :: a in where ==> Queued(a, queue, addr, where, node))
  }

  ghost predicate Indexed(q: Ptr, addr: map<Ptr, nat>, where: map<nat, Ptr>, node: map<Ptr, Ptr>) {
    q in addr && addr[q] in where && where[addr[q]] in node && node[where[addr[q]]] == q
  }

  ghost predicate Queued(a: nat, queue: seq<Ptr>, addr: map<Ptr, nat>, where: map<nat, Ptr>, node: map<Ptr, Ptr>) {
    a in where && where[a] in node && node[where[a]] in queue && node[where[a]] in addr && addr[node[where[a]]] == a
  }

  lemma AddressMembers(queue: seq<Ptr>, addr: map<Ptr, nat>, where: map<nat, Ptr>, node: map<Ptr, Ptr>)
    requires IndexOk(queue, addr, where, node) && NoDup(queue)
    ensures NoDup(Addresses(queue, addr)) && forall a :: a in Addresses(queue, addr) <==> a in where
  {
    var s := Addresses(queue, addr);
    forall i, j | 0 <= i < j < |s|
      ensures s[i] != s[j]
    {
      assert Indexed(queue[i], addr, where, node) && Indexed(queue[j], addr, where, node);
    }
    forall a | a in where
      ensures a in s
    {
      assert Queued(a, queue, addr, where, node);
      var q := node[where[a]];
      var i :| 0 <= i < |queue| && queue[i] == q;
      assert s[i] == a;
    }
    forall a | a in s
      ensures a in where
    {
      var i :| 0 <= i < |s| && s[i] == a;
      assert Indexed(queue[i], addr, where, node);
    }
  }

  lemma AddressRemoved(queue: seq<Ptr>, addr: map<Ptr, nat>, i: nat)
    requires (forall q :: q in queue ==> q in addr) && i < |queue| && NoDup(Addresses(queue, addr))
    ensures (forall q :: q in Removed(queue, i) ==> q in addr)
    ensures Addresses(Removed(queue, i), addr) == Drop(Addresses(queue, addr), addr[queue[i]])
  {
    var s := Addresses(queue, addr);
    RemovedIsDrop(s, i);
    var r := Removed(queue, i);
    assert forall k :: 0 <= k < |r| ==> r[k] == queue[if k < i then k else k + 1] && r[k] in queue;
    assert Addresses(r, addr) == Removed(s, i);
  }

  /** A node moves to the front. */
  lemma FrontNode(queue: seq<Ptr>, next: Field, prev: Field, front: Ptr, rear: Ptr, i: nat)
    requires QueueOk(queue, next, prev, front, rear) && 0 < i < |queue|
    ensures var p := queue[i]; p in next && p in prev && prev[p] != NULL && front != p && front != NULL && (p == rear <==> next[p] == NULL)
    ensures var p := queue[i]; var next1, prev1 := UnlinkNext(next, p, prev[p]), UnlinkPrev(prev, p, next[p]);
      QueueOk([p] + Removed(queue, i), next1[p := front], PushPrev(prev1, front, p), p, if p == rear then prev[p] else rear)
  {
    var p, r := queue[i], Removed(queue, i);
    assert NodeAt(queue, next, prev, i) && NodeAt(queue, next, prev, 0);
    NthNull(queue, next, prev, i - 1);
    NthNull(queue, next, prev, i + 1);
    LinkedNoDup(queue, next, prev);
    Remove(queue, next, prev, i);
    RemovedMembers(queue, i);
    assert Nth(r, 0) == front;
    Push(r, UnlinkNext(next, p, prev[p]), UnlinkPrev(prev, p, next[p]), p);
    var all := [p] + r;
    assert Nth(all, |all| - 1) == r[|r| - 1] == queue[if i == |queue| - 1 then i - 1 else |queue| - 1];
  }

  /** The last node leaves. */
  lemma RearNode(queue: seq<Ptr>, next: Field, prev: Field, front: Ptr, rear: Ptr)
    requires QueueOk(queue, next, prev, front, rear) && queue != []
    ensures rear in next && rear in prev && rear != NULL && (front == rear <==> |queue| == 1)
    ensures QueueOk(queue[..|queue| - 1], if prev[rear] == NULL then next else next[prev[rear] := NULL], prev, if front == rear then NULL else front, prev[rear])
  {
    var n := |queue| - 1;
    assert NodeAt(queue, next, prev, n);
    NthNull(queue, next, prev, n - 1);
    LinkedNoDup(queue, next, prev);
    Remove(queue, next, prev, n);
    assert Removed(queue, n) == queue[..n];
  }

  /** A new node enters at the front. */
  lemma IndexAdd(queue: seq<Ptr>, addr: map<Ptr, nat>, where: map<nat, Ptr>, node: map<Ptr, Ptr>, q: Ptr, a: nat, h: Ptr)
    requires IndexOk(queue, addr, where, node) && q !in addr && a !in where && forall x :: x in where ==> where[x] != h
    ensures IndexOk([q] + queue, addr[q := a], where[a := h], node[h := q])
    ensures Addresses([q] + queue, addr[q := a]) == [a] + Addresses(queue, addr)
  {
    var all, addr1, where1, node1 := [q] + queue, addr[q := a], where[a := h], node[h := q];
    forall x | x in all
      ensures Indexed(x, addr1, where1, node1)
    {
      assert x in queue ==> Indexed(x, addr, where, node);
    }
    forall x | x in where1
      ensures Queued(x, all, addr1, where1, node1)
    {
      assert x in where ==> Queued(x, queue, addr, where, node);
    }
  }

  /** The last node leaves. */
  lemma IndexRemove(queue: seq<Ptr>, addr: map<Ptr, nat>, where: map<nat, Ptr>, node: map<Ptr, Ptr>)
    requires IndexOk(queue, addr, where, node) && NoDup(queue) && queue != []
    ensures var n := |queue| - 1; queue[n] in addr && addr[queue[n]] in where
    ensures var n := |queue| - 1; IndexOk(queue[..n], addr, where - {addr[queue[n]]}, node)
    ensures var n := |queue| - 1; Addresses(queue[..n], addr) == Addresses(queue, addr)[..n]
  {
    var n := |queue| - 1;
    var p, rest := queue[n], queue[..n];
    assert Removed(queue, n) == rest;
    RemovedMembers(queue, n);
    assert Indexed(p, addr, where, node);
    var where1 := where - {addr[p]};
    forall x | x in rest
      ensures Indexed(x, addr, where1, node)
    {
      assert Indexed(x, addr, where, node);
    }
    forall x | x in where1
      ensures Queued(x, rest, addr, where1, node)
    {
      assert Queued(x, queue, addr, where, node);
    }
  }

  lemma SameIndex(queue: seq<Ptr>, all: seq<Ptr>, addr: map<Ptr, nat>, where: map<nat, Ptr>, node: map<Ptr, Ptr>)
    requires IndexOk(queue, addr, where, node) && forall q :: q in all <==> q in queue
    ensures IndexOk(all, addr, where, node)
  {
    forall q | q in all
      ensures Indexed(q, addr, where, node)
    {
    }
    forall a | a in where
      ensures Queued(a, all, addr, where, node)
    {
      assert Queued(a, queue, addr, where, node);
    }
  }

  /** A node moves to the front. */
  lemma IndexFront(queue: seq<Ptr>, addr: map<Ptr, nat>, where: map<nat, Ptr>, node: map<Ptr, Ptr>, i: nat)
    requires IndexOk(queue, addr, where, node) && NoDup(queue) && i < |queue|
    ensures queue[i] in addr && IndexOk([queue[i]] + Removed(queue, i), addr, where, node)
    ensures Addresses([queue[i]] + Removed(queue, i), addr) == MoveToFront(Addresses(queue, addr), addr[queue[i]])
  {
    var p, r := queue[i], Removed(queue, i);
    var all := [p] + r;
    assert p in queue;
    assert IndexOk(all, addr, where, node) by {
      RemovedMembers(queue, i);
      SameIndex(queue, all, addr, where, node);
    }
    AddressMembers(queue, addr, where, node);
    AddressRemoved(queue, addr, i);
    assert Addresses(all, addr) == [addr[p]] + Addresses(r, addr);
  }

  /** A walk reaches the end exactly if the address is not in the hash. */
  lemma FoundIff(chains: seq<seq<Ptr>>, heads: seq<Ptr>, next: Field, addrOf: map<Ptr, nat>, where: map<nat, Ptr>, hash: nat -> nat, a: nat, i: nat)
    requires HashOk(chains, heads, next, addrOf, where, hash)
    requires var chain := chains[Idx(hash, a, |heads|)];
      i <= |chain| && (forall h :: h in chain ==> h in addrOf) && (i < |chain| ==> addrOf[chain[i]] == a) && forall j :: 0 <= j < i ==> addrOf[chain[j]] != a
    ensures a in where <==> i < |chains[Idx(hash, a, |heads|)]|
  {
    var b := Idx(hash, a, |heads|);
    assert i < |chains[b]| ==> InChain(chains[b][i], b, |heads|, addrOf, where, hash);
    assert a in where ==> InHash(a, chains, addrOf, where, hash);
  }

  lemma OldNodes(chains: seq<seq<Ptr>>, heads: seq<Ptr>, next: Field, addrOf: map<Ptr, nat>, where: map<nat, Ptr>, hash: nat -> nat, h: Ptr)
    requires HashOk(chains, heads, next, addrOf, where, hash) && h !in addrOf
    ensures forall a :: a in where ==> where[a] != h
  {
    forall a | a in where
      ensures where[a] != h
    {
      assert InHash(a, chains, addrOf, where, hash);
    }
  }

  /** A walk for an address that is in the hash ends at its node. */
  lemma ItsNode(chains: seq<seq<Ptr>>, heads: seq<Ptr>, next: Field, addrOf: map<Ptr, nat>, where: map<nat, Ptr>, hash: nat -> nat, a: nat, i: nat)
    requires HashOk(chains, heads, next, addrOf, where, hash) && a in where
    requires var chain := chains[Idx(hash, a, |heads|)];
      i <= |chain| && (forall h :: h in chain ==> h in addrOf) && (i < |chain| ==> addrOf[chain[i]] == a) && forall j :: 0 <= j < i ==> addrOf[chain[j]] != a
    ensures var chain := chains[Idx(hash, a, |heads|)];
      i < |chain| && chain[i] == where[a] && where[a] in next && where[a] != NULL && (Nth(chain, i - 1) == NULL <==> i == 0)
  {
    var b := Idx(hash, a, |heads|);
    var chain := chains[b];
    assert ChainOk(chain, heads[b], next);
    ForwardNoDup(chain, next);
    assert InHash(a, chains, addrOf, where, hash);
    var k :| 0 <= k < |chain| && chain[k] == where[a];
    assert i <= k;
    assert InChain(chain[i], b, |heads|, addrOf, where, hash) && (i > 0 ==> chain[i - 1] in chain);
  }

  lemma FirstStays(queue: seq<Ptr>, i: nat)
    requires NoDup(queue) && i < |queue| && queue[i] == Nth(queue, 0)
    ensures [queue[i]] + Removed(queue, i) == queue
  {
    assert i == 0;
  }

  // ------------------------------------------------------------------------------------ the cache

  /** Allocated nodes lie below the allocators. */
  ghost predicate Allocated(addr: map<Ptr, nat>, newQ: Ptr, hAddr: map<Ptr, nat>, newH: Ptr) {
    newQ != NULL && newH != NULL && (forall q :: q in addr ==> q < newQ) && (forall h :: h in hAddr ==> h < newH)
  }

  class Cache {
    const hash: nat -> nat
    const numberOfFrames: nat
    // the queue's nodes, and the queue
    var next: Field
    var prev: Field
    var addr: map<Ptr, nat>
    var front: Ptr
    var rear: Ptr
    var count: nat
    // the hash's nodes, and the hash
    var hNext: Field
    var hAddr: map<Ptr, nat>
    var hNode: map<Ptr, Ptr>
    var heads: seq<Ptr>
    // the allocators
    var newQ: Ptr
    var newH: Ptr
    ghost var queue: seq<Ptr>
    ghost var chains: seq<seq<Ptr>>
    ghost var where: map<nat, Ptr>

    ghost predicate Valid()
      reads this
    {
      && QueueOk(queue, next, prev, front, rear) && count == |queue| <= numberOfFrames
      && HashOk(chains, heads, hNext, hAddr, where, hash) && IndexOk(queue, addr, where, hNode)
      && Allocated(addr, newQ, hAddr, newH)
    }

    /** The cached addresses, most recently referenced first. */
    ghost function Cached(): (s: Addrs)
      requires IndexOk(queue, addr, where, hNode)
      reads this
    {
      Addresses(queue, addr)
    }

    constructor (frames: nat, capacity: nat, h: nat -> nat)
      requires capacity > 0
      ensures Valid() && Cached() == [] && numberOfFrames == frames
    {
      hash, numberOfFrames := h, frames;
      next, prev, addr, front, rear, count := map[], map[], map[], NULL, NULL, 0;
      hNext, hAddr, hNode, heads := map[], map[], map[], seq(capacity, _ => NULL);
      newQ, newH := 1, 1;
      queue, chains, where := [], seq(capacity, _ => []), map[];
    }

    /** The walk along a chain: the node with the address and the one before it, or the last one. */
    method Walk(head: Ptr, a: nat, ghost chain: seq<Ptr>) returns (last: Ptr, cur: Ptr, ghost i: nat)
      requires ChainOk(chain, head, hNext) && forall h :: h in chain ==> h in hAddr
      ensures i <= |chain| && cur == Nth(chain, i) && last == Nth(chain, i - 1) && (cur == NULL <==> i == |chain|)
      ensures (i < |chain| ==> hAddr[cur] == a) && forall j :: 0 <= j < i ==> hAddr[chain[j]] != a
    {
      last, cur, i := NULL, head, 0;
      while cur != NULL
        invariant i <= |chain| && cur == Nth(chain, i) && last == Nth(chain, i - 1)
        invariant forall j :: 0 <= j < i ==> hAddr[chain[j]] != a
        decreases |chain| - i
      {
        assert StepsTo(chain, hNext, i) && chain[i] in chain;
        if hAddr[cur] == a {
          return;
        }
        last, cur, i := cur, hNext[cur], i + 1;
      }
      ForwardNull(chain, hNext, i);
    }

    /** `findQNodeFromHash`. */
    method FindQNode(a: nat) returns (q: Ptr)
      requires HashOk(chains, heads, hNext, hAddr, where, hash) && IndexOk(queue, addr, where, hNode)
      ensures a in where ==> q in queue && q in addr && addr[q] == a
      ensures a !in where ==> q == NULL
    {
      var b := Idx(hash, a, |heads|);
      ChainFacts(chains, heads, hNext, hAddr, where, hash, b);
      ghost var i;
      var last, cur;
      last, cur, i := Walk(heads[b], a, chains[b]);
      FoundIff(chains, heads, hNext, hAddr, where, hash, a, i);
      if a in where {
        ItsNode(chains, heads, hNext, hAddr, where, hash, a, i);
        assert Queued(a, queue, addr, where, hNode);
      }
      q := if cur == NULL then NULL else hNode[cur];
    }

    /** `insertHash`: an address that is in the hash keeps its node. */
    method InsertHash(q: Ptr, a: nat)
      requires HashOk(chains, heads, hNext, hAddr, where, hash)
      requires newH != NULL && forall h :: h in hAddr ==> h < newH
      modifies `heads, `hNext, `hAddr, `hNode, `newH, `chains, `where
      ensures HashOk(chains, heads, hNext, hAddr, where, hash)
      ensures a in old(where) ==> where == old(where) && hNode == old(hNode)
      ensures a !in old(where) ==> where == old(where)[a := old(newH)] && hNode == old(hNode)[old(newH) := q]
      ensures newH != NULL && forall h :: h in hAddr ==> h < newH
    {
      var b := Idx(hash, a, |heads|);
      ChainFacts(chains, heads, hNext, hAddr, where, hash, b);
      ghost var i;
      var last, cur;
      last, cur, i := Walk(heads[b], a, chains[b]);
      FoundIff(chains, heads, hNext, hAddr, where, hash, a, i);
      if cur == NULL {
        LinkHash(q, a, b, last);
      }
    }

    /** The new node goes behind the last one of its chain, or it is the chain. */
    method LinkHash(q: Ptr, a: nat, b: nat, last: Ptr)
      requires HashOk(chains, heads, hNext, hAddr, where, hash) && a !in where
      requires b == Idx(hash, a, |heads|) && last == Nth(chains[b], |chains[b]| - 1)
      requires newH != NULL && forall h :: h in hAddr ==> h < newH
      modifies `heads, `hNext, `hAddr, `hNode, `newH, `chains, `where
      ensures HashOk(chains, heads, hNext, hAddr, where, hash)
      ensures where == old(where)[a := old(newH)] && hNode == old(hNode)[old(newH) := q]
      ensures newH != NULL && forall h :: h in hAddr ==> h < newH
    {
      ghost var chains1 := chains[b := chains[b] + [newH]];
      var heads1 := if last == NULL then heads[b := newH] else heads;
      assert HashOk(chains1, heads1, AppendNext(hNext, last, newH), hAddr[newH := a], where[a := newH], hash) by {
        HashInsert(chains, heads, hNext, hAddr, where, hash, newH, a);
      }
      heads, hNext, hAddr, hNode := heads1, AppendNext(hNext, last, newH), hAddr[newH := a], hNode[newH := q];
      chains, where := chains1, where[a := newH];
      newH := newH + 1;
    }

    /** `removeHash`. */
    method RemoveHash(a: nat)
      requires HashOk(chains, heads, hNext, hAddr, where, hash)
      modifies `heads, `hNext, `chains, `where
      ensures HashOk(chains, heads, hNext, hAddr, where, hash) && where == old(where) - {a}
    {
      var b := Idx(hash, a, |heads|);
      ChainFacts(chains, heads, hNext, hAddr, where, hash, b);
      ghost var i;
      var last, cur;
      last, cur, i := Walk(heads[b], a, chains[b]);
      FoundIff(chains, heads, hNext, hAddr, where, hash, a, i);
      if cur == NULL {
        assert where - {a} == where;
        return;
      }
      ItsNode(chains, heads, hNext, hAddr, where, hash, a, i);
      HashRemove(chains, heads, hNext, hAddr, where, hash, b, i, a);
      if last == NULL {
        heads := heads[b := hNext[cur]];
      } else {
        hNext := hNext[last := hNext[cur]];
      }
      chains, where := chains[b := Removed(chains[b], i)], where - {a};
    }

    /** `deQueue`: the last node leaves the queue once its page has been evicted. */
    method DeQueue(evictOk: bool) returns (temp: Ptr)
      requires QueueOk(queue, next, prev, front, rear) && count == |queue|
      modifies `next, `front, `rear, `count, `queue
      ensures QueueOk(queue, next, prev, front, rear) && count == |queue|
      ensures temp == (if evictOk then old(rear) else NULL) && (temp == NULL <==> !evictOk || old(queue) == [])
      ensures queue == if temp == NULL then old(queue) else old(queue)[..|old(queue)| - 1]
      ensures temp == NULL ==> unchanged(this)
    {
      NthNull(queue, next, prev, |queue| - 1);
      if rear == NULL || !evictOk {
        return NULL;
      }
      temp := rear;
      RearNode(queue, next, prev, front, rear);
      if front == rear {
        front := NULL;
      }
      rear := prev[rear];
      if rear != NULL {
        next := next[rear := NULL];
      }
      count := count - 1;
      queue := queue[..|queue| - 1];
    }

    /** The first half of `Enqueue`: a full cache gives up its last page. */
    method MakeRoom(evictOk: bool) returns (ok: bool)
      requires Valid()
      modifies `next, `front, `rear, `count, `queue, `heads, `hNext, `chains, `where
      ensures Valid() && ok == (evictOk && old(queue) != [])
      ensures Cached() == if ok then old(Cached())[..|old(queue)| - 1] else old(Cached())
      ensures forall a :: a in where ==> a in old(where)
      ensures if ok then |queue| == |old(queue)| - 1 else unchanged(this)
    {
      LinkedNoDup(queue, next, prev);
      ghost var all, index := queue, where;
      var temp := DeQueue(evictOk);
      ok := temp != NULL;
      if ok {
        IndexRemove(all, addr, index, hNode);
        assert temp == all[|all| - 1] && queue == all[..|all| - 1];
        RemoveHash(addr[temp]);
        assert IndexOk(queue, addr, where, hNode);
      }
    }

    /** The second half: the new page's node enters the queue and the hash. */
    method EnterFront(a: nat)
      requires Valid() && a !in where && count < numberOfFrames
      modifies this
      ensures Valid() && Cached() == [a] + old(Cached())
    {
      var temp := newQ;
      OldNodes(chains, heads, hNext, hAddr, where, hash, newH);
      IndexAdd(queue, addr, where, hNode, temp, a, newH);
      PushNode(a);
      InsertHash(temp, a);
      assert IndexOk(queue, addr, where, hNode);
      count := count + 1;
    }

    method PushNode(a: nat)
      requires QueueOk(queue, next, prev, front, rear) && newQ != NULL && newQ !in queue
      requires forall q :: q in addr ==> q < newQ
      modifies `next, `prev, `addr, `front, `rear, `newQ, `queue
      ensures QueueOk(queue, next, prev, front, rear) && queue == [old(newQ)] + old(queue) && addr == old(addr)[old(newQ) := a]
      ensures newQ != NULL && forall q :: q in addr ==> q < newQ
    {
      var temp := newQ;
      Push(queue, next, prev, temp);
      NthNull(queue, next, prev, |queue| - 1);
      NthNull(queue, next, prev, 0);
      addr, next, prev := addr[temp := a], next[temp := front], prev[temp := NULL];
      if rear == NULL {
        rear, front := temp, temp;
      } else {
        prev := prev[front := temp];
        front := temp;
      }
      newQ := newQ + 1;
      queue := [temp] + queue;
    }

    /** `Enqueue`, for an address that is not cached. */
    method Enqueue(a: nat, evictOk: bool)
      requires Valid() && a !in where
      modifies this
      ensures Valid() && Cached() == Reference(old(Cached()), a, numberOfFrames, evictOk)
      ensures !evictOk && |old(Cached())| == numberOfFrames ==> unchanged(this)
    {
      LinkedNoDup(queue, next, prev);
      AddressMembers(queue, addr, where, hNode);
      if count == numberOfFrames {
        var ok := MakeRoom(evictOk);
        if !ok {
          return;
        }
      }
      EnterFront(a);
    }

    /** The second case of `ReferencePage`: a cached page moves to the front. */
    method Promote(req: Ptr, ghost i: nat)
      requires QueueOk(queue, next, prev, front, rear) && 0 < i < |queue| && queue[i] == req
      modifies `next, `prev, `front, `rear, `queue
      ensures QueueOk(queue, next, prev, front, rear) && queue == [req] + Removed(old(queue), i)
    {
      FrontNode(queue, next, prev, front, rear, i);
      next := next[prev[req] := next[req]];
      if next[req] != NULL {
        prev := prev[next[req] := prev[req]];
      }
      if req == rear {
        rear := prev[req];
        assert next[rear := NULL] == next;
        next := next[rear := NULL];
      }
      next, prev := next[req := front], prev[req := NULL];
      prev := prev[next[req] := req];
      front := req;
      queue := [req] + Removed(queue, i);
    }

    /** A cached page is referenced. */
    method Touch(req: Ptr)
      requires QueueOk(queue, next, prev, front, rear) && IndexOk(queue, addr, where, hNode) && req in queue
      modifies `next, `prev, `front, `rear, `queue
      ensures QueueOk(queue, next, prev, front, rear) && IndexOk(queue, addr, where, hNode) && |queue| == |old(queue)|
      ensures Cached() == MoveToFront(old(Cached()), addr[req])
    {
      LinkedNoDup(queue, next, prev);
      ghost var i :| 0 <= i < |queue| && queue[i] == req;
      IndexFront(queue, addr, where, hNode, i);
      if req != front {
        Promote(req, i);
      } else {
        FirstStays(queue, i);
      }
    }

    /** `ReferencePage`. An eviction that fails changes nothing. */
    method ReferencePage(a: nat, evictOk: bool)
      requires Valid()
      modifies this
      ensures Valid() && Cached() == Reference(old(Cached()), a, numberOfFrames, evictOk)
      ensures a !in old(Cached()) && !evictOk && |old(Cached())| == numberOfFrames ==> unchanged(this)
    {
      LinkedNoDup(queue, next, prev);
      AddressMembers(queue, addr, where, hNode);
      var req := FindQNode(a);
      if req == NULL {
        Enqueue(a, evictOk);
      } else {
        Touch(req);
      }
    }
  }
}
