/** Doubly linked lists as the C code has them: nodes with two pointer fields, and null. A list is
    described by the sequence of its nodes. */
module Links {
  import opened Pages

  /** A node's address; no node is at address zero. */
  type Ptr = nat

  const NULL: Ptr := 0

  /** A pointer field of all nodes. */
  type Field = map<Ptr, Ptr>

  function Nth(s: seq<Ptr>, i: int): (p: Ptr) {
    if 0 <= i < |s| then s[i] else NULL
  }

  /** The `i`-th node of `s` points to its neighbours. */
  ghost predicate NodeAt(s: seq<Ptr>, next: Field, prev: Field, i: nat)
    requires i < |s|
  {
    s[i] != NULL && s[i] in next && s[i] in prev && next[s[i]] == Nth(s, i + 1) && prev[s[i]] == Nth(s, i - 1)
  }

  /** The nodes of `s`, linked in that order in both directions. */
  ghost predicate Linked(s: seq<Ptr>, next: Field, prev: Field) {
    forall i :: 0 <= i < |s| ==> NodeAt(s, next, prev, i)
  }

  /** No node is in a list twice: the links after it would have to agree up to the end. */
  lemma LinkedOnce(s: seq<Ptr>, next: Field, prev: Field, i: nat, j: nat)
    requires Linked(s, next, prev) && i < j < |s|
    ensures s[i] != s[j]
    decreases |s| - j
  {
    assert NodeAt(s, next, prev, i) && NodeAt(s, next, prev, j);
    if j + 1 < |s| {
      LinkedOnce(s, next, prev, i + 1, j + 1);
    } else {
      assert NodeAt(s, next, prev, i + 1);
    }
  }

  lemma LinkedNoDup(s: seq<Ptr>, next: Field, prev: Field)
    requires Linked(s, next, prev)
    ensures NoDup(s) && forall p :: p in s ==> p != NULL && p in next && p in prev
  {
    forall i, j | 0 <= i < j < |s|
      ensures s[i] != s[j]
    {
      LinkedOnce(s, next, prev, i, j);
    }
    forall p | p in s
      ensures p != NULL && p in next && p in prev
    {
      var i :| 0 <= i < |s| && s[i] == p;
      assert NodeAt(s, next, prev, i);
    }
  }

  /** Only past the end of a list is there null. */
  lemma NthNull(s: seq<Ptr>, next: Field, prev: Field, i: int)
    requires Linked(s, next, prev)
    ensures Nth(s, i) == NULL <==> !(0 <= i < |s|)
  {
    if 0 <= i < |s| {
      assert NodeAt(s, next, prev, i);
    }
  }

  /** Updates elsewhere leave a list alone. */
  lemma Frame(s: seq<Ptr>, next: Field, prev: Field, next1: Field, prev1: Field)
    requires Linked(s, next, prev)
    requires forall p :: p in s ==> p in next && p in next1 && next1[p] == next[p]
    requires forall p :: p in s ==> p in prev && p in prev1 && prev1[p] == prev[p]
    ensures Linked(s, next1, prev1)
  {
    forall i | 0 <= i < |s|
      ensures NodeAt(s, next1, prev1, i)
    {
      assert NodeAt(s, next, prev, i) && s[i] in s;
    }
  }

  // ------------------------------------------------------------------------------------ append

  function AppendNext(next: Field, tail: Ptr, p: Ptr): (r: Field) {
    if tail == NULL then next[p := NULL] else next[p := NULL][tail := p]
  }

  lemma Append(s: seq<Ptr>, next: Field, prev: Field, p: Ptr)
    requires Linked(s, next, prev) && p != NULL && p !in s
    ensures var tail := Nth(s, |s| - 1); Linked(s + [p], AppendNext(next, tail, p), prev[p := tail])
  {
    var n := |s|;
    var t, tail := s + [p], Nth(s, n - 1);
    var next1, prev1 := AppendNext(next, tail, p), prev[p := tail];
    LinkedNoDup(s, next, prev);
    forall i | 0 <= i < |t|
      ensures NodeAt(t, next1, prev1, i)
    {
      if i < n {
        assert NodeAt(s, next, prev, i) && t[i] == s[i] && s[i] in s;
        assert s[i] == tail <==> i == n - 1;
      }
    }
  }

  // ---------------------------------------------------------------------------------- push front

  function PushPrev(prev: Field, head: Ptr, p: Ptr): (r: Field) {
    if head == NULL then prev[p := NULL] else prev[p := NULL][head := p]
  }

  lemma Push(s: seq<Ptr>, next: Field, prev: Field, p: Ptr)
    requires Linked(s, next, prev) && p != NULL && p !in s
    ensures var head := Nth(s, 0); Linked([p] + s, next[p := head], PushPrev(prev, head, p))
  {
    var t, head := [p] + s, Nth(s, 0);
    var next1, prev1 := next[p := head], PushPrev(prev, head, p);
    LinkedNoDup(s, next, prev);
    forall i | 0 <= i < |t|
      ensures NodeAt(t, next1, prev1, i)
    {
      if i > 0 {
        assert NodeAt(s, next, prev, i - 1) && t[i] == s[i - 1] && s[i - 1] in s;
        assert s[i - 1] == head <==> i == 1;
      }
    }
  }

  // -------------------------------------------------------------------------------------- remove

  function Removed(s: seq<Ptr>, i: nat): (r: seq<Ptr>)
    requires i < |s|
  {
    s[..i] + s[i + 1..]
  }

  /** Unlinking `p` from its neighbours. */
  function UnlinkNext(next: Field, p: Ptr, before: Ptr): (r: Field)
    requires p in next
  {
    if before == NULL then next else next[before := next[p]]
  }

  function UnlinkPrev(prev: Field, p: Ptr, after: Ptr): (r: Field)
    requires p in prev
  {
    if after == NULL then prev else prev[after := prev[p]]
  }

  lemma RemovedMembers(s: seq<Ptr>, i: nat)
    requires NoDup(s) && i < |s|
    ensures s[i] !in Removed(s, i) && forall q :: q in Removed(s, i) <==> q in s && q != s[i]
  {
    var r := Removed(s, i);
    forall q | q in s && q != s[i]
      ensures q in r
    {
      var k :| 0 <= k < |s| && s[k] == q;
      assert r[if k < i then k else k - 1] == q;
    }
  }

  lemma Remove(s: seq<Ptr>, next: Field, prev: Field, i: nat)
    requires Linked(s, next, prev) && i < |s| && s[i] in next && s[i] in prev
    ensures Linked(Removed(s, i), UnlinkNext(next, s[i], prev[s[i]]), UnlinkPrev(prev, s[i], next[s[i]]))
  {
    var r := Removed(s, i);
    LinkedNoDup(s, next, prev);
    forall k | 0 <= k < |r|
      ensures NodeAt(r, UnlinkNext(next, s[i], prev[s[i]]), UnlinkPrev(prev, s[i], next[s[i]]), k)
    {
      RemoveAt(s, next, prev, i, k);
    }
  }

  lemma RemoveAt(s: seq<Ptr>, next: Field, prev: Field, i: nat, k: nat)
    requires Linked(s, next, prev) && NoDup(s) && i < |s| && k < |s| - 1 && s[i] in next && s[i] in prev
    ensures NodeAt(Removed(s, i), UnlinkNext(next, s[i], prev[s[i]]), UnlinkPrev(prev, s[i], next[s[i]]), k)
  {
    var r := Removed(s, i);
    var at := if k < i then k else k + 1;
    assert NodeAt(s, next, prev, i) && NodeAt(s, next, prev, at);
    assert r[k] == s[at];
    assert Nth(r, k + 1) == Nth(s, if k + 1 < i then k + 1 else k + 2);
    assert Nth(r, k - 1) == Nth(s, if k - 1 < i then k - 1 else k);
    assert s[at] == Nth(s, i - 1) <==> at == i - 1;
    assert s[at] == Nth(s, i + 1) <==> at == i + 1;
  }

  /** The list without one of its nodes. */
  function Drop(s: seq<Ptr>, p: Ptr): (r: seq<Ptr>) {
    if s == [] then [] else if s[0] == p then Drop(s[1..], p) else [s[0]] + Drop(s[1..], p)
  }

  lemma {:induction false} DropNone(s: seq<Ptr>, p: Ptr)
    requires p !in s
    ensures Drop(s, p) == s
  {
    if s != [] {
      DropNone(s[1..], p);
    }
  }

  lemma {:induction false} RemovedIsDrop(s: seq<Ptr>, i: nat)
    requires NoDup(s) && i < |s|
    ensures Removed(s, i) == Drop(s, s[i])
  {
    if i == 0 {
      assert s[0] !in s[1..];
      DropNone(s[1..], s[0]);
    } else {
      RemovedIsDrop(s[1..], i - 1);
      assert s[1..][i - 1] == s[i];
      assert Removed(s, i) == [s[0]] + Removed(s[1..], i - 1);
    }
  }

  lemma {:induction false} DropMembers(s: seq<Ptr>, p: Ptr)
    ensures forall q :: q in Drop(s, p) <==> q in s && q != p
  {
    if s != [] {
      DropMembers(s[1..], p);
    }
  }
}
