/** The mergesort of include/uthash.h on sequences: what it computes, and that this is the stable
    sort. */
module UtSort {
  import opened Pages
  import opened Links

  /** A comparison function, as the order of the numbers it is computed from. */
  type Rank = Ptr -> int

  function Least(a: nat, b: nat): (r: nat) {
    if a < b then a else b
  }

  /** Up to `n` nodes, and the ones after them. */
  function Take(s: seq<Ptr>, n: nat): (r: seq<Ptr>) {
    s[..Least(n, |s|)]
  }

  function Skip(s: seq<Ptr>, n: nat): (r: seq<Ptr>) {
    s[Least(n, |s|)..]
  }

  /** Merging two runs; of equal nodes those of the first run come first. */
  function Merge(xs: seq<Ptr>, ys: seq<Ptr>, rank: Rank): (r: seq<Ptr>)
    decreases |xs| + |ys|
  {
    if xs == [] then ys
    else if ys == [] then xs
    else if rank(xs[0]) <= rank(ys[0]) then [xs[0]] + Merge(xs[1..], ys, rank)
    else [ys[0]] + Merge(xs, ys[1..], rank)
  }

  /** One pass over the list with runs of length `k`. */
  function Pass(s: seq<Ptr>, k: nat, rank: Rank): (r: seq<Ptr>)
    requires k > 0
    decreases |s|
  {
    if s == [] then []
    else Merge(Take(s, k), Take(Skip(s, k), k), rank) + Pass(Skip(s, 2 * k), k, rank)
  }

  lemma {:induction false} MergeItems(xs: seq<Ptr>, ys: seq<Ptr>, rank: Rank)
    ensures multiset(Merge(xs, ys, rank)) == multiset(xs) + multiset(ys)
    ensures |Merge(xs, ys, rank)| == |xs| + |ys|
    decreases |xs| + |ys|
  {
    if xs != [] && ys != [] {
      if rank(xs[0]) <= rank(ys[0]) {
        MergeItems(xs[1..], ys, rank);
        assert xs == [xs[0]] + xs[1..];
      } else {
        MergeItems(xs, ys[1..], rank);
        assert ys == [ys[0]] + ys[1..];
      }
    }
  }

  lemma MergeLength(xs: seq<Ptr>, ys: seq<Ptr>, rank: Rank)
    ensures |Merge(xs, ys, rank)| == |xs| + |ys|
  {
    MergeItems(xs, ys, rank);
  }

  lemma TakeSkip(s: seq<Ptr>, k: nat)
    ensures Take(s, k) + Take(Skip(s, k), k) + Skip(s, 2 * k) == s
    ensures Skip(Skip(s, k), k) == Skip(s, 2 * k)
  {
  }

  lemma {:induction false} PassItems(s: seq<Ptr>, k: nat, rank: Rank)
    requires k > 0
    ensures multiset(Pass(s, k, rank)) == multiset(s) && |Pass(s, k, rank)| == |s|
    decreases |s|
  {
    if s != [] {
      MergeItems(Take(s, k), Take(Skip(s, k), k), rank);
      PassItems(Skip(s, 2 * k), k, rank);
      TakeSkip(s, k);
    }
  }

  lemma PassLength(s: seq<Ptr>, k: nat, rank: Rank)
    requires k > 0
    ensures |Pass(s, k, rank)| == |s|
  {
    PassItems(s, k, rank);
  }

  /** The whole sort: passes with runs of length `k`, `2k` and so on, until one merge is enough. */
  function SortFrom(s: seq<Ptr>, k: nat, rank: Rank): (r: seq<Ptr>)
    requires k > 0
    decreases |s| - k
  {
    PassItems(s, k, rank);
    if |s| <= 2 * k then Pass(s, k, rank) else SortFrom(Pass(s, k, rank), 2 * k, rank)
  }

  // ------------------------------------------------------------------------------ it is stable

  /** Smaller, or equal and earlier in the original order `pos`. */
  predicate Before(x: Ptr, y: Ptr, rank: Rank, pos: Rank) {
    rank(x) < rank(y) || (rank(x) == rank(y) && pos(x) < pos(y))
  }

  ghost predicate StableSorted(s: seq<Ptr>, rank: Rank, pos: Rank) {
    forall i, j :: 0 <= i < j < |s| ==> Before(s[i], s[j], rank, pos)
  }

  lemma MergeMember(xs: seq<Ptr>, ys: seq<Ptr>, rank: Rank, y: Ptr)
    ensures y in Merge(xs, ys, rank) <==> y in xs || y in ys
  {
    MergeItems(xs, ys, rank);
    assert y in Merge(xs, ys, rank) <==> y in multiset(Merge(xs, ys, rank));
  }

  /** Merging two stably sorted runs, the first of which came first, sorts them stably. */
  lemma {:induction false} MergeSorts(xs: seq<Ptr>, ys: seq<Ptr>, rank: Rank, pos: Rank)
    requires StableSorted(xs, rank, pos) && StableSorted(ys, rank, pos)
    requires forall x, y :: x in xs && y in ys ==> pos(x) < pos(y)
    ensures StableSorted(Merge(xs, ys, rank), rank, pos)
    decreases |xs| + |ys|
  {
    if xs != [] && ys != [] {
      var x, y := xs[0], ys[0];
      assert x in xs && y in ys;
      if rank(x) <= rank(y) {
        MergeSorts(xs[1..], ys, rank, pos);
        forall z | z in Merge(xs[1..], ys, rank)
          ensures Before(x, z, rank, pos)
        {
          MergeMember(xs[1..], ys, rank, z);
          assert z in ys && z != y ==> z in ys[1..];
        }
      } else {
        MergeSorts(xs, ys[1..], rank, pos);
        forall z | z in Merge(xs, ys[1..], rank)
          ensures Before(y, z, rank, pos)
        {
          MergeMember(xs, ys[1..], rank, z);
          assert z in xs && z != x ==> z in xs[1..];
        }
      }
    }
  }

  /** Runs of length `k` from position `base` on, each stably sorted and made of its own positions. */
  ghost predicate Runs(s: seq<Ptr>, k: nat, base: int, rank: Rank, pos: Rank)
    requires k > 0
    decreases |s|
  {
    s == [] || (RunOk(Take(s, k), k, base, rank, pos) && Runs(Skip(s, k), k, base + k, rank, pos))
  }

  ghost predicate RunOk(run: seq<Ptr>, k: nat, base: int, rank: Rank, pos: Rank) {
    StableSorted(run, rank, pos) && forall x :: x in run ==> base <= pos(x) < base + k
  }

  lemma MergeRuns(xs: seq<Ptr>, ys: seq<Ptr>, k: nat, base: int, rank: Rank, pos: Rank)
    requires RunOk(xs, k, base, rank, pos) && RunOk(ys, k, base + k, rank, pos)
    ensures RunOk(Merge(xs, ys, rank), 2 * k, base, rank, pos)
  {
    MergeSorts(xs, ys, rank, pos);
    forall x | x in Merge(xs, ys, rank)
      ensures base <= pos(x) < base + 2 * k
    {
      MergeMember(xs, ys, rank, x);
    }
  }

  lemma RunThenRuns(m: seq<Ptr>, rest: seq<Ptr>, k: nat, base: int, rank: Rank, pos: Rank)
    requires k > 0 && RunOk(m, k, base, rank, pos) && Runs(rest, k, base + k, rank, pos)
    requires m != [] && |m| <= k && (rest != [] ==> |m| == k)
    ensures Runs(m + rest, k, base, rank, pos)
  {
    assert Take(m + rest, k) == m && Skip(m + rest, k) == rest;
  }

  /** A pass doubles the length of the runs. */
  lemma {:induction false} PassDoubles(s: seq<Ptr>, k: nat, base: int, rank: Rank, pos: Rank)
    requires k > 0 && Runs(s, k, base, rank, pos)
    ensures Runs(Pass(s, k, rank), 2 * k, base, rank, pos)
    decreases |s|
  {
    if s != [] {
      var xs, ys, zs := Take(s, k), Take(Skip(s, k), k), Skip(s, 2 * k);
      MergeRuns(xs, ys, k, base, rank, pos);
      PassDoubles(zs, k, base + 2 * k, rank, pos);
      MergeLength(xs, ys, rank);
      PassLength(zs, k, rank);
      RunThenRuns(Merge(xs, ys, rank), Pass(zs, k, rank), 2 * k, base, rank, pos);
    }
  }

  lemma {:induction false} SingletonRuns(s: seq<Ptr>, base: int, rank: Rank, pos: Rank)
    requires forall i :: 0 <= i < |s| ==> pos(s[i]) == base + i
    ensures Runs(s, 1, base, rank, pos)
  {
    if s != [] {
      SingletonRuns(s[1..], base + 1, rank, pos);
      assert Take(s, 1) == [s[0]] && Skip(s, 1) == s[1..];
    }
  }

  lemma {:induction false} SortsFrom(s: seq<Ptr>, k: nat, rank: Rank, pos: Rank)
    requires k > 0 && Runs(s, k, 0, rank, pos)
    ensures StableSorted(SortFrom(s, k, rank), rank, pos) && multiset(SortFrom(s, k, rank)) == multiset(s)
    decreases |s| - k
  {
    PassItems(s, k, rank);
    PassDoubles(s, k, 0, rank, pos);
    if |s| <= 2 * k {
      assert Take(Pass(s, k, rank), 2 * k) == Pass(s, k, rank);
    } else {
      SortsFrom(Pass(s, k, rank), 2 * k, rank, pos);
    }
  }

  /** The sort is a permutation, ordered by rank, and keeps the order of equal nodes. */
  lemma SortIsStable(s: seq<Ptr>, rank: Rank, pos: Rank)
    requires forall i :: 0 <= i < |s| ==> pos(s[i]) == i
    ensures StableSorted(SortFrom(s, 1, rank), rank, pos) && multiset(SortFrom(s, 1, rank)) == multiset(s)
  {
    SingletonRuns(s, 0, rank, pos);
    SortsFrom(s, 1, rank, pos);
  }

  // ------------------------------------------------------------------------- on the linked list

  ghost predicate StepsTo(s: seq<Ptr>, next: Field, i: nat)
    requires i < |s|
  {
    s[i] != NULL && s[i] in next && next[s[i]] == Nth(s, i + 1)
  }

  /** The list can be walked from its first node to its end. */
  ghost predicate Forward(s: seq<Ptr>, next: Field) {
    forall i :: 0 <= i < |s| ==> StepsTo(s, next, i)
  }

  ghost predicate LooseAt(s: seq<Ptr>, next: Field, i: nat)
    requires i < |s|
  {
    s[i] != NULL && s[i] in next && (i + 1 < |s| ==> next[s[i]] == s[i + 1])
  }

  /** A run: like a list, but its last node may point anywhere. */
  ghost predicate Loose(s: seq<Ptr>, next: Field) {
    forall i :: 0 <= i < |s| ==> LooseAt(s, next, i)
  }

  ghost predicate OutAt(s: seq<Ptr>, next: Field, prev: Field, i: nat)
    requires i < |s|
  {
    LooseAt(s, next, i) && s[i] in prev && prev[s[i]] == Nth(s, i - 1)
  }

  /** The output so far: both directions, except that its last node still points anywhere. */
  ghost predicate Out(s: seq<Ptr>, next: Field, prev: Field) {
    forall i :: 0 <= i < |s| ==> OutAt(s, next, prev, i)
  }

  ghost predicate Separate(a: seq<Ptr>, b: seq<Ptr>) {
    forall p :: p in a ==> p !in b
  }

  function LinkAfter(next: Field, tail: Ptr, e: Ptr): (r: Field) {
    if tail == NULL then next else next[tail := e]
  }

  /** Appending a node to the output. */
  lemma Emit(out: seq<Ptr>, next: Field, prev: Field, e: Ptr)
    requires Out(out, next, prev) && NoDup(out) && e !in out && e != NULL && e in next
    ensures var tail := Nth(out, |out| - 1); Out(out + [e], LinkAfter(next, tail, e), prev[e := tail])
  {
    var n := |out|;
    var tail, all := Nth(out, n - 1), out + [e];
    var next1, prev1 := LinkAfter(next, tail, e), prev[e := tail];
    forall i | 0 <= i < |all|
      ensures OutAt(all, next1, prev1, i)
    {
      if i < n {
        assert OutAt(out, next, prev, i) && all[i] == out[i] && out[i] in out;
        assert i != n - 1 ==> out[i] != tail;
      } else {
        assert n > 0 ==> OutAt(out, next, prev, n - 1);
      }
    }
  }

  /** It does not touch what is still to be merged. */
  lemma EmitFrame(out: seq<Ptr>, next: Field, prev: Field, e: Ptr, xs: seq<Ptr>, rest: seq<Ptr>)
    requires Loose(xs, next) && Forward(rest, next) && Separate(out, xs) && Separate(out, rest)
    ensures var next1 := LinkAfter(next, Nth(out, |out| - 1), e); Loose(xs, next1) && Forward(rest, next1)
  {
    var tail := Nth(out, |out| - 1);
    var next1 := LinkAfter(next, tail, e);
    assert tail != NULL ==> tail in out;
    forall i | 0 <= i < |xs|
      ensures LooseAt(xs, next1, i)
    {
      assert LooseAt(xs, next, i) && xs[i] in xs;
    }
    forall i | 0 <= i < |rest|
      ensures StepsTo(rest, next1, i)
    {
      assert StepsTo(rest, next, i) && rest[i] in rest;
    }
  }

  lemma LooseTail(xs: seq<Ptr>, next: Field)
    requires Loose(xs, next) && xs != []
    ensures Loose(xs[1..], next) && xs[0] in next && xs[0] != NULL && (|xs| > 1 ==> next[xs[0]] == xs[1])
  {
    assert LooseAt(xs, next, 0);
    forall i | 0 <= i < |xs| - 1
      ensures LooseAt(xs[1..], next, i)
    {
      assert LooseAt(xs, next, i + 1);
    }
  }

  lemma ForwardTail(s: seq<Ptr>, next: Field)
    requires Forward(s, next) && s != []
    ensures Forward(s[1..], next) && s[0] in next && s[0] != NULL && next[s[0]] == Nth(s[1..], 0)
  {
    assert StepsTo(s, next, 0);
    forall i | 0 <= i < |s| - 1
      ensures StepsTo(s[1..], next, i)
    {
      assert StepsTo(s, next, i + 1);
    }
  }

  /** What is still to be merged: a run, and the list that the next run is the start of. */
  ghost predicate Merging(out: seq<Ptr>, xs: seq<Ptr>, rest: seq<Ptr>, next: Field, prev: Field) {
    && Out(out, next, prev) && Loose(xs, next) && Forward(rest, next)
    && NoDup(out) && NoDup(xs) && NoDup(rest) && Separate(out, xs) && Separate(out, rest) && Separate(xs, rest)
  }

  lemma EmitFirst(out: seq<Ptr>, xs: seq<Ptr>, rest: seq<Ptr>, next: Field, prev: Field)
    requires Merging(out, xs, rest, next, prev) && xs != []
    ensures xs[0] != NULL && xs[0] in next && (|xs| > 1 ==> next[xs[0]] == xs[1])
    ensures var e, tail := xs[0], Nth(out, |out| - 1); Merging(out + [e], xs[1..], rest, LinkAfter(next, tail, e), prev[e := tail])
  {
    LooseTail(xs, next);
    assert xs[0] in xs && xs[0] !in xs[1..];
    Emit(out, next, prev, xs[0]);
    EmitFrame(out, next, prev, xs[0], xs[1..], rest);
  }

  lemma EmitSecond(out: seq<Ptr>, xs: seq<Ptr>, rest: seq<Ptr>, next: Field, prev: Field)
    requires Merging(out, xs, rest, next, prev) && rest != []
    ensures rest[0] != NULL && rest[0] in next && next[rest[0]] == Nth(rest[1..], 0)
    ensures var e, tail := rest[0], Nth(out, |out| - 1); Merging(out + [e], xs, rest[1..], LinkAfter(next, tail, e), prev[e := tail])
  {
    ForwardTail(rest, next);
    assert rest[0] in rest && rest[0] !in rest[1..];
    Emit(out, next, prev, rest[0]);
    EmitFrame(out, next, prev, rest[0], xs, rest[1..]);
  }

  lemma ForwardNull(s: seq<Ptr>, next: Field, i: int)
    requires Forward(s, next)
    ensures Nth(s, i) == NULL <==> !(0 <= i < |s|)
  {
    if 0 <= i < |s| {
      assert StepsTo(s, next, i);
    }
  }

  lemma NextOfRest(rest: seq<Ptr>, n: nat)
    requires rest != [] && n > 0
    ensures Take(rest, n)[0] == rest[0] && Take(rest, n)[1..] == Take(rest[1..], n - 1) && Skip(rest, n) == Skip(rest[1..], n - 1)
  {
  }

  /** The state of the inner loop: what is out, with what is still to come, will be `goal`, and `zs`
      is left for the next merge. */
  ghost predicate MergeState(out: seq<Ptr>, xs: seq<Ptr>, rest: seq<Ptr>, qsize: nat, next: Field, prev: Field, rank: Rank, goal: seq<Ptr>, zs: seq<Ptr>) {
    Merging(out, xs, rest, next, prev) && out + Merge(xs, Take(rest, qsize), rank) == goal && Skip(rest, qsize) == zs
  }

  lemma StepFirst(out: seq<Ptr>, xs: seq<Ptr>, rest: seq<Ptr>, qsize: nat, next: Field, prev: Field, rank: Rank, goal: seq<Ptr>, zs: seq<Ptr>)
    requires MergeState(out, xs, rest, qsize, next, prev, rank, goal, zs)
    requires xs != [] && (qsize == 0 || rest == [] || rank(xs[0]) <= rank(rest[0]))
    ensures xs[0] in next && (|xs| > 1 ==> next[xs[0]] == xs[1])
    ensures var e, tail := xs[0], Nth(out, |out| - 1);
      MergeState(out + [e], xs[1..], rest, qsize, LinkAfter(next, tail, e), prev[e := tail], rank, goal, zs)
  {
    EmitFirst(out, xs, rest, next, prev);
    assert out + [xs[0]] + Merge(xs[1..], Take(rest, qsize), rank) == out + Merge(xs, Take(rest, qsize), rank);
  }

  lemma StepSecond(out: seq<Ptr>, xs: seq<Ptr>, rest: seq<Ptr>, qsize: nat, next: Field, prev: Field, rank: Rank, goal: seq<Ptr>, zs: seq<Ptr>)
    requires MergeState(out, xs, rest, qsize, next, prev, rank, goal, zs)
    requires rest != [] && qsize > 0 && (xs == [] || rank(xs[0]) > rank(rest[0]))
    ensures rest[0] in next && next[rest[0]] == Nth(rest[1..], 0)
    ensures var e, tail := rest[0], Nth(out, |out| - 1);
      MergeState(out + [e], xs, rest[1..], qsize - 1, LinkAfter(next, tail, e), prev[e := tail], rank, goal, zs)
  {
    EmitSecond(out, xs, rest, next, prev);
    NextOfRest(rest, qsize);
    assert out + [rest[0]] + Merge(xs, Take(rest[1..], qsize - 1), rank) == out + Merge(xs, Take(rest, qsize), rank);
  }

  lemma OutNull(out: seq<Ptr>, next: Field, prev: Field)
    requires Out(out, next, prev)
    ensures Nth(out, |out| - 1) == NULL <==> out == []
  {
    if out != [] {
      assert OutAt(out, next, prev, |out| - 1);
    }
  }

  /** A list before a pass, all of it still to be merged. */
  lemma PassStart(s: seq<Ptr>, next: Field, prev: Field)
    requires Linked(s, next, prev)
    ensures Merging([], [], s, next, prev)
  {
    LinkedNoDup(s, next, prev);
    forall i | 0 <= i < |s|
      ensures StepsTo(s, next, i)
    {
      assert NodeAt(s, next, prev, i);
    }
  }

  /** Cutting the first run off. */
  lemma SplitRun(out: seq<Ptr>, rest: seq<Ptr>, k: nat, next: Field, prev: Field)
    requires Merging(out, [], rest, next, prev)
    ensures Merging(out, Take(rest, k), Skip(rest, k), next, prev)
  {
    var n := Least(k, |rest|);
    var xs, zs := Take(rest, k), Skip(rest, k);
    assert rest == xs + zs;
    forall i | 0 <= i < |xs|
      ensures LooseAt(xs, next, i)
    {
      assert StepsTo(rest, next, i);
    }
    forall i | 0 <= i < |zs|
      ensures StepsTo(zs, next, i)
    {
      assert StepsTo(rest, next, n + i);
    }
    forall p | p in xs
      ensures p !in zs
    {
      var i :| 0 <= i < |xs| && xs[i] == p;
      assert rest[i] == p;
    }
  }

  /** Ending the output makes it a list. */
  lemma PassEnd(out: seq<Ptr>, next: Field, prev: Field)
    requires Out(out, next, prev) && NoDup(out) && out != []
    ensures Linked(out, next[out[|out| - 1] := NULL], prev)
  {
    var last := out[|out| - 1];
    var next1 := next[last := NULL];
    forall i | 0 <= i < |out|
      ensures NodeAt(out, next1, prev, i)
    {
      assert OutAt(out, next, prev, i);
      assert i != |out| - 1 ==> out[i] != last;
    }
  }

  lemma PassUnfold(s: seq<Ptr>, k: nat, rank: Rank)
    requires k > 0 && s != []
    ensures Skip(Skip(s, k), k) == Skip(s, 2 * k) && |Skip(s, 2 * k)| < |s|
    ensures Pass(s, k, rank) == Merge(Take(s, k), Take(Skip(s, k), k), rank) + Pass(Skip(Skip(s, k), k), k, rank)
  {
    TakeSkip(s, k);
  }

  lemma SortItems(s: seq<Ptr>, rank: Rank)
    requires NoDup(s)
    ensures |SortFrom(s, 1, rank)| == |s| && forall p :: p in SortFrom(s, 1, rank) <==> p in s
  {
    SortIsStable(s, rank, Positions(s));
    var r := SortFrom(s, 1, rank);
    assert |multiset(r)| == |multiset(s)|;
    forall p
      ensures p in r <==> p in s
    {
      assert p in r <==> p in multiset(r);
    }
  }

  /** The original order, as a function of the nodes. */
  ghost function Positions(s: seq<Ptr>): (pos: Rank)
    requires NoDup(s)
    ensures forall i :: 0 <= i < |s| ==> pos(s[i]) == i
  {
    p => if p in s then (var i :| 0 <= i < |s| && s[i] == p; i) else -1
  }

  /** Progress of the pass loop: how many merges, and what is left. */
  ghost predicate PassState(s: seq<Ptr>, k: nat, rank: Rank, merges: nat, out: seq<Ptr>, rest: seq<Ptr>)
    requires k > 0
  {
    && out + Pass(rest, k, rank) == Pass(s, k, rank)
    && (merges == 0 ==> rest == s) && (merges == 1 ==> rest == Skip(s, 2 * k)) && (merges >= 2 ==> |s| > 2 * k)
  }

  lemma PassStep(s: seq<Ptr>, k: nat, rank: Rank, merges: nat, out: seq<Ptr>, rest: seq<Ptr>)
    requires k > 0 && PassState(s, k, rank, merges, out, rest) && rest != []
    ensures var rest1 := Skip(Skip(rest, k), k);
      |rest1| < |rest| && PassState(s, k, rank, merges + 1, out + Merge(Take(rest, k), Take(Skip(rest, k), k), rank), rest1)
  {
    PassUnfold(rest, k, rank);
  }
}
