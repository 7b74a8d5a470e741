/** The LRU buffer of the machine is the list of its history: on every run, whatever leaves it was
    inserted before everything that stays. */
module LruHistory {
  import opened Pages
  import opened LruBuffer
  import opened Monitor

  function Pops(n: nat): (ops: seq<LruOp>) {
    seq(n, _ => LruOp.Popped)
  }

  /** What a step of the handler's eviction does to the buffer. */
  function WorkOps(s: State, e: Evicting, k: After): (ops: seq<LruOp>) {
    match e
    case Insert(p) => [Inserted(p)] + Pops(if |ToFront(s.lru, p)| > s.lruMax then 1 else 0)
    case Reinsert(v) => [Inserted(v)]
    case Go => if k.ToTrim? && |s.lru| > s.lruMax then Pops(|s.lru| - s.lruMax) else []
    case _ => []
  }

  function OpsOf(s: State, a: Action): (ops: seq<LruOp>) {
    match a
    case Resize(size) => if size > |s.lru| then [] else Pops(|s.lru| - size)
    case Handler(_) => if s.h.Work? then WorkOps(s, s.h.e, s.h.k) else []
    case _ => []
  }

  /** The history after a run that starts with the history `ops`. */
  function HistoryFrom(c: Config, s: State, acts: seq<Action>, ops: seq<LruOp>): (r: seq<LruOp>)
    requires Run(c, s, acts)
    decreases |acts|
  {
    if acts == [] then ops else HistoryFrom(c, Exec(c, s, acts[0]), acts[1..], ops + OpsOf(s, acts[0]))
  }

  function History(c: Config, acts: seq<Action>): (ops: seq<LruOp>)
    requires Run(c, Init(c), acts)
  {
    HistoryFrom(c, Init(c), acts, [])
  }

  // --------------------------------------------------------------------------------- one step

  lemma AfterInsert(ops: seq<LruOp>, p: PageId)
    ensures AfterOps(ops + [Inserted(p)]) == ToFront(AfterOps(ops), p)
  {
    assert (ops + [Inserted(p)])[..|ops|] == ops;
  }

  lemma {:induction false} AfterPops(ops: seq<LruOp>, n: nat)
    requires n <= |AfterOps(ops)|
    ensures AfterOps(ops + Pops(n)) == AfterOps(ops)[..|AfterOps(ops)| - n]
    decreases n
  {
    if n == 0 {
      assert ops + Pops(0) == ops;
    } else {
      AfterPops(ops, n - 1);
      assert (ops + Pops(n))[..|ops| + n - 1] == ops + Pops(n - 1);
    }
  }

  lemma {:induction false} LastInsertedPops(ops: seq<LruOp>, n: nat, q: PageId)
    ensures LastInserted(ops + Pops(n), q) == LastInserted(ops, q)
    decreases n
  {
    if n == 0 {
      assert ops + Pops(0) == ops;
    } else {
      LastInsertedPops(ops, n - 1, q);
      assert (ops + Pops(n))[..|ops| + n - 1] == ops + Pops(n - 1);
    }
  }

  /** Popping the last `n` entries: they are less recent than the rest. */
  lemma PoppedBefore(ops: seq<LruOp>, n: nat, v: PageId, q: PageId)
    requires n <= |AfterOps(ops)|
    requires v in AfterOps(ops) && v !in AfterOps(ops + Pops(n)) && q in AfterOps(ops + Pops(n))
    ensures LastInserted(ops + Pops(n), v) < LastInserted(ops + Pops(n), q)
  {
    var s := AfterOps(ops);
    AfterPops(ops, n);
    LastInsertedPops(ops, n, v);
    LastInsertedPops(ops, n, q);
    VictimsAreLeastRecent(ops, n);
    assert s == s[..|s| - n] + s[|s| - n..] && v in s[|s| - n..];
    var k :| 0 <= k < n && s[|s| - n..][k] == v;
    assert Victims(s, n)[n - 1 - k] == v;
  }

  /** The operations of a step, as an insertion, if any, followed by pops. */
  lemma Shape(c: Config, s: State, a: Action, ops: seq<LruOp>) returns (mid: seq<LruOp>, n: nat)
    requires s.lru == AfterOps(ops) && Enabled(c, s, a)
    ensures ops + OpsOf(s, a) == mid + Pops(n) && n <= |AfterOps(mid)|
    ensures Exec(c, s, a).lru == AfterOps(mid)[..|AfterOps(mid)| - n] && forall q :: q in s.lru ==> q in AfterOps(mid)
  {
    mid, n := ops, 0;
    assert Pops(0) == [];
    if a.Resize? && a.size <= |s.lru| {
      n := |s.lru| - a.size;
    } else if a.Handler? && s.h.Work? {
      WorkLru(c, s, a.outcome);
      if s.h.e.Insert? {
        mid := ops + [Inserted(s.h.e.p)];
        AfterInsert(ops, s.h.e.p);
        n := if |ToFront(s.lru, s.h.e.p)| > s.lruMax then 1 else 0;
      } else if s.h.e.Reinsert? {
        mid := ops + [Inserted(s.h.e.v)];
        AfterInsert(ops, s.h.e.v);
      } else if s.h.e.Go? && s.h.k.ToTrim? && |s.lru| > s.lruMax {
        n := |s.lru| - s.lruMax;
      }
    } else {
      OthersLeaveLru(c, s, a);
    }
  }

  lemma WorkLru(c: Config, s: State, outcome: Outcome)
    requires s.h.Work?
    ensures var r := StepWork(c, s, s.h.e, s.h.k, outcome);
      match s.h.e
      case Insert(p) => r.lru == if |ToFront(s.lru, p)| > s.lruMax then ToFront(s.lru, p)[..|ToFront(s.lru, p)| - 1] else ToFront(s.lru, p)
      case Reinsert(v) => r.lru == ToFront(s.lru, v)
      case Go => r.lru == if s.h.k.ToTrim? && |s.lru| > s.lruMax then s.lru[..s.lruMax] else s.lru
      case _ => r.lru == s.lru
  {
    if s.h.e.Evicted? {
      assert StepEvicted(c, s, s.h.e.v, s.h.e.buf, s.h.k).lru == s.lru;
    }
  }

  lemma OthersLeaveLru(c: Config, s: State, a: Action)
    requires Enabled(c, s, a) && !(a.Resize? && a.size <= |s.lru|) && !(a.Handler? && s.h.Work?)
    ensures Exec(c, s, a).lru == s.lru
  {
    if a.Handler? && s.h.Wait? && s.h.stage == CheckWrite {
      assert StepCheckWrite(c, s, s.h.p).lru == s.lru;
    }
  }

  // --------------------------------------------------------------------------------- every run

  lemma ExecHistory(c: Config, s: State, a: Action, ops: seq<LruOp>)
    requires s.lru == AfterOps(ops) && Enabled(c, s, a)
    ensures Exec(c, s, a).lru == AfterOps(ops + OpsOf(s, a))
  {
    var mid, n := Shape(c, s, a, ops);
    AfterPops(mid, n);
  }

  lemma {:induction false} RunHistory(c: Config, s: State, acts: seq<Action>, ops: seq<LruOp>)
    requires s.lru == AfterOps(ops) && Run(c, s, acts)
    ensures Final(c, s, acts).lru == AfterOps(HistoryFrom(c, s, acts, ops))
    decreases |acts|
  {
    if acts != [] {
      ExecHistory(c, s, acts[0], ops);
      RunHistory(c, Exec(c, s, acts[0]), acts[1..], ops + OpsOf(s, acts[0]));
    }
  }

  /** On every run of every configuration the buffer is what the history of insertions and pops
      makes of an empty list. */
  lemma LruIsHistory(c: Config, acts: seq<Action>)
    requires Run(c, Init(c), acts)
    ensures Final(c, Init(c), acts).lru == AfterOps(History(c, acts))
  {
    RunHistory(c, Init(c), acts, []);
  }

  /** Whatever leaves the buffer in a step of a run, by an insertion, a trim or a resize, was last
      inserted before everything that stays. */
  lemma LeavesLeastRecent(c: Config, acts: seq<Action>, a: Action, v: PageId, q: PageId)
    requires Run(c, Init(c), acts) && Enabled(c, Final(c, Init(c), acts), a)
    requires var s := Final(c, Init(c), acts); v in s.lru && v !in Exec(c, s, a).lru && q in Exec(c, s, a).lru
    ensures var history := History(c, acts) + OpsOf(Final(c, Init(c), acts), a);
      LastInserted(history, v) < LastInserted(history, q)
  {
    var s, ops := Final(c, Init(c), acts), History(c, acts);
    LruIsHistory(c, acts);
    var mid, n := Shape(c, s, a, ops);
    AfterPops(mid, n);
    PoppedBefore(mid, n, v, q);
  }
}
