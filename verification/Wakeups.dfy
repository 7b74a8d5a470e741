/** Nobody sleeps through a wake-up: what a parked thread is owed, and by whom. */
module Wakeups {
  import opened Pages
  import opened LruBuffer
  import opened ThreadedIo
  import opened PageCache
  import opened NoopStore
  import opened Monitor
  import opened MonitorInv
  import opened MonitorSteps
  import opened MonitorRuns

  // -------------------------------------------------------------------------- what is owed

  predicate AtStage(h: HandlerPc, stages: set<Stage>) {
    h.Wait? && h.stage in stages
  }

  /** The writer will post to the handler: it has not read the flag yet, or it read true. */
  predicate WriterOwes(w: WriterPc) {
    w.Writing? || w.Deleting? || (w.Freeing? && w.waiting) || w.WriterPost?
  }

  /** The handler is about to post to the prefetcher. */
  predicate HandlerOwesPrefetcher(h: HandlerPc) {
    h.PostTop? || AtStage(h, {PostPrefetcher})
  }

  predicate HandlerOwesWriter(h: HandlerPc) {
    h.Work? && h.e.Listed?
  }

  /** `n` is the length of the write list. */
  ghost predicate WriterWakes(y: Sync, h: HandlerPc, w: WriterPc, n: nat) {
    && (w.WriterPark? ==> y.writerWaiting && !y.flushRemaining)
    && (y.writerWaiting ==> w.WriterPark? || w.WriterTop?)
    && (w.WriterPark? && n >= WRITE_BATCH_SIZE ==> y.writerSem > 0 || HandlerOwesWriter(h))
  }

  ghost predicate PrefetcherWakes(y: Sync, h: HandlerPc, f: PrefetcherPc, pl: seq<PageId>) {
    && (f.PrefetcherPark? ==> y.prefetcherWaiting)
    && (f.PrefetcherPark? && pl != [] ==> y.prefetcherSem > 0 || HandlerOwesPrefetcher(h))
  }

  ghost predicate HandlerWakes(y: Sync, h: HandlerPc, w: WriterPc, f: PrefetcherPc, pl: seq<PageId>) {
    && !AtStage(h, {PostWriter})
    && (AtStage(h, {ParkWrite}) ==> y.handlerWaiting && (y.handlerSem > 0 || WriterOwes(w)))
    && (AtStage(h, {PostPrefetcher, ParkPrefetch}) ==>
          y.handlerWaiting && (y.handlerSem > 0 || h.p in pl || f.PrefetcherPost?))
  }

  ghost predicate Wakes(s: State) {
    && WriterWakes(s.sync, s.h, s.w, |s.wl|)
    && PrefetcherWakes(s.sync, s.h, s.f, s.pl)
    && HandlerWakes(s.sync, s.h, s.w, s.f, s.pl)
  }

  // ---------------------------------------------------------------------------- handler steps

  /** A position from which the handler owes nothing and waits for nothing. */
  predicate Quiet(h: HandlerPc) {
    !AtStage(h, {PostWriter, ParkWrite, PostPrefetcher, ParkPrefetch}) && !h.PostTop? && !HandlerOwesWriter(h)
  }

  lemma QuietWakes(s: State, r: State)
    requires Wakes(s) && Quiet(r.h) && !HandlerOwesPrefetcher(s.h) && !HandlerOwesWriter(s.h)
    requires r.w == s.w && r.f == s.f && r.pl == s.pl && |r.wl| <= |s.wl|
    requires r.sync == s.sync || r.sync == s.sync.(handlerWaiting := false) || r.sync == s.sync.(handlerSem := r.sync.handlerSem)
    ensures Wakes(r)
  {
  }

  /** An entry in flight means the writer is at work, and will look at the flag. */
  lemma InFlightOwes(c: Config, s: State, m: Memory, p: PageId)
    requires WriterOk(c, s.w, s.wl, s.kv)
    requires var w := FindWriteInfo(s.wl, p); w.Some? && w.value.inFlight
    ensures s.w.Writing? || s.w.Deleting?
  {
  }

  lemma WaitForWriter(s: State)
    requires Wakes(s) && AtStage(s.h, {CheckWrite}) && (s.w.Writing? || s.w.Deleting?)
    ensures !s.sync.writerWaiting
    ensures Wakes(s.(sync := s.sync.(handlerWaiting := true), h := Wait(ParkWrite, s.h.p, None)))
  {
  }

  lemma CheckWriteWakes(c: Config, s: State, m: Memory)
    requires Wakes(s) && WriterOk(c, s.w, s.wl, s.kv) && AtStage(s.h, {CheckWrite})
    ensures Wakes(StepCheckWrite(c, s, s.h.p))
  {
    var w := FindWriteInfo(s.wl, s.h.p);
    if w.Some? && w.value.inFlight {
      InFlightOwes(c, s, m, s.h.p);
      WaitForWriter(s);
    } else {
      QuietWakes(s, StepCheckWrite(c, s, s.h.p));
    }
  }

  lemma CheckPrefetchWakes(c: Config, s: State)
    requires Wakes(s) && AtStage(s.h, {CheckPrefetch})
    ensures Wakes(StepCheckPrefetch(c, s, s.h.p, s.h.got))
  {
    if s.h.p !in s.pl {
      QuietWakes(s, StepCheckPrefetch(c, s, s.h.p, s.h.got));
    }
  }

  lemma PostWakes(c: Config, s: State)
    requires Wakes(s) && AtStage(s.h, {PostPrefetcher})
    ensures Wakes(s.(sync := s.sync.(prefetcherSem := s.sync.prefetcherSem + 1), h := Wait(ParkPrefetch, s.h.p, s.h.got)))
  {
  }

  lemma WaitWakes(c: Config, s: State, m: Memory, r: State)
    requires Wakes(s) && WriterOk(c, s.w, s.wl, s.kv) && s.h.Wait? && HandlerReady(s)
    requires r == StepWait(c, s, s.h.stage, s.h.p, s.h.got)
    ensures Wakes(r)
  {
    if s.h.stage == CheckWrite {
      CheckWriteWakes(c, s, m);
    } else if s.h.stage == CheckPrefetch {
      CheckPrefetchWakes(c, s);
    } else if s.h.stage == PostPrefetcher {
      PostWakes(c, s);
    } else {
      QuietWakes(s, r);
    }
  }

  lemma TopWakes(c: Config, s: State, r: State)
    requires Wakes(s) && s.h.Top? && r == StepTop(c, s, s.h.p)
    ensures Wakes(r)
  {
    if s.pl == [] && r.pl != [] {
      assert Selected(c, s, s.h.p) != [];
    }
  }

  lemma EvictedWakes(c: Config, s: State, r: State)
    requires Wakes(s) && s.h.Work? && s.h.e.Evicted? && r == StepEvicted(c, s, s.h.e.v, s.h.e.buf, s.h.k)
    ensures Wakes(r)
  {
  }

  /** Every other step of an eviction or of its continuation touches nothing shared. */
  ghost predicate Untouched(s: State, r: State) {
    Quiet(r.h) && r.w == s.w && r.f == s.f && r.pl == s.pl && r.wl == s.wl && r.sync == s.sync
  }

  lemma GoIsQuiet(c: Config, s: State, r: State)
    requires s.h.Work? && s.h.e.Go? && r == StepGo(c, s, s.h.k)
    ensures Untouched(s, r)
  {
    if s.h.k.ToBottom? {
      assert Untouched(s, StepBottom(c, s, s.h.k.p));
    }
  }

  lemma WorkIsQuiet(c: Config, s: State, r: State, outcome: Outcome)
    requires s.h.Work? && !s.h.e.Evicted? && !s.h.e.Listed? && r == StepWork(c, s, s.h.e, s.h.k, outcome)
    ensures Untouched(s, r)
  {
    if s.h.e.Go? {
      GoIsQuiet(c, s, r);
    } else if s.h.e.Remap? {
      assert Untouched(s, StepRemap(s, s.h.e.v, s.h.e.retry, s.h.k, outcome));
    }
  }

  lemma WorkWakes(c: Config, s: State, r: State, outcome: Outcome)
    requires Wakes(s) && s.h.Work? && r == StepWork(c, s, s.h.e, s.h.k, outcome)
    ensures Wakes(r)
  {
    if s.h.e.Evicted? {
      EvictedWakes(c, s, r);
    } else if !s.h.e.Listed? {
      WorkIsQuiet(c, s, r, outcome);
      QuietWakes(s, r);
    }
  }

  lemma HandlerWakesOn(c: Config, s: State, m: Memory, r: State, outcome: Outcome)
    requires Wakes(s) && WriterOk(c, s.w, s.wl, s.kv) && HandlerReady(s) && r == StepHandler(c, s, outcome)
    ensures Wakes(r)
  {
    match s.h
    case Idle =>
    case Wait(_, _, _) => WaitWakes(c, s, m, r);
    case Top(_) => TopWakes(c, s, r);
    case PostTop(_) =>
    case Work(_, _) => WorkWakes(c, s, r, outcome);
  }

  // ------------------------------------------------------------------------- the other threads

  lemma MarkWakes(s: State)
    requires Wakes(s) && s.w.WriterTop?
    ensures Wakes(StepWriterTop(s))
  {
    assert |Mark(s.wl)| == |s.wl|;
  }

  lemma DeletingWakes(s: State, wl: seq<WriteInfo>)
    requires Wakes(s) && s.w.Deleting?
    ensures Wakes(s.(wl := wl, w := Freeing(s.w.returned, s.sync.handlerWaiting)))
  {
  }

  lemma WriterWakesOn(c: Config, s: State, r: State)
    requires Wakes(s) && WriterReady(s) && r == StepWriter(s)
    ensures Wakes(r)
  {
    if s.w.WriterTop? {
      MarkWakes(s);
    } else if s.w.Deleting? {
      DeletingWakes(s, DelBatch(s.wl, s.w.batch));
    }
  }

  lemma UnlistingWakes(s: State, pl: seq<PageId>)
    requires Wakes(s) && s.f.Unlisting?
    ensures Wakes(s.(pl := pl, f := if s.sync.handlerWaiting then PrefetcherPost else PrefetcherTop))
  {
  }

  lemma PickWakes(s: State, keys: seq<PageId>)
    requires Wakes(s) && s.f.PrefetcherTop?
    ensures Wakes(s.(sync := s.sync.(prefetcherWaiting := s.pl == []), f := if s.pl != [] then Reading(keys, []) else PrefetcherPark))
  {
  }

  lemma PrefetcherWakesOn(c: Config, s: State, r: State)
    requires Wakes(s) && PrefetcherReady(s) && r == StepPrefetcher(s)
    ensures Wakes(r)
  {
    if s.f.Unlisting? {
      UnlistingWakes(s, DelPrefetched(s.pl, s.f.keys));
    } else if s.f.PrefetcherTop? {
      PickWakes(s, Pick(s.pl));
    }
  }

  /** Faults, resizes, loads, stores and flush requests. */
  lemma RequestWakes(c: Config, s: State, a: Action, r: State)
    requires Wakes(s) && Enabled(c, s, a) && r == Exec(c, s, a) && !a.Handler? && !a.Writer? && !a.Prefetcher?
    ensures Wakes(r)
  {
    if a.Fault? || a.Resize? {
      QuietWakes(s, r);
    }
  }

  lemma ExecWakes(c: Config, s: State, m: Memory, a: Action, r: State)
    requires Inv(c, s, m) && Wakes(s) && Enabled(c, s, a) && r == Exec(c, s, a)
    ensures Wakes(r)
  {
    if a.Handler? {
      HandlerWakesOn(c, s, m, r, a.outcome);
    } else if a.Writer? {
      WriterWakesOn(c, s, r);
    } else if a.Prefetcher? {
      PrefetcherWakesOn(c, s, r);
    } else {
      RequestWakes(c, s, a, r);
    }
  }

  lemma {:induction false} RunWakes(c: Config, s: State, m: Memory, acts: seq<Action>)
    requires Safe(c) && Inv(c, s, m) && Wakes(s) && Run(c, s, acts)
    ensures Wakes(Final(c, s, acts))
    decreases |acts|
  {
    if acts != [] {
      var r := Exec(c, s, acts[0]);
      ExecKeeps(c, s, m, acts[0], r);
      ExecWakes(c, s, m, acts[0], r);
      RunWakes(c, r, Shadow(m, acts[0]), acts[1..]);
    }
  }

  // -------------------------------------------------------------------------------- theorems

  /** In every reachable state: a handler parked with a count of zero waits for a post that the
      writer or the prefetcher still owes; a prefetcher parked with work on its list, and a
      writer parked with a full batch, have a post pending. So whenever the handler is blocked,
      the thread it waits for can step. */
  lemma NoLostWakeup(c: Config, s: State)
    requires Safe(c) && Reachable(c, s)
    ensures AtStage(s.h, {ParkWrite}) && s.sync.handlerSem == 0 ==> WriterOwes(s.w) && Enabled(c, s, Writer)
    ensures AtStage(s.h, {ParkPrefetch}) && s.sync.handlerSem == 0 ==>
      s.sync.handlerWaiting && (s.h.p in s.pl || s.f.PrefetcherPost?) && Enabled(c, s, Prefetcher)
    ensures s.f.PrefetcherPark? && s.pl != [] ==> s.sync.prefetcherSem > 0 || HandlerOwesPrefetcher(s.h)
    ensures s.w.WriterPark? && |s.wl| >= WRITE_BATCH_SIZE ==> s.sync.writerSem > 0 || HandlerOwesWriter(s.h)
    ensures !AtStage(s.h, {PostWriter})
  {
    var acts :| Run(c, Init(c), acts) && s == Final(c, Init(c), acts);
    InitInv(c);
    RunWakes(c, Init(c), map[], acts);
    RunKeeps(c, Init(c), map[], acts);
  }

  // ----------------------------------------------------------------------------- waits end

  function CountWriter(acts: seq<Action>): (n: nat) {
    if acts == [] then 0 else (if acts[0].Writer? then 1 else 0) + CountWriter(acts[1..])
  }

  function CountPrefetcher(acts: seq<Action>): (n: nat) {
    if acts == [] then 0 else (if acts[0].Prefetcher? then 1 else 0) + CountPrefetcher(acts[1..])
  }

  /** Along the run the page leaves the write list. */
  ghost predicate LeavesWriteList(c: Config, s: State, acts: seq<Action>, p: PageId)
    requires Run(c, s, acts)
    decreases |acts|
  {
    p !in WriteKeys(s.wl) || (acts != [] && LeavesWriteList(c, Exec(c, s, acts[0]), acts[1..], p))
  }

  ghost predicate LeavesPrefetchList(c: Config, s: State, acts: seq<Action>, p: PageId)
    requires Run(c, s, acts)
    decreases |acts|
  {
    p !in s.pl || (acts != [] && LeavesPrefetchList(c, Exec(c, s, acts[0]), acts[1..], p))
  }

  predicate InBatch(w: WriterPc, p: PageId) {
    (w.Writing? || w.Deleting?) && p in WriteKeys(w.batch)
  }

  /** Writer steps until the batch is deleted from the list. */
  function WriterSteps(w: WriterPc): (n: nat) {
    if w.Writing? && |w.returned| <= |w.batch| then |w.batch| - |w.returned| + 2 else 1
  }

  lemma WriterAdvances(c: Config, s: State, m: Memory, r: State, p: PageId)
    requires Inv(c, s, m) && InBatch(s.w, p) && r == StepWriter(s)
    ensures p !in WriteKeys(r.wl) || (InBatch(r.w, p) && WriterSteps(r.w) < WriterSteps(s.w))
  {
    if s.w.Deleting? {
      DelBatchDiscipline(s.wl, s.w.batch);
    }
  }

  lemma HandlerLeavesWriter(c: Config, s: State, outcome: Outcome)
    requires HandlerReady(s)
    ensures StepHandler(c, s, outcome).w == s.w
  {
    if s.h.Work? && !s.h.e.Evicted? && !s.h.e.Listed? {
      WorkIsQuiet(c, s, StepHandler(c, s, outcome), outcome);
    }
  }

  lemma OthersLeaveWriter(c: Config, s: State, a: Action, r: State)
    requires Enabled(c, s, a) && !a.Writer? && r == Exec(c, s, a)
    ensures r.w == s.w
  {
    if a.Handler? {
      HandlerLeavesWriter(c, s, a.outcome);
    }
  }

  lemma {:induction false} WriteWaitEndsFrom(c: Config, s: State, m: Memory, acts: seq<Action>, p: PageId)
    requires Safe(c) && Inv(c, s, m) && InBatch(s.w, p) && Run(c, s, acts) && CountWriter(acts) >= WriterSteps(s.w)
    ensures LeavesWriteList(c, s, acts, p)
    decreases |acts|
  {
    var a, r := acts[0], Exec(c, s, acts[0]);
    ExecKeeps(c, s, m, a, r);
    if a.Writer? {
      WriterAdvances(c, s, m, r, p);
    } else {
      OthersLeaveWriter(c, s, a, r);
    }
    if p in WriteKeys(r.wl) {
      WriteWaitEndsFrom(c, r, Shadow(m, a), acts[1..], p);
    }
  }

  /** A fault that waits for a page in flight waits for a bounded number of writer steps, however
      the other threads interleave. */
  lemma WriteWaitEnds(c: Config, s: State, acts: seq<Action>, p: PageId)
    requires Safe(c) && Reachable(c, s) && InBatch(s.w, p) && Run(c, s, acts) && CountWriter(acts) >= WriterSteps(s.w)
    ensures LeavesWriteList(c, s, acts, p)
  {
    var m := ReachableInv(c, s);
    WriteWaitEndsFrom(c, s, m, acts, p);
  }

  function PrefetcherRank(f: PrefetcherPc): (n: nat) {
    match f
    case PrefetcherPost => 206
    case PrefetcherPark => 205
    case PrefetcherTop => 204
    case Reading(keys, bufs) => if |bufs| <= |keys| then 3 + |keys| - |bufs| else 3
    case Storing(_, _) => 2
    case Unlisting(_) => 1
  }

  /** Prefetcher steps are bounded by this while the list only shrinks. */
  function PrefetcherSteps(f: PrefetcherPc, pl: seq<PageId>): (n: nat) {
    |pl| * 210 + PrefetcherRank(f)
  }

  predicate WaitsForPrefetch(h: HandlerPc, p: PageId) {
    h.Wait? && (h.stage == CheckPrefetch || h.stage == PostPrefetcher || h.stage == ParkPrefetch) && h.p == p
  }

  lemma RoundAdvances(c: Config, s: State, m: Memory)
    requires PrefetcherOk(c, s.f, s.pl, m) && s.f.Unlisting?
    ensures |DelPrefetched(s.pl, s.f.keys)| < |s.pl|
  {
    DelPrefetchedDiscipline(s.pl, s.f.keys);
  }

  lemma StageAdvances(s: State)
    requires s.pl != [] && PrefetcherReady(s) && !s.f.Unlisting? && (s.f.Reading? ==> |s.f.bufs| <= |s.f.keys|)
    ensures var r := StepPrefetcher(s); PrefetcherRank(r.f) < PrefetcherRank(s.f) && r.pl == s.pl && r.h == s.h
  {
  }

  lemma PrefetcherAdvances(c: Config, s: State, m: Memory, r: State)
    requires PrefetcherOk(c, s.f, s.pl, m) && s.pl != [] && PrefetcherReady(s) && r == StepPrefetcher(s)
    ensures PrefetcherSteps(r.f, r.pl) < PrefetcherSteps(s.f, s.pl) && r.h == s.h
  {
    if s.f.Unlisting? {
      RoundAdvances(c, s, m);
    } else {
      StageAdvances(s);
    }
  }

  lemma HandlerKeepsWaiting(c: Config, s: State, p: PageId, outcome: Outcome)
    requires WaitsForPrefetch(s.h, p) && p in s.pl && HandlerReady(s)
    ensures var r := StepHandler(c, s, outcome); r.f == s.f && r.pl == s.pl && WaitsForPrefetch(r.h, p)
  {
  }

  lemma WaitLeavesPrefetcher(c: Config, s: State, a: Action, r: State, p: PageId)
    requires WaitsForPrefetch(s.h, p) && p in s.pl && Enabled(c, s, a) && !a.Prefetcher? && r == Exec(c, s, a)
    ensures r.f == s.f && r.pl == s.pl && WaitsForPrefetch(r.h, p)
  {
    if a.Handler? {
      HandlerKeepsWaiting(c, s, p, a.outcome);
    } else if a.Writer? {
      assert r.f == s.f && r.pl == s.pl && r.h == s.h;
    }
  }

  lemma {:induction false} PrefetchWaitEndsFrom(c: Config, s: State, m: Memory, acts: seq<Action>, p: PageId)
    requires Safe(c) && Inv(c, s, m) && WaitsForPrefetch(s.h, p) && Run(c, s, acts)
    requires CountPrefetcher(acts) >= PrefetcherSteps(s.f, s.pl)
    ensures LeavesPrefetchList(c, s, acts, p)
    decreases |acts|
  {
    if p in s.pl {
      var a, r := acts[0], Exec(c, s, acts[0]);
      ExecKeeps(c, s, m, a, r);
      if a.Prefetcher? {
        PrefetcherAdvances(c, s, m, r);
      } else {
        WaitLeavesPrefetcher(c, s, a, r, p);
      }
      PrefetchWaitEndsFrom(c, r, Shadow(m, a), acts[1..], p);
    }
  }

  /** A fault that waits for a page being prefetched waits for a bounded number of prefetcher
      steps: nothing is added to the list meanwhile, and every round shrinks it. */
  lemma PrefetchWaitEnds(c: Config, s: State, acts: seq<Action>, p: PageId)
    requires Safe(c) && Reachable(c, s) && WaitsForPrefetch(s.h, p) && Run(c, s, acts)
    requires CountPrefetcher(acts) >= PrefetcherSteps(s.f, s.pl)
    ensures LeavesPrefetchList(c, s, acts, p)
  {
    var m := ReachableInv(c, s);
    PrefetchWaitEndsFrom(c, s, m, acts, p);
  }
}
