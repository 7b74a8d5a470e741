/** When the ring's two threads can both be asleep. */
module RingProgress {
  import opened Pages
  import opened RingMachine

  // ------------------------------------------------------------------------------ what is owed

  /** A producer that waits, or has decided to, with room for a batch is about to be signalled. */
  ghost predicate ProducerOwed(batch: int, s: State) {
    (s.p.ProducerWait? || (s.p.Choose? && s.p.n < batch)) && |s.pages| - s.num >= batch + 1 ==> Counted(s.c)
  }

  /** A consumer that waits, or has decided to, with a page to take is about to be signalled. */
  ghost predicate ConsumerOwed(s: State) {
    (s.c.ConsumerWait? || (s.c.Decide? && s.c.seen <= 1)) && s.num >= 2 ==> s.p.SignalConsumer?
  }

  ghost predicate Owed(batch: int, s: State) {
    ProducerOwed(batch, s) && ConsumerOwed(s)
  }

  lemma {:induction false} RunOwed(batch: int, s: State, acts: seq<Action>)
    requires Owed(batch, s) && Run(batch, s, acts)
    ensures Owed(batch, Final(batch, s, acts)) && |Final(batch, s, acts).pages| == |s.pages|
    decreases |acts|
  {
    if acts != [] {
      RunOwed(batch, Exec(batch, s, acts[0]), acts[1..]);
    }
  }

  predicate Stuck(s: State) {
    s.c.ConsumerWait? && s.p.ProducerWait?
  }

  /** With a batch of at most two less than the capacity, the two are never asleep at the same
      time: one of them can step, although the shared counter is guarded by two different locks. */
  lemma NeverStuck(capacity: nat, batch: int, s: State)
    requires 0 <= batch <= capacity - 2 && Reachable(capacity, batch, s)
    ensures !Stuck(s) && (Enabled(s, Consumer) || Enabled(s, Producer))
  {
    var acts :| Run(batch, Init(capacity), acts) && Final(batch, Init(capacity), acts) == s;
    RunOwed(batch, Init(capacity), acts);
  }

  // -------------------------------------------------------------------------- a run that sticks

  ghost predicate Leads(batch: int, s: State, r: State) {
    exists acts :: Run(batch, s, acts) && Final(batch, s, acts) == r
  }

  lemma {:induction false} Joined(batch: int, s: State, xs: seq<Action>, ys: seq<Action>)
    requires Run(batch, s, xs) && Run(batch, Final(batch, s, xs), ys)
    ensures Run(batch, s, xs + ys) && Final(batch, s, xs + ys) == Final(batch, Final(batch, s, xs), ys)
    decreases |xs|
  {
    if xs == [] {
      assert xs + ys == ys;
    } else {
      assert (xs + ys)[0] == xs[0] && (xs + ys)[1..] == xs[1..] + ys;
      Joined(batch, Exec(batch, s, xs[0]), xs[1..], ys);
    }
  }

  lemma Then(batch: int, s: State, mid: State, r: State)
    requires Leads(batch, s, mid) && Leads(batch, mid, r)
    ensures Leads(batch, s, r)
  {
    var xs :| Run(batch, s, xs) && Final(batch, s, xs) == mid;
    var ys :| Run(batch, mid, ys) && Final(batch, mid, ys) == r;
    Joined(batch, s, xs, ys);
    assert Run(batch, s, xs + ys) && Final(batch, s, xs + ys) == r;
  }

  lemma Here(batch: int, s: State)
    ensures Leads(batch, s, s)
  {
    assert Run(batch, s, []) && Final(batch, s, []) == s;
  }

  lemma Next(batch: int, s: State, mid: State, a: Action, r: State)
    requires Leads(batch, s, mid) && Enabled(mid, a) && r == Exec(batch, mid, a)
    ensures Leads(batch, s, r)
  {
    var acts := [a];
    assert acts[1..] == [] && Run(batch, r, []) && Final(batch, r, []) == r;
    assert Run(batch, mid, acts) && Final(batch, mid, acts) == Final(batch, r, acts[1..]);
    Then(batch, s, mid, r);
  }

  /** The consumer takes a page and finds no reason to signal the sleeping producer. */
  lemma TakeRun(batch: int, s: State) returns (r: State)
    requires s.c.Outside? && s.p.ProducerWait? && s.num >= 2 && |s.pages| <= batch + s.num - 1
    ensures Leads(batch, s, r) && r.c.Outside? && r.p.ProducerWait? && r.num == s.num - 1 && |r.pages| == |s.pages|
  {
    Here(batch, s);
    var s1 := s.(c := Load);
    Next(batch, s, s, Consumer, s1);
    var s2 := s.(c := Decide(s.num));
    Next(batch, s, s1, Consumer, s2);
    var s3 := s.(c := Take);
    Next(batch, s, s2, Consumer, s3);
    var s4 := StepConsumer(batch, s3);
    Next(batch, s, s3, Consumer, s4);
    var s5 := StepConsumer(batch, s4);
    Next(batch, s, s4, Consumer, s5);
    var s6 := StepConsumer(batch, s5);
    Next(batch, s, s5, Consumer, s6);
    var s7 := StepConsumer(batch, s6);
    Next(batch, s, s6, Consumer, s7);
    r := StepConsumer(batch, s7);
    Next(batch, s, s7, Consumer, r);
  }

  lemma {:induction false} DrainRun(batch: int, s: State) returns (r: State)
    requires s.c.Outside? && s.p.ProducerWait? && s.num >= 1 && |s.pages| <= batch + 1
    ensures Leads(batch, s, r) && r.c.Outside? && r.p.ProducerWait? && r.num == 1
    decreases s.num
  {
    if s.num == 1 {
      Here(batch, s);
      r := s;
    } else {
      var s1 := TakeRun(batch, s);
      r := DrainRun(batch, s1);
      Then(batch, s, s1, r);
    }
  }

  /** A batch that the ring can never have room for: the producer sleeps at once, the consumer
      takes all pages but one and sleeps too. */
  lemma StuckRun(capacity: nat, batch: int) returns (r: State)
    requires capacity >= 1 && batch >= 0 && batch >= capacity - 1
    ensures Reachable(capacity, batch, r) && Stuck(r)
  {
    var s := Init(capacity);
    Here(batch, s);
    var s1 := s.(p := Choose(-1));
    Next(batch, s, s, Producer, s1);
    var s2 := s.(p := ProducerWait);
    Next(batch, s, s1, Producer, s2);
    var s3 := DrainRun(batch, s2);
    Then(batch, s, s2, s3);
    var s4 := s3.(c := Load);
    Next(batch, s, s3, Consumer, s4);
    var s5 := s3.(c := Decide(1));
    Next(batch, s, s4, Consumer, s5);
    r := s3.(c := ConsumerWait);
    Next(batch, s, s5, Consumer, r);
  }

  /** With a negative batch the producer always finds enough room, and never sleeps. */
  predicate Awake(s: State) {
    && s.num <= |s.pages| && !s.p.ProducerWait?
    && (match s.p
        case Choose(n) => -1 <= n <= |s.pages| - s.num - 1
        case Fill(n, _, _) => n <= |s.pages| - s.num - 1
        case MoveLast(n) => n <= |s.pages| - s.num - 1
        case Publish(n) => n <= |s.pages| - s.num - 1
        case _ => true)
  }

  lemma {:induction false} StaysAwake(batch: int, s: State, acts: seq<Action>)
    requires batch < 0 && Awake(s) && Run(batch, s, acts)
    ensures Awake(Final(batch, s, acts))
    decreases |acts|
  {
    if acts != [] {
      StaysAwake(batch, Exec(batch, s, acts[0]), acts[1..]);
    }
  }

  /** The ring never sticks exactly if the batch is at most two less than the capacity. */
  lemma ProgressIff(capacity: nat, batch: int)
    requires capacity >= 1
    ensures (forall s :: Reachable(capacity, batch, s) ==> !Stuck(s)) <==> batch <= capacity - 2
  {
    if batch < 0 {
      forall s | Reachable(capacity, batch, s)
        ensures !Stuck(s)
      {
        var acts :| Run(batch, Init(capacity), acts) && Final(batch, Init(capacity), acts) == s;
        StaysAwake(batch, Init(capacity), acts);
      }
    } else if batch <= capacity - 2 {
      forall s | Reachable(capacity, batch, s)
        ensures !Stuck(s)
      {
        NeverStuck(capacity, batch, s);
      }
    } else {
      var r := StuckRun(capacity, batch);
    }
  }

  // --------------------------------------------------------------------------- negative batches

  /** A negative batch size makes the producer "refill" minus one page of a full ring, and the
      index of the last initialized page leaves the array. */
  lemma NegativeBatchCorrupts(capacity: nat, batch: int) returns (r: State)
    requires capacity >= 1 && batch < 0
    ensures Reachable(capacity, batch, r) && r.last == -1 && !IndicesAgree(capacity, r)
  {
    var s := Init(capacity);
    Here(batch, s);
    var s1 := s.(p := Choose(-1));
    Next(batch, s, s, Producer, s1);
    r := BackRun(batch, s1);
    Then(batch, s, s1, r);
  }

  /** The refill of minus one page. */
  lemma BackRun(batch: int, s: State) returns (r: State)
    requires batch < 0 && s.p == Choose(-1) && s.last == 0 && |s.pages| > 0
    ensures Leads(batch, s, r) && r == s.(last := -1, num := s.num - 1, p := SignalConsumer)
  {
    Here(batch, s);
    var s1 := s.(p := Fill(-1, 0, 0));
    Next(batch, s, s, Producer, s1);
    var s2 := s.(p := MoveLast(-1));
    Next(batch, s, s1, Producer, s2);
    var s3 := s.(last := -1, p := Publish(-1));
    Next(batch, s, s2, Producer, s3);
    r := s.(last := -1, num := s.num - 1, p := SignalConsumer);
    Next(batch, s, s3, Producer, r);
  }

  /** The consumer takes a page while the producer has already counted. */
  lemma TakeMeanwhile(batch: int, s: State) returns (r: State)
    requires s.c.Outside? && s.num >= 2 && s.cur == 0 && |s.pages| > 0
    ensures Leads(batch, s, r) && r == s.(c := r.c, cur := r.cur, num := s.num - 1) && r.c.Test?
  {
    Here(batch, s);
    var s1 := s.(c := Load);
    Next(batch, s, s, Consumer, s1);
    var s2 := s.(c := Decide(s.num));
    Next(batch, s, s1, Consumer, s2);
    var s3 := s.(c := Take);
    Next(batch, s, s2, Consumer, s3);
    var s4 := s.(c := Bump(s.pages[0]));
    Next(batch, s, s3, Consumer, s4);
    var s5 := s.(cur := 1, c := Drop(s.pages[0]));
    Next(batch, s, s4, Consumer, s5);
    var s6 := s.(cur := 1, num := s.num - 1, c := Wrap(s.pages[0]));
    Next(batch, s, s5, Consumer, s6);
    r := StepConsumer(batch, s6);
    Next(batch, s, s6, Consumer, r);
  }

  /** With two slots or more the next refill then writes before the start of the array. */
  lemma NegativeBatchOverruns(capacity: nat, batch: int) returns (r: State)
    requires capacity >= 2 && batch < 0
    ensures Reachable(capacity, batch, r) && r.p == Fill(1, -1, 0) && !SlotsSafe(capacity, r)
  {
    var s := Init(capacity);
    Here(batch, s);
    var s1 := s.(p := Choose(-1));
    Next(batch, s, s, Producer, s1);
    var s2 := TakeMeanwhile(batch, s1);
    Then(batch, s, s1, s2);
    var s3 := BackRun(batch, s2);
    Then(batch, s, s2, s3);
    var s4 := s3.(p := Count);
    Next(batch, s, s3, Producer, s4);
    var s5 := s3.(p := Choose(1));
    Next(batch, s, s4, Producer, s5);
    r := s3.(p := Fill(1, -1, 0));
    Next(batch, s, s5, Producer, r);
  }

  /** With one slot a negative batch hands nothing out and maps nothing. */
  predicate Idling(s: State) {
    && |s.pages| == 1 && s.handed == [] && s.num in {0, 1}
    && (s.c.Outside? || s.c.Load? || s.c.ConsumerWait? || (s.c.Decide? && s.c.seen <= 1))
    && (match s.p
        case Choose(n) => n == -s.num
        case Fill(n, _, i) => n == -s.num && i == 0
        case MoveLast(n) => n == -s.num
        case Publish(n) => n == -s.num
        case _ => true)
  }

  lemma {:induction false} StaysIdling(batch: int, s: State, acts: seq<Action>)
    requires Idling(s) && Run(batch, s, acts)
    ensures Idling(Final(batch, s, acts))
    decreases |acts|
  {
    if acts != [] {
      StaysIdling(batch, Exec(batch, s, acts[0]), acts[1..]);
    }
  }

  lemma OneSlotSafe(batch: int, s: State)
    requires Reachable(1, batch, s)
    ensures SlotsSafe(1, s)
  {
    var acts :| Run(batch, Init(1), acts) && Final(batch, Init(1), acts) == s;
    StaysIdling(batch, Init(1), acts);
  }

  /** The slots are safe on every run exactly if the batch is not negative, or there is only one
      slot; the indices agree on every run exactly if the batch is not negative. */
  lemma SafetyIff(capacity: nat, batch: int)
    requires capacity >= 1
    ensures (forall s :: Reachable(capacity, batch, s) ==> SlotsSafe(capacity, s)) <==> batch >= 0 || capacity == 1
    ensures (forall s :: Reachable(capacity, batch, s) ==> IndicesAgree(capacity, s)) <==> batch >= 0
  {
    if batch >= 0 {
      forall s | Reachable(capacity, batch, s)
        ensures SlotsSafe(capacity, s) && IndicesAgree(capacity, s)
      {
        RingSafety(capacity, batch, s);
        RingIndices(capacity, batch, s);
      }
    } else {
      var r := NegativeBatchCorrupts(capacity, batch);
      if capacity == 1 {
        forall s | Reachable(1, batch, s)
          ensures SlotsSafe(1, s)
        {
          OneSlotSafe(batch, s);
        }
      } else {
        var q := NegativeBatchOverruns(capacity, batch);
      }
    }
  }
}
