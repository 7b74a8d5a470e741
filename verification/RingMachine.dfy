/** include/buffer_allocator_array.h with THREADED_REINIT: one consumer and one producer over the
    circular array. They hold different locks, so every access to a shared field is a step. */
module RingMachine {
  import opened Pages

  // ------------------------------------------------------------------------------------- state

  /** The consumer in `get_tmp_page`; from `Decide` to `Wrap` it holds the consumer lock. */
  datatype ConsumerPc =
    | Outside
    | Load
    | Decide(seen: int)
    | ConsumerWait
    | Take
    | Bump(tmp: nat)
    | Drop(tmp: nat)
    | Wrap(tmp: nat)
    | Test(tmp: nat)
    | SignalProducer(tmp: nat)

  /** The producer in `reinit_page_buffer`; from `Choose` to `Publish` it holds the producer lock. */
  datatype ProducerPc =
    | Count
    | Choose(n: int)
    | ProducerWait
    | Fill(n: int, idx: int, i: int)
    | MoveLast(n: int)
    | Publish(n: int)
    | SignalConsumer

  /** Mappings are numbered in the order they are made: `next` is the next number. */
  datatype State = State(
    pages: seq<nat>, cur: int, last: int, num: int, next: nat, handed: seq<nat>, c: ConsumerPc, p: ProducerPc)

  function Init(capacity: nat): (s: State) {
    State(seq(capacity, i => i), 0, 0, capacity, capacity, [], Outside, Count)
  }

  predicate ConsumerLocked(c: ConsumerPc) {
    c.Decide? || c.Take? || c.Bump? || c.Drop? || c.Wrap?
  }

  predicate ProducerLocked(p: ProducerPc) {
    p.Choose? || p.Fill? || p.MoveLast? || p.Publish?
  }

  // ------------------------------------------------------------------------------------- steps

  datatype Action = Consumer | Producer | WakeConsumer | WakeProducer

  predicate Enabled(s: State, a: Action) {
    match a
    case Consumer => !s.c.ConsumerWait? && (s.c.SignalProducer? ==> !ProducerLocked(s.p))
    case Producer => !s.p.ProducerWait? && (s.p.SignalConsumer? ==> !ConsumerLocked(s.c))
    case WakeConsumer => s.c.ConsumerWait?
    case WakeProducer => s.p.ProducerWait?
  }

  function StepConsumer(batch: int, s: State): (r: State) {
    var capacity := |s.pages|;
    match s.c
    case Outside => s.(c := Load)
    case Load => s.(c := Decide(s.num))
    case Decide(seen) => s.(c := if seen <= 1 then ConsumerWait else Take)
    case ConsumerWait => s
    case Take => s.(c := Bump(if 0 <= s.cur < capacity then s.pages[s.cur] else 0))
    case Bump(tmp) => s.(cur := s.cur + 1, c := Drop(tmp))
    case Drop(tmp) => s.(num := s.num - 1, c := Wrap(tmp))
    case Wrap(tmp) => s.(cur := if s.cur >= capacity then 0 else s.cur, c := Test(tmp))
    case Test(tmp) =>
      var signal := capacity - s.num >= batch + 1;
      s.(c := if signal then SignalProducer(tmp) else Outside, handed := if signal then s.handed else s.handed + [tmp])
    case SignalProducer(tmp) =>
      s.(p := if s.p.ProducerWait? then Count else s.p, c := Outside, handed := s.handed + [tmp])
  }

  function StepFill(s: State, n: int, idx: int, i: int): (r: State) {
    var slot := if idx == |s.pages| then 0 else idx;
    if i < n then
      s.(pages := if 0 <= slot < |s.pages| then s.pages[slot := s.next] else s.pages, next := s.next + 1, p := Fill(n, slot + 1, i + 1))
    else s.(p := MoveLast(n))
  }

  function StepProducer(batch: int, s: State): (r: State) {
    var capacity := |s.pages|;
    match s.p
    case Count => s.(p := Choose(capacity - s.num - 1))
    case Choose(n) => s.(p := if n < batch then ProducerWait else Fill(n, s.last, 0))
    case ProducerWait => s
    case Fill(n, idx, i) => StepFill(s, n, idx, i)
    case MoveLast(n) => s.(last := if s.last + n >= capacity then s.last + n - capacity else s.last + n, p := Publish(n))
    case Publish(n) => s.(num := s.num + n, p := SignalConsumer)
    case SignalConsumer => s.(c := if s.c.ConsumerWait? then Load else s.c, p := Count)
  }

  /** A wake action is a spurious return from a condition wait. */
  function Exec(batch: int, s: State, a: Action): (r: State) {
    match a
    case Consumer => StepConsumer(batch, s)
    case Producer => StepProducer(batch, s)
    case WakeConsumer => s.(c := Load)
    case WakeProducer => s.(p := Count)
  }

  predicate Run(batch: int, s: State, acts: seq<Action>)
    decreases |acts|
  {
    acts == [] || (Enabled(s, acts[0]) && Run(batch, Exec(batch, s, acts[0]), acts[1..]))
  }

  function Final(batch: int, s: State, acts: seq<Action>): (r: State)
    decreases |acts|
  {
    if acts == [] then s else Final(batch, Exec(batch, s, acts[0]), acts[1..])
  }

  ghost predicate Reachable(capacity: nat, batch: int, s: State) {
    exists acts :: Run(batch, Init(capacity), acts) && Final(batch, Init(capacity), acts) == s
  }

  // ------------------------------------------------------------------------- circular positions

  /** The slot of the `j`-th page, counted around a circle of `capacity` slots. */
  function Slot(j: nat, capacity: nat): (i: nat)
    requires capacity > 0
    ensures i < capacity
  {
    if j < capacity then j else Slot(j - capacity, capacity)
  }

  lemma {:induction false} SlotAdd(j: nat, n: nat, capacity: nat)
    requires n < capacity
    ensures Slot(j + n, capacity) == if Slot(j, capacity) + n < capacity then Slot(j, capacity) + n else Slot(j, capacity) + n - capacity
  {
    if j >= capacity {
      SlotAdd(j - capacity, n, capacity);
      assert j + n - capacity == (j - capacity) + n;
    } else if j + n >= capacity {
      assert Slot(j + n, capacity) == Slot(j + n - capacity, capacity);
    }
  }

  lemma SlotDistinct(i: nat, j: nat, capacity: nat)
    requires i < j < i + capacity
    ensures Slot(i, capacity) != Slot(j, capacity)
  {
    SlotAdd(i, j - i, capacity);
  }

  // ---------------------------------------------------------------------------------- safety

  /** The page in the consumer's hands has been taken out of the count. */
  predicate Counted(c: ConsumerPc) {
    c.Wrap? || c.Test? || c.SignalProducer?
  }

  /** Pages taken out, counted when the counter is decremented. */
  function Taken(s: State): (n: nat) {
    if Counted(s.c) then |s.handed| + 1 else |s.handed|
  }

  /** Pages mapped by the refill in progress and not yet published. */
  function Pending(p: ProducerPc): (n: int) {
    match p
    case Fill(_, _, i) => i
    case MoveLast(n) => n
    case Publish(n) => n
    case _ => 0
  }

  /** `t` pages were taken out. */
  ghost predicate ConsumerOk(capacity: nat, c: ConsumerPc, cur: int, num: int, t: nat)
    requires capacity > 0
  {
    match c
    case Decide(seen) => seen <= num && cur == Slot(t, capacity)
    case Take => num >= 2 && cur == Slot(t, capacity)
    case Bump(tmp) => num >= 2 && tmp == t && cur == Slot(t, capacity)
    case Drop(tmp) => num >= 2 && tmp == t && cur == Slot(t, capacity) + 1
    case Wrap(tmp) => capacity >= 2 && tmp == t - 1 && cur == Slot(tmp, capacity) + 1
    case Test(tmp) => tmp == t - 1 && cur == Slot(t, capacity)
    case SignalProducer(tmp) => tmp == t - 1 && cur == Slot(t, capacity)
    case _ => cur == Slot(t, capacity)
  }

  /** A refill never reaches the slot the consumer is at. */
  ghost predicate ProducerOk(capacity: nat, p: ProducerPc, last: int, next: nat, t: nat)
    requires capacity > 0
  {
    match p
    case Choose(n) => next + n < t + capacity && last == Slot(next, capacity)
    case Fill(n, idx, i) =>
      && 0 <= i <= n && i <= next && next - i + n < t + capacity && last == Slot(next - i, capacity)
      && 0 <= idx <= capacity && Slot(next, capacity) == (if idx == capacity then 0 else idx)
    case MoveLast(n) => 0 <= n < capacity && n <= next < t + capacity && last == Slot(next - n, capacity)
    case Publish(n) => 0 <= n && next < t + capacity && last == Slot(next, capacity)
    case _ => last == Slot(next, capacity)
  }

  /** The mappings made and not taken out are in their slots. */
  ghost predicate SlotsOk(capacity: nat, pages: seq<nat>, next: nat, t: nat)
    requires capacity > 0
  {
    && |pages| == capacity && t < next <= t + capacity
    && forall j: nat :: t <= j < next ==> pages[Slot(j, capacity)] == j
  }

  ghost predicate Inv(capacity: nat, s: State)
    requires capacity > 0
  {
    && s.num >= 1 && s.num == s.next - Pending(s.p) - Taken(s)
    && ConsumerOk(capacity, s.c, s.cur, s.num, Taken(s))
    && ProducerOk(capacity, s.p, s.last, s.next, Taken(s))
    && SlotsOk(capacity, s.pages, s.next, Taken(s))
    && forall k :: 0 <= k < |s.handed| ==> s.handed[k] == k
  }

  lemma ConsumerKeepsPages(capacity: nat, batch: int, s: State)
    requires capacity > 0 && Inv(capacity, s)
    ensures var r := StepConsumer(batch, s);
      && Taken(r) == Taken(s) + (if s.c.Drop? then 1 else 0)
      && SlotsOk(capacity, r.pages, r.next, Taken(r))
      && r.next == s.next && (r.p == s.p || (r.p.Count? && s.p.ProducerWait?)) && r.last == s.last
      && forall k :: 0 <= k < |r.handed| ==> r.handed[k] == k
  {
  }

  lemma ConsumerKeepsPlace(capacity: nat, batch: int, s: State)
    requires capacity > 0 && Inv(capacity, s)
    ensures var r := StepConsumer(batch, s);
      r.num >= 1 && ConsumerOk(capacity, r.c, r.cur, r.num, Taken(s) + (if s.c.Drop? then 1 else 0))
  {
    if s.c.Wrap? {
      SlotAdd(s.c.tmp, 1, capacity);
    } else if s.c.Take? {
      assert s.pages[Slot(Taken(s), capacity)] == Taken(s);
    }
  }

  lemma ConsumerKeeps(capacity: nat, batch: int, s: State)
    requires capacity > 0 && Inv(capacity, s)
    ensures Inv(capacity, StepConsumer(batch, s))
  {
    ConsumerKeepsPages(capacity, batch, s);
    ConsumerKeepsPlace(capacity, batch, s);
  }

  /** Filling the next slot leaves every page not yet taken out where it is. */
  lemma FillSlots(capacity: nat, pages: seq<nat>, next: nat, t: nat)
    requires capacity > 0 && SlotsOk(capacity, pages, next, t) && next < t + capacity
    ensures forall j: nat :: t <= j < next ==> Slot(j, capacity) != Slot(next, capacity)
    ensures SlotsOk(capacity, pages[Slot(next, capacity) := next], next + 1, t)
  {
    forall j: nat | t <= j < next
      ensures Slot(j, capacity) != Slot(next, capacity)
    {
      SlotDistinct(j, next, capacity);
    }
  }

  lemma FillPlace(capacity: nat, p: ProducerPc, last: int, next: nat, t: nat)
    requires capacity > 0 && ProducerOk(capacity, p, last, next, t) && p.Fill? && p.i < p.n && next > t
    ensures var slot := if p.idx == capacity then 0 else p.idx;
      slot == Slot(next, capacity) && next < t + capacity && ProducerOk(capacity, Fill(p.n, slot + 1, p.i + 1), last, next + 1, t)
  {
    if capacity > 1 {
      SlotAdd(next, 1, capacity);
    }
  }

  lemma FillKeeps(capacity: nat, s: State, n: int, idx: int, i: int)
    requires capacity > 0 && Inv(capacity, s) && s.p == Fill(n, idx, i) && i < n
    ensures Inv(capacity, StepFill(s, n, idx, i))
  {
    FillPlace(capacity, s.p, s.last, s.next, Taken(s));
    FillSlots(capacity, s.pages, s.next, Taken(s));
  }

  lemma MovePlace(capacity: nat, n: int, last: int, next: nat, t: nat)
    requires capacity > 0 && ProducerOk(capacity, MoveLast(n), last, next, t)
    ensures ProducerOk(capacity, Publish(n), if last + n >= capacity then last + n - capacity else last + n, next, t)
  {
    SlotAdd(next - n, n, capacity);
  }

  lemma RefillPlace(capacity: nat, batch: int, s: State, t: nat)
    requires capacity > 0 && batch >= 0 && |s.pages| == capacity && (s.p.Fill? ==> s.p.i >= s.p.n)
    requires ProducerOk(capacity, s.p, s.last, s.next, t) && 1 <= s.num == s.next - Pending(s.p) - t
    ensures var r := StepProducer(batch, s); ProducerOk(capacity, r.p, r.last, r.next, t)
  {
    if s.p.MoveLast? {
      MovePlace(capacity, s.p.n, s.last, s.next, t);
    }
  }

  lemma RefillRest(capacity: nat, batch: int, s: State)
    requires capacity > 0 && batch >= 0 && Inv(capacity, s) && (s.p.Fill? ==> s.p.i >= s.p.n)
    ensures var r := StepProducer(batch, s);
      && r.pages == s.pages && r.next == s.next && r.handed == s.handed && Taken(r) == Taken(s)
      && r.num >= s.num && r.num == r.next - Pending(r.p) - Taken(s)
      && r.cur == s.cur && (r.c == s.c || (s.c.ConsumerWait? && r.c.Load?))
  {
  }

  lemma RefillKeeps(capacity: nat, batch: int, s: State)
    requires capacity > 0 && batch >= 0 && Inv(capacity, s) && (s.p.Fill? ==> s.p.i >= s.p.n)
    ensures Inv(capacity, StepProducer(batch, s))
  {
    RefillPlace(capacity, batch, s, Taken(s));
    RefillRest(capacity, batch, s);
  }

  lemma ProducerKeeps(capacity: nat, batch: int, s: State)
    requires capacity > 0 && batch >= 0 && Inv(capacity, s)
    ensures Inv(capacity, StepProducer(batch, s))
  {
    if s.p.Fill? && s.p.i < s.p.n {
      FillKeeps(capacity, s, s.p.n, s.p.idx, s.p.i);
    } else {
      RefillKeeps(capacity, batch, s);
    }
  }

  lemma {:induction false} RunKeeps(capacity: nat, batch: int, s: State, acts: seq<Action>)
    requires capacity > 0 && batch >= 0 && Inv(capacity, s) && Run(batch, s, acts)
    ensures Inv(capacity, Final(batch, s, acts))
    decreases |acts|
  {
    if acts != [] {
      if acts[0].Consumer? {
        ConsumerKeeps(capacity, batch, s);
      } else if acts[0].Producer? {
        ProducerKeeps(capacity, batch, s);
      }
      RunKeeps(capacity, batch, Exec(batch, s, acts[0]), acts[1..]);
    }
  }

  lemma ReachableInv(capacity: nat, batch: int, s: State)
    requires capacity > 0 && batch >= 0 && Reachable(capacity, batch, s)
    ensures Inv(capacity, s)
  {
    var acts :| Run(batch, Init(capacity), acts) && Final(batch, Init(capacity), acts) == s;
    RunKeeps(capacity, batch, Init(capacity), acts);
  }

  lemma {:induction false} SlotOfSlot(j: nat, n: nat, capacity: nat)
    requires capacity > 0
    ensures Slot(Slot(j, capacity) + n, capacity) == Slot(j + n, capacity)
  {
    if j >= capacity {
      SlotOfSlot(j - capacity, n, capacity);
      assert j + n - capacity == (j - capacity) + n;
    }
  }

  /** Pages are handed out in the order they were mapped, each once; the next one is in its slot;
      and a refill writes to a slot of the array that holds no page still to be handed out. */
  ghost predicate SlotsSafe(capacity: nat, s: State)
    requires capacity > 0
  {
    && (forall k :: 0 <= k < |s.handed| ==> s.handed[k] == k)
    && (s.c.Take? ==> 0 <= s.cur < |s.pages| && s.pages[s.cur] == |s.handed|)
    && (s.p.Fill? && s.p.i < s.p.n ==>
          var slot := if s.p.idx == capacity then 0 else s.p.idx;
          0 <= slot < |s.pages| && forall j: nat :: Taken(s) <= j < s.next ==> Slot(j, capacity) != slot)
  }

  /** Except while one of the two threads is between its two updates, the initialized pages run
      from the current index to the last initialized one. */
  ghost predicate IndicesAgree(capacity: nat, s: State)
    requires capacity > 0
  {
    !s.c.Drop? && !s.c.Wrap? && !s.p.Publish? ==>
      0 <= s.cur < capacity && 1 <= s.num <= capacity && Slot(s.cur + s.num, capacity) == s.last
  }

  lemma RingSafety(capacity: nat, batch: int, s: State)
    requires capacity > 0 && batch >= 0 && Reachable(capacity, batch, s)
    ensures SlotsSafe(capacity, s)
  {
    ReachableInv(capacity, batch, s);
    if s.p.Fill? && s.p.i < s.p.n {
      FillPlace(capacity, s.p, s.last, s.next, Taken(s));
      FillSlots(capacity, s.pages, s.next, Taken(s));
    }
  }

  lemma RingIndices(capacity: nat, batch: int, s: State)
    requires capacity > 0 && batch >= 0 && Reachable(capacity, batch, s)
    ensures IndicesAgree(capacity, s)
  {
    ReachableInv(capacity, batch, s);
    if !s.c.Drop? && !s.c.Wrap? && !s.p.Publish? {
      SlotOfSlot(Taken(s), s.num, capacity);
    }
  }

  /** What `cleanup_page_buffer` unmaps is exactly what was mapped and not handed out. */
  lemma CleanupUnmapsRest(capacity: nat, batch: int, s: State, k: nat)
    requires capacity > 0 && batch >= 0 && Reachable(capacity, batch, s)
    requires s.c.Outside? && !ProducerLocked(s.p) && k < s.num
    ensures s.next == |s.handed| + s.num && 0 <= s.cur < capacity
    ensures |s.pages| == capacity && s.pages[Slot(s.cur + k, capacity)] == |s.handed| + k
  {
    ReachableInv(capacity, batch, s);
    SlotOfSlot(Taken(s), k, capacity);
    assert s.pages[Slot(Taken(s) + k, capacity)] == Taken(s) + k;
  }
}
