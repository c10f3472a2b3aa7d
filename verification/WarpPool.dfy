/** One camera's pool of warp slots: the capture thread takes a slot for each frame and
    pushes the frame to c capacity-one queues; each queue's consumer holds at most one
    frame; the slot goes back when the last reference disappears. */
module WarpPool {
  import opened Counting
  import SQ = StageQueue

  type Slot = nat

  // ---------- The pool in place ----------

  function Upto(n: nat): (r: seq<Slot>)
    ensures |r| == n && forall i :: 0 <= i < n ==> r[i] == i
  {
    seq(n, i => i)
  }

  class GpuMatPool {
    var freeIdx: seq<Slot>

    constructor (n: nat)
      ensures freeIdx == Upto(n)
    {
      freeIdx := [];
      new;
      for i := 0 to n
        invariant freeIdx == Upto(i)
      {
        freeIdx := freeIdx + [i];
      }
    }

    method TryAcquire() returns (slot: int)
      modifies this
      ensures old(freeIdx) == [] ==> slot == -1 && freeIdx == []
      ensures old(freeIdx) != [] ==> 0 <= slot && freeIdx + [slot] == old(freeIdx)
    {
      if |freeIdx| == 0 {
        return -1;
      }
      slot := freeIdx[|freeIdx| - 1];
      freeIdx := freeIdx[..|freeIdx| - 1];
    }

    method Release(slot: Slot)
      modifies this
      ensures freeIdx == old(freeIdx) + [slot]
    {
      freeIdx := freeIdx + [slot];
    }
  }

  // ---------- The camera ----------

  datatype Capture = Idle | Pushing(slot: Slot, k: nat)
  datatype Hold = Nothing | Has(slot: Slot)

  datatype State = State(
    slots: nat, free: seq<Slot>, capture: Capture,
    queues: seq<SQ.Queue<Slot>>, holds: seq<Hold>,
    latest: Hold)                     // bookkeeping: the slot of the last completed frame

  datatype Action = Acquire | Push | Finish | Take(j: nat) | Drop(j: nat) | Close(j: nat)

  // Some reference to the frame that owns the slot is left.
  predicate Live(s: State, x: Slot) {
    || (s.capture.Pushing? && s.capture.slot == x)
    || InQueues(s.queues, x)
    || Has(x) in s.holds
  }

  predicate InQueues(queues: seq<SQ.Queue<Slot>>, x: Slot) {
    exists j :: 0 <= j < |queues| && x in queues[j].items
  }

  // The frame destructor: the slot returns when its last reference has just gone.
  function Collect(s: State, h: Hold): State {
    if h.Has? && !Live(s, h.slot) then s.(free := s.free + [h.slot]) else s
  }

  function Step(s: State, a: Action): State {
    match a
    case Acquire =>
      if s.capture == Idle && s.free != [] then
        s.(free := s.free[..|s.free| - 1], capture := Pushing(s.free[|s.free| - 1], 0))
      else s
    case Push =>
      if s.capture.Pushing? && s.capture.k < |s.queues| then
        var k, q := s.capture.k, s.queues[s.capture.k];
        var dropped := if q.closed || q.items == [] then Nothing else Has(q.items[0]);
        Collect(s.(queues := s.queues[k := SQ.Pushed(q, s.capture.slot)], capture := Pushing(s.capture.slot, k + 1)),
                dropped)
      else s
    case Finish =>
      if s.capture.Pushing? && s.capture.k == |s.queues| then
        Collect(s.(capture := Idle, latest := Has(s.capture.slot)), Has(s.capture.slot))
      else s
    case Take(j) =>
      if j < |s.queues| && j < |s.holds| && s.queues[j].items != [] then
        var q := s.queues[j];
        Collect(s.(queues := s.queues[j := q.(items := q.items[1..])], holds := s.holds[j := Has(q.items[0])]),
                s.holds[j])
      else s
    case Drop(j) =>
      if j < |s.holds| then Collect(s.(holds := s.holds[j := Nothing]), s.holds[j]) else s
    case Close(j) =>
      if j < |s.queues| then s.(queues := s.queues[j := s.queues[j].(closed := true)]) else s
  }

  function Init(slots: nat, c: nat): State {
    State(slots, Upto(slots), Idle, seq(c, _ => SQ.Queue([], 1, false)), seq(c, _ => Nothing), Nothing)
  }

  ghost predicate QueueOk(q: SQ.Queue<Slot>) {
    q.max == 1 && |q.items| <= 1
  }

  // What an open queue can hold: the frame being pushed if it was reached, else the last one.
  ghost predicate Fresh(s: State, j: nat)
    requires j < |s.queues|
  {
    !s.queues[j].closed && s.queues[j].items != [] ==>
      Has(s.queues[j].items[0]) ==
        if s.capture.Pushing? && j < s.capture.k then Has(s.capture.slot) else s.latest
  }

  ghost predicate Inv(s: State) {
    && |s.queues| == |s.holds|
    && (forall j :: 0 <= j < |s.queues| ==> QueueOk(s.queues[j]) && Fresh(s, j))
    && NoDup(s.free)
    && (forall x: Slot :: x in s.free ==> x < s.slots)
    && (forall x: Slot :: Live(s, x) ==> x < s.slots)
    && (forall x: Slot :: x < s.slots ==> (x in s.free <==> !Live(s, x)))
    && (s.capture.Pushing? ==> s.capture.k <= |s.queues|)
  }

  // Collecting restores the partition when at most h lost its last reference.
  lemma CollectInv(s: State, h: Hold)
    requires |s.queues| == |s.holds|
    requires forall j :: 0 <= j < |s.queues| ==> QueueOk(s.queues[j]) && Fresh(s, j)
    requires NoDup(s.free) && (forall x: Slot :: x in s.free ==> x < s.slots)
    requires forall x: Slot :: Live(s, x) ==> x < s.slots
    requires forall x: Slot :: x < s.slots && Has(x) != h ==> (x in s.free <==> !Live(s, x))
    requires h.Has? ==> h.slot < s.slots && h.slot !in s.free
    requires s.capture.Pushing? ==> s.capture.k <= |s.queues|
    ensures Inv(Collect(s, h))
  {
    var s' := Collect(s, h);
    assert forall x: Slot :: Live(s', x) <==> Live(s, x);
    forall j | 0 <= j < |s'.queues| ensures Fresh(s', j) {
      assert Fresh(s, j);
    }
  }

  lemma StepInv(s: State, a: Action)
    requires Inv(s)
    ensures Inv(Step(s, a)) && |Step(s, a).queues| == |s.queues| && Step(s, a).slots == s.slots
  {
    match a
    case Acquire => AcquireInv(s);
    case Push => PushInv(s);
    case Finish => FinishInv(s);
    case Take(j) => TakeInv(s, j);
    case Drop(j) => DropInv(s, j);
    case Close(j) =>
      var s' := Step(s, a);
      if j < |s.queues| {
        assert forall i :: 0 <= i < |s.queues| ==> s'.queues[i].items == s.queues[i].items;
        assert forall x: Slot :: Live(s', x) <==> Live(s, x);
        assert forall i :: 0 <= i < |s.queues| ==> Fresh(s, i);
      }
  }

  lemma AcquireInv(s: State)
    requires Inv(s)
    ensures Inv(Step(s, Acquire))
  {
    var s' := Step(s, Acquire);
    if s.capture == Idle && s.free != [] {
      var x := s.free[|s.free| - 1];
      assert s.free == s'.free + [x];
      assert x in s.free && x !in s'.free;
      forall y: Slot ensures y in s'.free ==> y in s.free && y < s.slots {
        assert y in s.free ==> y < s.slots;
      }
      assert forall y: Slot :: Live(s', y) <==> Live(s, y) || y == x;
      assert forall i :: 0 <= i < |s.queues| ==> Fresh(s, i);
    }
  }

  // Replacing one queue adds and removes only that queue's items.
  lemma QueueUpdate(queues: seq<SQ.Queue<Slot>>, k: nat, q: SQ.Queue<Slot>)
    requires k < |queues|
    ensures forall y: Slot :: InQueues(queues[k := q], y) ==> InQueues(queues, y) || y in q.items
    ensures forall y: Slot :: InQueues(queues, y) ==> InQueues(queues[k := q], y) || y in queues[k].items
    ensures forall y: Slot :: y in q.items ==> InQueues(queues[k := q], y)
    ensures forall y: Slot :: y in queues[k].items ==> InQueues(queues, y)
  {
    var after := queues[k := q];
    forall y: Slot | InQueues(queues, y) ensures InQueues(after, y) || y in queues[k].items {
      var j :| 0 <= j < |queues| && y in queues[j].items;
      assert after[j] == if j == k then q else queues[j];
    }
    forall y: Slot | y in q.items ensures InQueues(after, y) {
      assert after[k] == q;
    }
  }

  // Replacing one holder adds and removes only that holder's slot.
  lemma HoldUpdate(holds: seq<Hold>, j: nat, h: Hold)
    requires j < |holds|
    ensures forall y :: y in holds[j := h] ==> y in holds || y == h
    ensures forall y :: y in holds ==> y in holds[j := h] || y == holds[j]
    ensures h in holds[j := h] && holds[j] in holds
  {
    var after := holds[j := h];
    forall y | y in holds ensures y in after || y == holds[j] {
      var i :| 0 <= i < |holds| && holds[i] == y;
      assert after[i] == if i == j then h else y;
    }
    assert after[j] == h;
  }

  lemma PushInv(s: State)
    requires Inv(s)
    ensures Inv(Step(s, Push))
  {
    if s.capture.Pushing? && s.capture.k < |s.queues| {
      var k, x, q := s.capture.k, s.capture.slot, s.queues[s.capture.k];
      var q' := SQ.Pushed(q, x);
      var dropped := if q.closed || q.items == [] then Nothing else Has(q.items[0]);
      var s1 := s.(queues := s.queues[k := q'], capture := Pushing(x, k + 1));
      assert QueueOk(q) && Live(s, x);
      assert q'.items == if q.closed then q.items else [x];
      QueueUpdate(s.queues, k, q');
      assert dropped.Has? ==> Live(s, dropped.slot);
      assert forall i :: 0 <= i < |s.queues| ==> Fresh(s, i);
      forall y: Slot ensures Live(s1, y) ==> Live(s, y)
        ensures Live(s, y) && Has(y) != dropped ==> Live(s1, y)
      {
        assert InQueues(s1.queues, y) ==> InQueues(s.queues, y) || y == x;
      }
      CollectInv(s1, dropped);
    }
  }

  lemma FinishInv(s: State)
    requires Inv(s)
    ensures Inv(Step(s, Finish))
  {
    if s.capture.Pushing? && s.capture.k == |s.queues| {
      var x := s.capture.slot;
      var s1 := s.(capture := Idle, latest := Has(x));
      assert Live(s, x);
      assert forall i :: 0 <= i < |s.queues| ==> Fresh(s, i);
      forall y: Slot ensures Live(s1, y) ==> Live(s, y)
        ensures Live(s, y) && y != x ==> Live(s1, y)
      {
        assert Live(s1, y) ==> InQueues(s.queues, y) || Has(y) in s.holds;
      }
      CollectInv(s1, Has(x));
    }
  }

  lemma TakeInv(s: State, j: nat)
    requires Inv(s)
    ensures Inv(Step(s, Take(j)))
  {
    if j < |s.queues| && s.queues[j].items != [] {
      var q := s.queues[j];
      var q' := q.(items := q.items[1..]);
      var s1 := s.(queues := s.queues[j := q'], holds := s.holds[j := Has(q.items[0])]);
      assert QueueOk(q) && q'.items == [];
      QueueUpdate(s.queues, j, q');
      HoldUpdate(s.holds, j, Has(q.items[0]));
      assert s.holds[j].Has? ==> Live(s, s.holds[j].slot);
      assert forall i :: 0 <= i < |s.queues| ==> Fresh(s, i);
      forall y: Slot ensures Live(s1, y) ==> Live(s, y)
        ensures Live(s, y) && Has(y) != s.holds[j] ==> Live(s1, y)
      {
        assert Has(y) in s1.holds ==> Live(s, y);
      }
      CollectInv(s1, s.holds[j]);
    }
  }

  lemma DropInv(s: State, j: nat)
    requires Inv(s)
    ensures Inv(Step(s, Drop(j)))
  {
    if j < |s.holds| {
      var s1 := s.(holds := s.holds[j := Nothing]);
      HoldUpdate(s.holds, j, Nothing);
      assert s.holds[j].Has? ==> Live(s, s.holds[j].slot);
      assert forall i :: 0 <= i < |s.queues| ==> Fresh(s, i);
      forall y: Slot ensures Live(s1, y) ==> Live(s, y)
        ensures Live(s, y) && Has(y) != s.holds[j] ==> Live(s1, y)
      {
        assert Has(y) in s1.holds ==> Live(s, y);
      }
      CollectInv(s1, s.holds[j]);
    }
  }

  lemma InitInv(slots: nat, c: nat)
    ensures Inv(Init(slots, c))
  {
    var s := Init(slots, c);
    assert forall x: Slot :: x < slots ==> s.free[x] == x;
    forall x: Slot ensures !Live(s, x) {
      assert forall i :: 0 <= i < c ==> s.holds[i] != Has(x);
      assert forall j :: 0 <= j < c ==> x !in s.queues[j].items;
    }
    forall x: Slot ensures x < slots ==> x in s.free {
      assert x < slots ==> s.free[x] == x;
    }
  }

  ghost function Started(slots: nat, c: nat): (s: State)
    ensures Inv(s) && |s.queues| == c && s.slots == slots
  {
    InitInv(slots, c);
    Init(slots, c)
  }

  ghost function Execute(s: State, actions: seq<Action>): (r: State)
    requires Inv(s)
    ensures Inv(r) && |r.queues| == |s.queues| && r.slots == s.slots
    decreases |actions|
  {
    if actions == [] then s
    else
      var before := Execute(s, actions[..|actions| - 1]);
      StepInv(before, actions[|actions| - 1]);
      Step(before, actions[|actions| - 1])
  }

  ghost predicate Reachable(s: State) {
    exists slots: nat, c: nat, actions :: s == Execute(Started(slots, c), actions)
  }

  /** The free list and the slots of live frames partition the pool in every run. */
  lemma FreeAndLivePartition(s: State, x: Slot)
    requires Reachable(s)
    ensures x < s.slots ==> (x in s.free <==> !Live(s, x))
    ensures x in s.free || Live(s, x) ==> x < s.slots
    ensures NoDup(s.free)
  {
    assert Inv(s);
  }

  // ---------- How many slots can be out ----------

  function HeldSlots(holds: seq<Hold>): (r: set<Slot>)
    ensures forall x :: x in r <==> Has(x) in holds
    ensures |r| <= |holds|
  {
    if holds == [] then {}
    else HeldSlots(holds[1..]) + if holds[0].Has? then {holds[0].slot} else {}
  }

  // The first item of each queue, as a holder.
  function Fronts(queues: seq<SQ.Queue<Slot>>): (r: seq<Hold>)
    ensures |r| == |queues|
  {
    seq(|queues|, j requires 0 <= j < |queues| =>
      if queues[j].items == [] then Nothing else Has(queues[j].items[0]))
  }

  // Slots are free unless they are in `out`.
  lemma FreeCount(s: State, out: set<Slot>)
    requires Inv(s) && forall x: Slot :: Live(s, x) ==> x in out
    ensures s.slots - |out| <= |s.free|
  {
    DistinctSize(s.free);
    SubsetSize(Below(s.slots), Elements(s.free) + out);
    assert |Elements(s.free) + out| <= |s.free| + |out|;
  }

  /** While capture is about to acquire, at most two slots a queue are out: one in the queue and
      one with its consumer. */
  lemma AtMostTwoPerQueue(s: State)
    requires Reachable(s) && s.capture == Idle
    ensures s.slots - 2 * |s.queues| <= |s.free|
  {
    assert Inv(s);
    var held := s.holds + Fronts(s.queues);
    forall x: Slot | Live(s, x) ensures x in HeldSlots(held) {
      if InQueues(s.queues, x) {
        var j :| 0 <= j < |s.queues| && x in s.queues[j].items;
        assert QueueOk(s.queues[j]) && Fronts(s.queues)[j] == Has(x);
      }
      assert Has(x) in held;
    }
    FreeCount(s, HeldSlots(held));
  }

  function ClosedCount(queues: seq<SQ.Queue<Slot>>): nat {
    if queues == [] then 0 else (if queues[0].closed then 1 else 0) + ClosedCount(queues[1..])
  }

  // The first item of each closed queue, as a holder.
  function ClosedFronts(queues: seq<SQ.Queue<Slot>>): (r: seq<Hold>)
    ensures |r| == ClosedCount(queues)
    ensures forall j :: 0 <= j < |queues| && queues[j].closed && queues[j].items != [] ==> Has(queues[j].items[0]) in r
  {
    if queues == [] then []
    else
      var q, rest := queues[0], ClosedFronts(queues[1..]);
      if q.closed then [if q.items == [] then Nothing else Has(q.items[0])] + rest else rest
  }

  /** All open queues hold the same frame, so at most one slot more than there are consumers
      and closed queues is out. */
  lemma OneMoreThanConsumersAndClosed(s: State)
    requires Reachable(s) && s.capture == Idle
    ensures s.slots - (|s.queues| + 1 + ClosedCount(s.queues)) <= |s.free|
  {
    assert Inv(s);
    var held := s.holds + ([s.latest] + ClosedFronts(s.queues));
    forall x: Slot | Live(s, x) ensures x in HeldSlots(held) {
      if InQueues(s.queues, x) {
        QueuedIsLatestOrClosed(s, x);
      }
      assert Has(x) in held;
    }
    FreeCount(s, HeldSlots(held));
  }

  lemma QueuedIsLatestOrClosed(s: State, x: Slot)
    requires Inv(s) && s.capture == Idle && InQueues(s.queues, x)
    ensures Has(x) in [s.latest] + ClosedFronts(s.queues)
  {
    var j :| 0 <= j < |s.queues| && x in s.queues[j].items;
    assert QueueOk(s.queues[j]) && Fresh(s, j);
  }

  /** With six slots a camera with two queues never fails to acquire, and one with three queues
      does not while at most one of them is closed. */
  lemma SixSlotsSuffice(s: State)
    requires Reachable(s) && s.capture == Idle && s.slots == 6
    requires |s.queues| <= 2 || (|s.queues| == 3 && ClosedCount(s.queues) <= 1)
    ensures s.free != []
  {
    if |s.queues| <= 2 {
      AtMostTwoPerQueue(s);
    } else {
      OneMoreThanConsumersAndClosed(s);
    }
  }

  // ---------- Running dry ----------

  // What is in the queue is also held by a consumer or kept in another, closed queue.
  ghost predicate KeptElsewhere(s: State, y: Slot) {
    Has(y) in s.holds || exists j :: 0 <= j < |s.queues| && s.queues[j].closed && y in s.queues[j].items
  }

  ghost predicate DropsNothingFree(s: State, k: nat)
    requires k < |s.queues|
  {
    !s.queues[k].closed && s.queues[k].items != [] ==> KeptElsewhere(s, s.queues[k].items[0])
  }

  // One push after which no slot comes back.
  lemma QuietPush(s: State)
    requires s.capture.Pushing? && s.capture.k < |s.queues| && DropsNothingFree(s, s.capture.k)
    ensures Step(s, Push) == s.(queues := s.queues[s.capture.k := SQ.Pushed(s.queues[s.capture.k], s.capture.slot)],
                                capture := Pushing(s.capture.slot, s.capture.k + 1))
  {
    var k, q := s.capture.k, s.queues[s.capture.k];
    var s1 := s.(queues := s.queues[k := SQ.Pushed(q, s.capture.slot)], capture := Pushing(s.capture.slot, k + 1));
    if !q.closed && q.items != [] {
      var y := q.items[0];
      if Has(y) !in s.holds {
        var j :| 0 <= j < |s.queues| && s.queues[j].closed && y in s.queues[j].items;
        assert s1.queues[j] == s.queues[j];
      }
      assert Live(s1, y);
    }
  }

  // A push to one queue does not matter to what the next one drops.
  lemma NextStillKept(s: State, k: nat, q: SQ.Queue<Slot>, x: Slot, c: Capture)
    requires k + 1 < |s.queues| && DropsNothingFree(s, k + 1) && q == SQ.Pushed(s.queues[k], x)
    ensures DropsNothingFree(s.(queues := s.queues[k := q], capture := c), k + 1)
  {
    var p := s.(queues := s.queues[k := q], capture := c);
    var next := s.queues[k + 1];
    if !next.closed && next.items != [] && Has(next.items[0]) !in s.holds {
      var j :| 0 <= j < |s.queues| && s.queues[j].closed && next.items[0] in s.queues[j].items;
      assert p.queues[j] == s.queues[j];
    }
  }

  // A frame for a camera with three queues.
  function Frame(s: State): State {
    Step(Step(Step(Step(Step(s, Acquire), Push), Push), Push), Finish)
  }

  function AllPushed(queues: seq<SQ.Queue<Slot>>, x: Slot): seq<SQ.Queue<Slot>>
    requires |queues| == 3
  {
    [SQ.Pushed(queues[0], x), SQ.Pushed(queues[1], x), SQ.Pushed(queues[2], x)]
  }

  lemma QuietPushes(s: State)
    requires s.capture.Pushing? && s.capture.k == 0 && |s.queues| == 3
    requires DropsNothingFree(s, 0) && DropsNothingFree(s, 1) && DropsNothingFree(s, 2)
    ensures Step(Step(Step(s, Push), Push), Push) ==
            s.(capture := Pushing(s.capture.slot, 3), queues := AllPushed(s.queues, s.capture.slot))
  {
    var x := s.capture.slot;
    QuietPush(s);
    NextStillKept(s, 0, SQ.Pushed(s.queues[0], x), x, Pushing(x, 1));
    NextStillKept(s, 1, SQ.Pushed(s.queues[1], x), x, Pushing(x, 1));
    var s1 := Step(s, Push);
    TwoStillKept(s, x);
    QuietPush(s1);
    var s2 := Step(s1, Push);
    NextStillKept(s1, 1, SQ.Pushed(s1.queues[1], x), x, Pushing(x, 2));
    QuietPush(s2);
    assert Step(s2, Push).queues == AllPushed(s.queues, x);
  }

  lemma TwoStillKept(s: State, x: Slot)
    requires |s.queues| == 3 && DropsNothingFree(s, 2)
    ensures DropsNothingFree(s.(queues := s.queues[0 := SQ.Pushed(s.queues[0], x)], capture := Pushing(x, 1)), 2)
  {
    var p := s.(queues := s.queues[0 := SQ.Pushed(s.queues[0], x)], capture := Pushing(x, 1));
    var q := s.queues[2];
    if !q.closed && q.items != [] && Has(q.items[0]) !in s.holds {
      var j :| 0 <= j < |s.queues| && s.queues[j].closed && q.items[0] in s.queues[j].items;
      assert p.queues[j] == s.queues[j];
    }
  }

  ghost predicate Quiet(s: State) {
    |s.queues| == 3 && DropsNothingFree(s, 0) && DropsNothingFree(s, 1) && DropsNothingFree(s, 2)
  }

  lemma QuietHandOver(s: State, x: Slot)
    requires s.capture == Idle && s.free != [] && x == s.free[|s.free| - 1] && Quiet(s)
    ensures Step(Step(Step(Step(s, Acquire), Push), Push), Push) ==
            s.(free := s.free[..|s.free| - 1], capture := Pushing(x, 3), queues := AllPushed(s.queues, x))
  {
    var a := s.(free := s.free[..|s.free| - 1], capture := Pushing(x, 0));
    assert Step(s, Acquire) == a;
    QuietAcquire(s, a, 0);
    QuietAcquire(s, a, 1);
    QuietAcquire(s, a, 2);
    QuietPushes(a);
  }

  // Acquiring does not matter to what a queue drops.
  lemma QuietAcquire(s: State, a: State, j: nat)
    requires j < |s.queues| && DropsNothingFree(s, j) && a.queues == s.queues && a.holds == s.holds
    ensures DropsNothingFree(a, j)
  {
    assert forall y :: KeptElsewhere(s, y) ==> KeptElsewhere(a, y);
  }

  lemma PushedOne(q: SQ.Queue<Slot>, x: Slot)
    requires QueueOk(q) && !q.closed
    ensures SQ.Pushed(q, x) == SQ.Queue([x], 1, false)
  {
    assert SQ.Pushed(q, x).items == [x];
  }

  // A whole frame after which no slot comes back; the frame itself is in an open queue.
  lemma QuietFrame(s: State, open: nat)
    requires s.capture == Idle && s.free != [] && Quiet(s)
    requires open < 3 && !s.queues[open].closed && QueueOk(s.queues[open])
    ensures var x := s.free[|s.free| - 1];
            Frame(s) == s.(free := s.free[..|s.free| - 1], latest := Has(x), queues := AllPushed(s.queues, x))
  {
    var x := s.free[|s.free| - 1];
    var p := s.(free := s.free[..|s.free| - 1], capture := Pushing(x, 3), queues := AllPushed(s.queues, x));
    QuietHandOver(s, x);
    PushedOne(s.queues[open], x);
    QuietFinish(p, x, open);
    LastOfFrame(s, p);
  }

  lemma LastOfFrame(s: State, p: State)
    requires Step(Step(Step(Step(s, Acquire), Push), Push), Push) == p
    ensures Frame(s) == Step(p, Finish)
  {
  }

  // The frame just pushed is still in a queue, so its slot does not come back.
  lemma QuietFinish(p: State, x: Slot, open: nat)
    requires p.capture == Pushing(x, |p.queues|) && open < |p.queues| && p.queues[open].items == [x]
    ensures Step(p, Finish) == p.(capture := Idle, latest := Has(x))
  {
    var p' := p.(capture := Idle, latest := Has(x));
    assert x in p'.queues[open].items;
    assert Live(p', x);
  }

  // After n frames, the i-th of which consumer i took: the other queues hold the last one.
  function Taken(n: nat): State
    requires n <= 3
  {
    var q := [6 - n];
    State(6, [0, 1, 2, 3, 4, 5][..6 - n], Idle,
          [SQ.Queue(if n == 0 || n == 1 then [] else q, 1, false),
           SQ.Queue(if n == 0 || n == 2 then [] else q, 1, false),
           SQ.Queue(if n == 0 || n == 3 then [] else q, 1, false)],
          [if n > 0 then Has(5) else Nothing, if n > 1 then Has(4) else Nothing, if n > 2 then Has(3) else Nothing],
          if n == 0 then Nothing else Has(6 - n))
  }

  // ... and after one frame more, before anybody takes it.
  function Offered(n: nat): State
    requires n < 3
  {
    var q := SQ.Queue([5 - n], 1, false);
    State(6, [0, 1, 2, 3, 4, 5][..5 - n], Idle, [q, q, q], Taken(n).holds, Has(5 - n))
  }

  lemma TakenIsQuiet(n: nat)
    requires n <= 3
    ensures forall j :: 0 <= j < 3 ==> DropsNothingFree(Taken(n), j) && QueueOk(Taken(n).queues[j])
    ensures forall j :: 0 <= j < 3 ==> !Taken(n).queues[j].closed
  {
    var s := Taken(n);
    assert n > 0 ==> s.holds[n - 1] == Has(6 - n);
    assert n > 0 ==> KeptElsewhere(s, 6 - n);
  }

  lemma OfferOne(n: nat)
    requires n < 3
    ensures Frame(Taken(n)) == Offered(n)
  {
    var s := Taken(n);
    TakenIsQuiet(n);
    QuietFrame(s, 0);
    PushedAlone(s.queues, 5 - n);
    FreeAfter(n);
  }

  lemma FreeAfter(n: nat)
    requires n < 3
    ensures var free := Taken(n).free; free != [] && free[|free| - 1] == 5 - n && free[..|free| - 1] == Offered(n).free
  {
  }

  // Pushing to open queues of capacity one leaves only the new item.
  lemma PushedAlone(queues: seq<SQ.Queue<Slot>>, x: Slot)
    requires |queues| == 3 && forall j :: 0 <= j < 3 ==> QueueOk(queues[j]) && !queues[j].closed
    ensures var q := SQ.Queue([x], 1, false); AllPushed(queues, x) == [q, q, q]
  {
    PushedOne(queues[0], x);
    PushedOne(queues[1], x);
    PushedOne(queues[2], x);
  }

  lemma TakeOne(n: nat)
    requires n < 3
    ensures Step(Offered(n), Take(n)) == Taken(n + 1)
  {
    var s, t := Offered(n), Taken(n + 1);
    var q := s.queues[n].(items := s.queues[n].items[1..]);
    assert q.items == [];
    if n == 0 {
      assert s.queues[0 := q] == t.queues && s.holds[0 := Has(5)] == t.holds;
    } else if n == 1 {
      assert s.queues[1 := q] == t.queues && s.holds[1 := Has(4)] == t.holds;
    } else {
      assert s.queues[2 := q] == t.queues && s.holds[2 := Has(3)] == t.holds;
    }
  }

  // The last three frames: consumers hold 5, 4 and 3, and the first `closed` queues are closed.
  function Late(free: seq<Slot>, q0: Slot, q1: Slot, q2: Slot, closed: nat): State {
    State(6, free, Idle,
          [SQ.Queue([q0], 1, closed > 0), SQ.Queue([q1], 1, closed > 1), SQ.Queue([q2], 1, closed > 2)],
          [Has(5), Has(4), Has(3)], Has(q2))
  }

  lemma ThirdFrame()
    ensures Frame(Taken(3)) == Late([0, 1], 2, 2, 2, 0)
  {
    var s := Taken(3);
    assert s.free == [0, 1, 2];
    TakenIsQuiet(3);
    QuietFrame(s, 0);
    assert s.free[..2] == [0, 1];
    PushedAlone(s.queues, 2);
  }

  lemma FirstClose()
    ensures Step(Late([0, 1], 2, 2, 2, 0), Close(0)) == Late([0, 1], 2, 2, 2, 1)
  {
  }

  lemma SecondClose()
    ensures Step(Frame(Late([0, 1], 2, 2, 2, 1)), Close(1)) == Late([0], 2, 1, 1, 2)
  {
    var s := Late([0, 1], 2, 2, 2, 1);
    assert s.queues[0].closed && 2 in s.queues[0].items;
    QuietFrame(s, 1);
    assert Frame(s).free == [0];
  }

  lemma LastFrame()
    ensures Frame(Late([0], 2, 1, 1, 2)) == Late([], 2, 1, 0, 2)
  {
    var s := Late([0], 2, 1, 1, 2);
    assert s.queues[1].closed && 1 in s.queues[1].items;
    QuietFrame(s, 2);
    assert Frame(s).free == [];
  }

  lemma ReachableStep(s: State, a: Action)
    requires Reachable(s)
    ensures Reachable(Step(s, a))
  {
    var slots: nat, c: nat, actions :| s == Execute(Started(slots, c), actions);
    var more := actions + [a];
    assert more[..|more| - 1] == actions;
    assert Step(s, a) == Execute(Started(slots, c), more);
  }

  lemma ReachableFrame(s: State)
    requires Reachable(s)
    ensures Reachable(Frame(s))
  {
    ReachableStep(s, Acquire);
    ReachableStep(Step(s, Acquire), Push);
    ReachableStep(Step(Step(s, Acquire), Push), Push);
    ReachableStep(Step(Step(Step(s, Acquire), Push), Push), Push);
    ReachableStep(Step(Step(Step(Step(s, Acquire), Push), Push), Push), Finish);
  }

  lemma ReachableFrameStep(s: State, a: Action)
    requires Reachable(s)
    ensures Reachable(Step(Frame(s), a))
  {
    ReachableFrame(s);
    ReachableStep(Frame(s), a);
  }

  lemma StartIsTaken()
    ensures Reachable(Taken(0))
  {
    assert Upto(6) == [0, 1, 2, 3, 4, 5];
    assert Init(6, 3).queues == Taken(0).queues && Init(6, 3).holds == Taken(0).holds;
    assert Taken(0) == Execute(Started(6, 3), []);
  }

  // A camera with six slots and three queues, `closed` of them closed, that cannot acquire.
  ghost predicate DryWith(s: State, closed: nat) {
    && Reachable(s) && s.slots == 6 && |s.queues| == 3 && ClosedCount(s.queues) == closed
    && s.capture == Idle && s.free == []
  }

  // Two queues are closed in turn with a frame in each: three different frames are with the
  // consumers and three in the queues.
  lemma TwoClosedRunDry()
    ensures DryWith(Late([], 2, 1, 0, 2), 2)
  {
    StartIsTaken();
    for n := 0 to 3
      invariant Reachable(Taken(n))
    {
      ReachableFrameStep(Taken(n), Take(n));
      OfferOne(n);
      TakeOne(n);
    }
    ReachableFrameStep(Taken(3), Close(0));
    ThirdFrame();
    FirstClose();
    ReachableFrameStep(Late([0, 1], 2, 2, 2, 1), Close(1));
    SecondClose();
    ReachableFrame(Late([0], 2, 1, 1, 2));
    LastFrame();
    LateClosed([], 2, 1, 0, 2);
  }

  lemma ThreeClosedRunDry()
    ensures DryWith(Late([], 2, 1, 0, 3), 3)
  {
    TwoClosedRunDry();
    ReachableStep(Late([], 2, 1, 0, 2), Close(2));
    assert Step(Late([], 2, 1, 0, 2), Close(2)) == Late([], 2, 1, 0, 3);
    LateClosed([], 2, 1, 0, 3);
  }

  lemma LateClosed(free: seq<Slot>, q0: Slot, q1: Slot, q2: Slot, closed: nat)
    requires closed <= 3
    ensures ClosedCount(Late(free, q0, q1, q2, closed).queues) == closed
  {
    var qs := Late(free, q0, q1, q2, closed).queues;
    assert ClosedCount(qs) == (if qs[0].closed then 1 else 0) + ClosedCount(qs[1..]);
    assert ClosedCount(qs[1..]) == (if qs[1].closed then 1 else 0) + ClosedCount(qs[2..]);
    assert ClosedCount(qs[2..]) == (if qs[2].closed then 1 else 0) + ClosedCount(qs[3..]);
  }

  lemma DryState(closed: nat) returns (s: State)
    requires closed == 2 || closed == 3
    ensures DryWith(s, closed)
  {
    if closed == 2 {
      TwoClosedRunDry();
      s := Late([], 2, 1, 0, 2);
    } else {
      ThreeClosedRunDry();
      s := Late([], 2, 1, 0, 3);
    }
  }

  lemma NeverDry(s: State, closed: nat)
    requires closed < 2
    ensures !DryWith(s, closed)
  {
    if DryWith(s, closed) {
      SixSlotsSuffice(s);
    }
  }

  /** If frames went on being captured after closes, a camera that feeds three queues could run
      dry of its six slots exactly when at least two of them are closed. */
  lemma RunsDryIffTwoClosed(closed: nat)
    requires closed <= 3
    ensures (exists s: State :: DryWith(s, closed)) <==> closed >= 2
  {
    if closed < 2 {
      forall s: State ensures !DryWith(s, closed) {
        NeverDry(s, closed);
      }
    } else {
      var s := DryState(closed);
    }
  }

  // ---------- The order of shutdown ----------

  // Where the capture thread is: about to test the stop flags, past the test, handing a frame
  // over, gone.
  datatype Phase = Top | Ready | Busy | Exited

  datatype Camera = Camera(pool: State, phase: Phase, stopping: bool)

  // Capture: test the flags, give the turn up (no usable sample), leave the loop, acquire, push,
  // finish. Shutdown: raise the flags, then close queues. Consumers: take, drop.
  datatype Event =
    | TestStop | GiveUp | Leave | TryAcquire | Deliver | Release
    | RequestStop | CloseQueue(j: nat) | Consume(j: nat) | Forget(j: nat)

  function Next(c: Camera, e: Event): Camera {
    match e
    case TestStop => if c.phase == Top then c.(phase := if c.stopping then Exited else Ready) else c
    case GiveUp => if c.phase == Ready then c.(phase := Top) else c
    case Leave => if c.phase == Ready then c.(phase := Exited) else c
    case TryAcquire =>
      if c.phase != Ready then c
      else if c.pool.free == [] then c.(phase := Top)
      else c.(pool := Step(c.pool, Acquire), phase := Busy)
    case Deliver => if c.phase == Busy then c.(pool := Step(c.pool, Push)) else c
    case Release =>
      if c.phase == Busy && c.pool.capture.Pushing? && c.pool.capture.k == |c.pool.queues| then
        c.(pool := Step(c.pool, Finish), phase := Top)
      else c
    case RequestStop => c.(stopping := true)
    case CloseQueue(j) => if c.stopping then c.(pool := Step(c.pool, Close(j))) else c
    case Consume(j) => c.(pool := Step(c.pool, Take(j)))
    case Forget(j) => c.(pool := Step(c.pool, Drop(j)))
  }

  ghost predicate AllOpen(s: State) {
    forall j :: 0 <= j < |s.queues| ==> !s.queues[j].closed
  }

  // Whatever is queued, in open queues or closed ones, is the last completed frame.
  ghost predicate OnlyLatest(s: State) {
    forall j :: 0 <= j < |s.queues| && s.queues[j].items != [] ==> Has(s.queues[j].items[0]) == s.latest
  }

  ghost predicate CameraInv(c: Camera) {
    && Inv(c.pool)
    && (c.phase == Busy <==> c.pool.capture.Pushing?)
    && (!c.stopping ==> AllOpen(c.pool))
    && (c.phase == Ready ==> OnlyLatest(c.pool))
  }

  // Steps other than a push leave the flags of the queues, or close one, and only take items out.
  lemma QuietSteps(s: State, a: Action)
    requires Inv(s) && !a.Push?
    ensures var s' := Step(s, a);
      && (!a.Finish? ==> s'.latest == s.latest && (OnlyLatest(s) ==> OnlyLatest(s')))
      && (!a.Close? ==> (AllOpen(s) ==> AllOpen(s')))
      && (a.Take? || a.Drop? || a.Close? ==> s'.capture == s.capture)
  {
    var s' := Step(s, a);
    if a.Take? && a.j < |s.queues| && s.queues[a.j].items != [] {
      assert QueueOk(s.queues[a.j]);
      assert s'.queues[a.j].items == [];
    }
  }

  lemma PushKeepsOpen(s: State)
    requires Inv(s)
    ensures var s' := Step(s, Push); (AllOpen(s) ==> AllOpen(s')) && s'.capture.Pushing? == s.capture.Pushing?
  {
  }

  lemma NextInv(c: Camera, e: Event)
    requires CameraInv(c)
    ensures CameraInv(Next(c, e))
    ensures |Next(c, e).pool.queues| == |c.pool.queues| && Next(c, e).pool.slots == c.pool.slots
  {
    match e
    case TestStop =>
      forall j | 0 <= j < |c.pool.queues| && c.phase == Top && !c.stopping && c.pool.queues[j].items != []
        ensures Has(c.pool.queues[j].items[0]) == c.pool.latest
      {
        assert Fresh(c.pool, j);
      }
    case GiveUp =>
    case Leave =>
    case TryAcquire => StepInv(c.pool, Acquire); QuietSteps(c.pool, Acquire);
    case Deliver => StepInv(c.pool, Push); PushKeepsOpen(c.pool);
    case Release => StepInv(c.pool, Finish); QuietSteps(c.pool, Finish);
    case RequestStop =>
    case CloseQueue(j) => StepInv(c.pool, Close(j)); QuietSteps(c.pool, Close(j));
    case Consume(j) => StepInv(c.pool, Take(j)); QuietSteps(c.pool, Take(j));
    case Forget(j) => StepInv(c.pool, Drop(j)); QuietSteps(c.pool, Drop(j));
  }

  ghost function CameraRun(slots: nat, queues: nat, events: seq<Event>): (c: Camera)
    ensures CameraInv(c) && |c.pool.queues| == queues && c.pool.slots == slots
    decreases |events|
  {
    if events == [] then Camera(Started(slots, queues), Top, false)
    else
      var before := CameraRun(slots, queues, events[..|events| - 1]);
      NextInv(before, events[|events| - 1]);
      Next(before, events[|events| - 1])
  }

  /** In the code's order the queues are closed only after the stop flags are raised, and capture
      tests those flags every turn. So in every run, during shutdown too, an acquire finds a
      slot whenever there are two slots more than queues: six are enough for cameras with up to
      four, camera 1 among them. */
  lemma AcquireNeverFails(slots: nat, queues: nat, events: seq<Event>)
    requires queues + 2 <= slots
    ensures var c := CameraRun(slots, queues, events);
            c.phase == Ready ==> c.pool.free != [] && Next(c, TryAcquire).phase == Busy
  {
    var c := CameraRun(slots, queues, events);
    if c.phase == Ready {
      OutWhenOnlyLatest(c.pool);
    }
  }

  lemma OutWhenOnlyLatest(s: State)
    requires Inv(s) && s.capture == Idle && OnlyLatest(s)
    ensures s.slots - (|s.queues| + 1) <= |s.free|
  {
    var held := s.holds + [s.latest];
    forall x: Slot | Live(s, x) ensures x in HeldSlots(held) {
      if InQueues(s.queues, x) {
        QueuedIsLatest(s, x);
      }
      assert Has(x) in held;
    }
    FreeCount(s, HeldSlots(held));
  }

  lemma QueuedIsLatest(s: State, x: Slot)
    requires Inv(s) && OnlyLatest(s) && InQueues(s.queues, x)
    ensures s.latest == Has(x)
  {
    var j :| 0 <= j < |s.queues| && x in s.queues[j].items;
    assert QueueOk(s.queues[j]);
  }

  // ---------- What a frame reaches ----------

  // The state after n pushes in a row.
  function Pushes(s: State, n: nat): State {
    if n == 0 then s else Step(Pushes(s, n - 1), Push)
  }

  // Queue j of s' holds frame x alone if it is open, and what it held in s otherwise.
  predicate Reached(s: State, s': State, j: nat, x: Slot)
    requires j < |s.queues| == |s'.queues|
  {
    s'.queues[j] == if s.queues[j].closed then s.queues[j] else SQ.Queue([x], 1, false)
  }

  ghost predicate ReachedUpto(s: State, s': State, n: nat, x: Slot) {
    && |s'.queues| == |s.queues| && n <= |s.queues|
    && (forall j :: 0 <= j < n ==> Reached(s, s', j, x))
    && (forall j :: n <= j < |s.queues| ==> s'.queues[j] == s.queues[j])
    && s'.holds == s.holds && s'.latest == s.latest
  }

  lemma {:induction false} PushesInv(s: State, n: nat)
    requires Inv(s)
    ensures Inv(Pushes(s, n))
  {
    if n > 0 {
      PushesInv(s, n - 1);
      StepInv(Pushes(s, n - 1), Push);
    }
  }

  lemma {:induction false} PushesReach(s: State, x: Slot, n: nat)
    requires forall j :: 0 <= j < |s.queues| ==> QueueOk(s.queues[j])
    requires s.capture == Pushing(x, 0) && n <= |s.queues|
    ensures Pushes(s, n).capture == Pushing(x, n) && ReachedUpto(s, Pushes(s, n), n, x)
  {
    if n > 0 {
      PushesReach(s, x, n - 1);
      var before := Pushes(s, n - 1);
      assert before.queues[n - 1] == s.queues[n - 1];
      OnePush(before, x, n - 1);
      OneMoreReached(s, before, Step(before, Push), x, n - 1);
    }
  }

  lemma OneMoreReached(s: State, s': State, r: State, x: Slot, k: nat)
    requires ReachedUpto(s, s', k, x) && k < |s.queues| && |r.queues| == |s.queues|
    requires r.queues == s'.queues[k := r.queues[k]] && r.holds == s'.holds && r.latest == s'.latest
    requires Reached(s', r, k, x)
    ensures ReachedUpto(s, r, k + 1, x)
  {
    forall j | 0 <= j < k + 1 ensures Reached(s, r, j, x) {
      assert j < k ==> Reached(s, s', j, x);
    }
  }

  lemma OnePush(s: State, x: Slot, k: nat)
    requires s.capture == Pushing(x, k) && k < |s.queues| && QueueOk(s.queues[k])
    ensures var r := Step(s, Push);
      && r.capture == Pushing(x, k + 1) && r.queues == s.queues[k := r.queues[k]] && r.holds == s.holds
      && r.latest == s.latest && Reached(s, r, k, x)
  {
    if !s.queues[k].closed {
      PushedOne(s.queues[k], x);
    }
  }

  /** A frame that the capture thread hands over while the consumers stand still, whatever they
      hold, is the only one in every open queue afterwards; closed queues and the consumers keep
      what they had. */
  lemma FrameReachesAll(s: State)
    requires Inv(s) && s.capture == Idle && s.free != []
    ensures var x, r := s.free[|s.free| - 1], Step(Pushes(Step(s, Acquire), |s.queues|), Finish);
      && Inv(r) && r.capture == Idle && r.latest == Has(x) && r.holds == s.holds && |r.queues| == |s.queues|
      && forall j :: 0 <= j < |s.queues| ==> Reached(s, r, j, x)
  {
    var x, a := s.free[|s.free| - 1], Step(s, Acquire);
    StepInv(s, Acquire);
    PushesInv(a, |s.queues|);
    PushesReach(a, x, |s.queues|);
    StepInv(Pushes(a, |s.queues|), Finish);
    forall j | 0 <= j < |s.queues| ensures Reached(s, Step(Pushes(a, |s.queues|), Finish), j, x) {
      assert Reached(a, Pushes(a, |s.queues|), j, x);
    }
  }

  /** A consumer on its own gets the oldest frame of its queue, and when it forgets the frame its
      slot is free again exactly if nobody else refers to it. */
  lemma LoneConsumer(s: State, j: nat)
    requires Inv(s) && j < |s.queues| && s.queues[j].items != []
    ensures var x, t := s.queues[j].items[0], Step(s, Take(j));
            var r := Step(t, Drop(j));
      && t.holds == s.holds[j := Has(x)] && r.holds == s.holds[j := Nothing]
      && r.queues == t.queues == s.queues[j := s.queues[j].(items := [])] && r.capture == s.capture
      && (x in r.free <==> !Live(r, x))
  {
    var x, t := s.queues[j].items[0], Step(s, Take(j));
    assert QueueOk(s.queues[j]);
    assert s.queues[j].items[1..] == [];
    assert InQueues(s.queues, x);
    assert Live(s, x);
    StepInv(s, Take(j));
    StepInv(t, Drop(j));
    assert s.holds[j := Has(x)][j := Nothing] == s.holds[j := Nothing];
  }

  // One turn of the capture thread: the test, the acquisition, a push for each queue, the end.
  function Deliveries(c: Camera, n: nat): Camera {
    if n == 0 then c else Next(Deliveries(c, n - 1), Deliver)
  }

  function Turn(c: Camera): Camera {
    Next(Deliveries(Next(Next(c, TestStop), TryAcquire), |c.pool.queues|), Release)
  }

  lemma {:induction false} DeliveriesPush(c: Camera, n: nat)
    requires c.phase == Busy
    ensures Deliveries(c, n) == c.(pool := Pushes(c.pool, n))
  {
    if n > 0 {
      DeliveriesPush(c, n - 1);
    }
  }

  /** A turn of capture on its own ends the thread if a stop was requested, and otherwise hands a
      frame over to every open queue and is ready for the next turn. */
  lemma LoneTurn(c: Camera)
    requires CameraInv(c) && c.phase == Top && c.pool.free != []
    ensures c.stopping ==> Turn(c) == c.(phase := Exited)
    ensures !c.stopping ==>
              var x, r := c.pool.free[|c.pool.free| - 1], Turn(c);
              && CameraInv(r) && r.phase == Top && !r.stopping && r.pool.capture == Idle && r.pool.latest == Has(x)
              && |r.pool.queues| == |c.pool.queues| && r.pool.holds == c.pool.holds
              && forall j :: 0 <= j < |c.pool.queues| ==> Reached(c.pool, r.pool, j, x)
  {
    var n := |c.pool.queues|;
    var c1 := Next(Next(c, TestStop), TryAcquire);
    if c.stopping {
      ExitedStays(c1, n);
    } else {
      DeliveriesPush(c1, n);
      FrameReachesAll(c.pool);
      StepInv(c.pool, Acquire);
      PushesReach(c1.pool, c.pool.free[|c.pool.free| - 1], n);
      TurnInv(c);
    }
  }

  lemma {:induction false} ExitedStays(c: Camera, n: nat)
    requires c.phase == Exited
    ensures Deliveries(c, n) == c
  {
    if n > 0 {
      ExitedStays(c, n - 1);
    }
  }

  lemma TurnInv(c: Camera)
    requires CameraInv(c)
    ensures CameraInv(Turn(c))
  {
    NextInv(c, TestStop);
    NextInv(Next(c, TestStop), TryAcquire);
    DeliveriesInv(Next(Next(c, TestStop), TryAcquire), |c.pool.queues|);
    NextInv(Deliveries(Next(Next(c, TestStop), TryAcquire), |c.pool.queues|), Release);
  }

  lemma {:induction false} DeliveriesInv(c: Camera, n: nat)
    requires CameraInv(c)
    ensures CameraInv(Deliveries(c, n))
  {
    if n > 0 {
      DeliveriesInv(c, n - 1);
      NextInv(Deliveries(c, n - 1), Deliver);
    }
  }

  /** A turn that gives up, for want of a sample or of a slot, changes nothing; one that fails ends
      the thread. */
  lemma TurnWithoutFrame(c: Camera)
    requires c.phase == Top && !c.stopping
    ensures Next(Next(c, TestStop), GiveUp) == c
    ensures c.pool.free == [] ==> Next(Next(c, TestStop), TryAcquire) == c
    ensures Next(Next(c, TestStop), Leave) == c.(phase := Exited)
  {
  }

  /** Queues are closed after a stop request and not before; a closed one keeps its frame, which its
      consumer still gets, in every phase of capture; and the next turn of capture is its last. */
  lemma Shutdown(c: Camera, j: nat)
    requires CameraInv(c) && j < |c.pool.queues|
    ensures var q := c.pool.queues[j];
            var closed := Next(Next(c, RequestStop), CloseQueue(j));
      && closed == c.(stopping := true, pool := c.pool.(queues := c.pool.queues[j := q.(closed := true)]))
      && (c.phase == Top ==> Turn(closed) == closed.(phase := Exited))
      && (!c.stopping ==> Next(c, CloseQueue(j)) == c)
      && (q.items != [] ==> Gets(closed, j, q.items[0]))
  {
    var closed := Next(Next(c, RequestStop), CloseQueue(j));
    NextInv(c, RequestStop);
    NextInv(Next(c, RequestStop), CloseQueue(j));
    if c.phase == Top {
      ExitedStays(Next(Next(closed, TestStop), TryAcquire), |closed.pool.queues|);
    }
    if c.pool.queues[j].items != [] {
      ConsumerGets(closed, j);
    }
  }

  // Consumer j of the camera gets frame x from its queue, and holds nothing when it forgets it.
  ghost predicate Gets(c: Camera, j: nat, x: Slot)
    requires j < |c.pool.queues| == |c.pool.holds|
  {
    var t := Next(c, Consume(j));
    var r := Next(t, Forget(j));
    && t.pool.holds == c.pool.holds[j := Has(x)] && r.pool.holds == c.pool.holds[j := Nothing]
    && r.pool.queues == c.pool.queues[j := c.pool.queues[j].(items := [])]
    && r.pool.capture == c.pool.capture && r.phase == c.phase && r.stopping == c.stopping
  }

  lemma ConsumerGets(c: Camera, j: nat)
    requires CameraInv(c) && j < |c.pool.queues| && c.pool.queues[j].items != []
    ensures Gets(c, j, c.pool.queues[j].items[0])
  {
    LoneConsumer(c.pool, j);
  }
}
