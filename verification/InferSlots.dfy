/** Ownership of the inference slots: the apply thread acquires a free slot, may fail in the
    copy or the event record, and hands the slot to the worker through a drop-oldest queue
    whose capacity equals the pool size. */
module InferSlots {
  import SQ = StageQueue
  import opened Counting

  type Slot = nat

  datatype Apply = Resting | Scanning(i: nat) | Copying(slot: Slot) | Recording(slot: Slot) | Handing(slot: Slot)
                 | Releasing(slot: Slot)
  datatype Worker = LoopTop | Popping | Holding(slot: Slot) | Exited

  datatype State = State(busy: seq<bool>, queue: SQ.Queue<Slot>, apply: Apply, worker: Worker, running: bool)

  // `ok` is the result of a CUDA call.
  datatype Action = StartScan | RunApply(ok: bool) | RunWorker(ok: bool) | Close | Stop

  function Step(s: State, a: Action): State {
    match a
    case StartScan => if s.apply == Resting then s.(apply := Scanning(0)) else s
    case Close => s.(queue := s.queue.(closed := true))
    case Stop => s.(running := false)
    case RunApply(ok) => StepApply(s, ok)
    case RunWorker(ok) => StepWorker(s, ok)
  }

  function StepApply(s: State, ok: bool): State {
    match s.apply
    case Resting => s
    case Scanning(i) =>
      if i >= |s.busy| then s.(apply := Resting)
      else if s.busy[i] then s.(apply := Scanning(i + 1))
      else s.(busy := s.busy[i := true], apply := Copying(i))
    case Copying(slot) => s.(apply := if ok then Recording(slot) else Releasing(slot))
    case Recording(slot) => s.(apply := if ok then Handing(slot) else Releasing(slot))
    case Handing(slot) =>
      s.(queue := SQ.Pushed(s.queue, slot), apply := if s.queue.closed then Releasing(slot) else Resting)
    case Releasing(slot) =>
      s.(busy := if slot < |s.busy| then s.busy[slot := false] else s.busy, apply := Resting)
  }

  function StepWorker(s: State, ok: bool): State {
    match s.worker
    case Exited => s
    case LoopTop => s.(worker := if s.running then Popping else Exited)
    case Popping =>
      (match SQ.Front(s.queue.items)
       case (Just(slot), rest) =>
         s.(queue := s.queue.(items := rest), worker := if slot < |s.busy| then Holding(slot) else LoopTop)
       case (Nothing, _) =>
         // The condition wait goes on unless the queue is closed.
         if s.queue.closed then s.(worker := Exited) else s)
    case Holding(slot) =>
      // Whether the event wait succeeded or not, the slot is released.
      s.(busy := if slot < |s.busy| then s.busy[slot := false] else s.busy, worker := LoopTop)
  }

  function Init(pool: nat): State
  {
    State(seq(pool, _ => false), SQ.Queue([], pool, false), Resting, LoopTop, true)
  }

  predicate AppliesTo(a: Apply, slot: Slot) {
    match a
    case Resting => false
    case Scanning(_) => false
    case Copying(s) => s == slot
    case Recording(s) => s == slot
    case Handing(s) => s == slot
    case Releasing(s) => s == slot
  }

  // The slot is in at most one of the three places.
  ghost predicate Once(s: State, slot: Slot) {
    && !(AppliesTo(s.apply, slot) && slot in s.queue.items)
    && !(AppliesTo(s.apply, slot) && s.worker == Holding(slot))
    && !(slot in s.queue.items && s.worker == Holding(slot))
  }

  ghost predicate Owned(s: State, slot: Slot) {
    AppliesTo(s.apply, slot) || slot in s.queue.items || s.worker == Holding(slot)
  }

  ghost predicate Inv(s: State) {
    && s.queue.max == |s.busy| && 0 < |s.busy|
    && NoDup(s.queue.items)
    && (forall slot :: 0 <= slot < |s.busy| ==> (s.busy[slot] <==> Owned(s, slot)) && Once(s, slot))
    && (forall slot: Slot :: Owned(s, slot) ==> slot < |s.busy|)
  }

  // The queued slots are distinct and leave out the one in the apply thread's hands.
  lemma RoomForOwned(s: State, slot: Slot)
    requires Inv(s) && AppliesTo(s.apply, slot)
    ensures |s.queue.items| < s.queue.max
  {
    assert Owned(s, slot) && Once(s, slot);
    forall i | 0 <= i < |s.queue.items| ensures s.queue.items[i] < |s.busy| && s.queue.items[i] != slot {
      assert s.queue.items[i] in s.queue.items && Owned(s, s.queue.items[i]);
    }
    Pigeonhole(s.queue.items, |s.busy|, slot);
  }

  lemma StepInv(s: State, a: Action)
    requires Inv(s)
    ensures Inv(Step(s, a)) && |Step(s, a).busy| == |s.busy|
  {
    match a
    case RunApply(ok) =>
      if s.apply.Handing? {
        RoomForOwned(s, s.apply.slot);
      }
      ApplyInv(s, ok);
    case RunWorker(ok) => WorkerInv(s, ok);
    case _ =>
      assert forall slot: Slot :: Owned(Step(s, a), slot) ==> Owned(s, slot);
      assert forall slot: Slot :: 0 <= slot < |s.busy| && Owned(s, slot) ==> Owned(Step(s, a), slot);
  }

  lemma ApplyInv(s: State, ok: bool)
    requires Inv(s) && (s.apply.Handing? ==> |s.queue.items| < s.queue.max)
    ensures Inv(StepApply(s, ok)) && |StepApply(s, ok).busy| == |s.busy|
  {
    var s' := StepApply(s, ok);
    if s.apply.Handing? {
      assert Owned(s, s.apply.slot) && Once(s, s.apply.slot);
    } else if s.apply.Releasing? {
      assert Owned(s, s.apply.slot) && Once(s, s.apply.slot);
    }
    forall slot: Slot | Owned(s', slot) ensures slot < |s'.busy| {
      assert Owned(s, slot) || (s.apply.Scanning? && slot == s.apply.i);
    }
    forall slot | 0 <= slot < |s'.busy| ensures (s'.busy[slot] <==> Owned(s', slot)) && Once(s', slot) {
      assert (s.busy[slot] <==> Owned(s, slot)) && Once(s, slot);
    }
  }

  lemma WorkerInv(s: State, ok: bool)
    requires Inv(s)
    ensures Inv(StepWorker(s, ok)) && |StepWorker(s, ok).busy| == |s.busy|
  {
    var s' := StepWorker(s, ok);
    if s.worker == Popping && s.queue.items != [] {
      assert s.queue.items == [s.queue.items[0]] + s.queue.items[1..];
      assert Owned(s, s.queue.items[0]) && Once(s, s.queue.items[0]);
    }
    forall slot: Slot | Owned(s', slot) ensures slot < |s'.busy| {
      assert Owned(s, slot);
    }
    forall slot | 0 <= slot < |s'.busy| ensures (s'.busy[slot] <==> Owned(s', slot)) && Once(s', slot) {
      assert (s.busy[slot] <==> Owned(s, slot)) && Once(s, slot);
    }
  }

  ghost function Execute(s: State, actions: seq<Action>): (r: State)
    requires Inv(s)
    ensures Inv(r) && |r.busy| == |s.busy|
    decreases |actions|
  {
    if actions == [] then s
    else
      var before := Execute(s, actions[..|actions| - 1]);
      StepInv(before, actions[|actions| - 1]);
      Step(before, actions[|actions| - 1])
  }

  ghost predicate Reachable(s: State) {
    exists pool: nat, actions :: 0 < pool && s == Execute(Init(pool), actions)
  }

  /** In every reachable state, through CUDA errors and close, a slot is busy exactly when it
      is in exactly one of: the apply thread's hands, the queue (once), the worker's hands. */
  lemma BusyIffOwnedOnce(s: State, slot: Slot)
    requires Reachable(s) && slot < |s.busy|
    ensures s.busy[slot] <==> Owned(s, slot)
    ensures Once(s, slot) && NoDup(s.queue.items)
  {
    assert Inv(s);
  }

  /** The drop-oldest queue never drops a job: a push finds room or finds the queue closed, and
      then the slot is released. */
  lemma NoJobDropped(s: State, ok: bool)
    requires Reachable(s) && s.apply.Handing?
    ensures |s.queue.items| < s.queue.max
    ensures StepApply(s, ok).queue.items
         == if s.queue.closed then s.queue.items else s.queue.items + [s.apply.slot]
  {
    RoomForOwned(s, s.apply.slot);
  }

  /** No slot leaks: with the apply thread resting, the worker idle and the queue empty, every
      slot is free again. */
  lemma NoSlotLeaks(s: State)
    requires Reachable(s) && s.apply == Resting && !s.worker.Holding? && s.queue.items == []
    ensures forall slot :: 0 <= slot < |s.busy| ==> !s.busy[slot]
  {
    assert Inv(s);
  }

  // ---------- What a thread does alone ----------

  function Perform(s: State, actions: seq<Action>): State
    decreases |actions|
  {
    if actions == [] then s else Perform(Step(s, actions[0]), actions[1..])
  }

  lemma PerformFirst(s: State, a: Action, rest: seq<Action>)
    ensures Perform(s, [a] + rest) == Perform(Step(s, a), rest)
  {
    assert ([a] + rest)[1..] == rest;
  }

  // n steps of the apply thread.
  function Turns(n: nat): (r: seq<Action>)
    ensures |r| == n
  {
    seq(n, _ => RunApply(true))
  }

  lemma FirstTurn(s: State, n: nat, rest: seq<Action>)
    requires 0 < n
    ensures Perform(s, Turns(n) + rest) == Perform(StepApply(s, true), Turns(n - 1) + rest)
  {
    assert Turns(n) + rest == [RunApply(true)] + (Turns(n - 1) + rest);
    PerformFirst(s, RunApply(true), Turns(n - 1) + rest);
  }

  lemma NoTurn(s: State, rest: seq<Action>)
    ensures Perform(s, Turns(0) + rest) == Perform(s, rest)
  {
    assert Turns(0) + rest == rest;
  }

  // From slot k on the scan takes the first free one, slot i.
  lemma {:induction false} ScanFinds(s: State, k: nat, i: nat, rest: seq<Action>)
    requires s.apply == Scanning(k) && k <= i < |s.busy| && !s.busy[i] && forall j :: k <= j < i ==> s.busy[j]
    ensures Perform(s, Turns(i - k + 1) + rest) == Perform(s.(busy := s.busy[i := true], apply := Copying(i)), rest)
    decreases i - k
  {
    FirstTurn(s, i - k + 1, rest);
    if k == i {
      NoTurn(StepApply(s, true), rest);
    } else {
      ScanFinds(StepApply(s, true), k + 1, i, rest);
    }
  }

  lemma {:induction false} ScanFindsNone(s: State, k: nat, rest: seq<Action>)
    requires s.apply == Scanning(k) && k <= |s.busy| && forall j :: k <= j < |s.busy| ==> s.busy[j]
    ensures Perform(s, Turns(|s.busy| - k + 1) + rest) == Perform(s.(apply := Resting), rest)
    decreases |s.busy| - k
  {
    FirstTurn(s, |s.busy| - k + 1, rest);
    if k == |s.busy| {
      NoTurn(StepApply(s, true), rest);
    } else {
      ScanFindsNone(StepApply(s, true), k + 1, rest);
    }
  }

  // A frame offered for inference when slot i is the first free one; a hand-over that fails
  // takes one step more.
  function Offer(i: nat, copied: bool, recorded: bool): seq<Action> {
    [StartScan] + (Turns(i + 1) + ([RunApply(copied)] + ([RunApply(recorded)] + ([RunApply(true)] + ([RunApply(true)] + [])))))
  }

  /** The apply thread on its own takes the first free slot and queues it as the newest job when
      the copy and the record succeed and the queue is open; in every other case the slot is
      free again at the end and nothing has changed. */
  lemma LoneApply(s: State, i: nat, copied: bool, recorded: bool)
    requires Inv(s) && s.apply == Resting
    requires i < |s.busy| && !s.busy[i] && forall j :: 0 <= j < i ==> s.busy[j]
    ensures Perform(s, Offer(i, copied, recorded)) ==
            if copied && recorded && !s.queue.closed then
              s.(busy := s.busy[i := true], queue := s.queue.(items := s.queue.items + [i]))
            else s
  {
    var end := [RunApply(copied)] + ([RunApply(recorded)] + ([RunApply(true)] + ([RunApply(true)] + [])));
    var got := s.(busy := s.busy[i := true], apply := Copying(i));
    PerformFirst(s, StartScan, Turns(i + 1) + end);
    ScanFinds(Step(s, StartScan), 0, i, end);
    TakenInv(s, i);
    RoomForOwned(got, i);
    HandsOver(got, i, copied, recorded);
    assert s.busy[i := true][i := false] == s.busy;
  }

  lemma TakenInv(s: State, i: nat)
    requires Inv(s) && s.apply == Resting && i < |s.busy| && !s.busy[i]
    ensures Inv(s.(busy := s.busy[i := true], apply := Copying(i)))
  {
    var scanning := s.(apply := Scanning(i));
    assert forall slot: Slot :: Owned(scanning, slot) <==> Owned(s, slot);
    assert forall slot: Slot :: Once(s, slot) ==> Once(scanning, slot);
    ApplyInv(scanning, true);
  }

  lemma HandsOver(s: State, i: nat, copied: bool, recorded: bool)
    requires s.apply == Copying(i) && i < |s.busy| && |s.queue.items| < s.queue.max
    ensures Perform(s, [RunApply(copied)] + ([RunApply(recorded)] + ([RunApply(true)] + ([RunApply(true)] + [])))) ==
            if copied && recorded && !s.queue.closed then
              s.(apply := Resting, queue := s.queue.(items := s.queue.items + [i]))
            else s.(apply := Resting, busy := s.busy[i := false])
  {
    PerformFirst(s, RunApply(copied), [RunApply(recorded)] + ([RunApply(true)] + ([RunApply(true)] + [])));
    var s1 := Step(s, RunApply(copied));
    PerformFirst(s1, RunApply(recorded), [RunApply(true)] + ([RunApply(true)] + []));
    var s2 := Step(s1, RunApply(recorded));
    PerformFirst(s2, RunApply(true), [RunApply(true)] + []);
    PerformFirst(Step(s2, RunApply(true)), RunApply(true), []);
  }

  /** With every slot taken the frame is not offered and nothing changes. */
  lemma NoSlotNoJob(s: State)
    requires s.apply == Resting && forall j :: 0 <= j < |s.busy| ==> s.busy[j]
    ensures Perform(s, [StartScan] + (Turns(|s.busy| + 1) + [])) == s
  {
    PerformFirst(s, StartScan, Turns(|s.busy| + 1) + []);
    ScanFindsNone(Step(s, StartScan), 0, []);
  }

  /** The worker on its own, while it may run, takes the oldest job and frees its slot, whether
      the wait for the copy succeeds or not and also when the queue is closed. */
  lemma LoneWorker(s: State, ok: bool)
    requires Inv(s) && s.worker == LoopTop && s.running && s.queue.items != []
    ensures s.queue.items[0] < |s.busy|
    ensures Perform(s, [RunWorker(ok)] + ([RunWorker(ok)] + ([RunWorker(ok)] + []))) ==
            s.(busy := s.busy[s.queue.items[0] := false], queue := s.queue.(items := s.queue.items[1..]))
  {
    assert Owned(s, s.queue.items[0]);
    PerformFirst(s, RunWorker(ok), [RunWorker(ok)] + ([RunWorker(ok)] + []));
    var s1 := Step(s, RunWorker(ok));
    PerformFirst(s1, RunWorker(ok), [RunWorker(ok)] + []);
    PerformFirst(Step(s1, RunWorker(ok)), RunWorker(ok), []);
  }

  /** It ends at the next job after a stop, and when the queue is closed and empty; it waits while
      the queue is open and empty. */
  lemma WorkerEnds(s: State, ok: bool)
    requires s.worker == LoopTop
    ensures Perform(s, [Stop] + ([RunWorker(ok)] + [])) == s.(running := false, worker := Exited)
    ensures s.running && s.queue.items == [] ==>
              Perform(s, [RunWorker(ok)] + ([RunWorker(ok)] + [])) == s.(worker := if s.queue.closed then Exited else Popping)
    ensures s.running && s.queue.items == [] ==>
              Perform(s, [Close] + ([RunWorker(ok)] + ([RunWorker(ok)] + []))) ==
              s.(queue := s.queue.(closed := true), worker := Exited)
  {
    PerformFirst(s, Stop, [RunWorker(ok)] + []);
    PerformFirst(Step(s, Stop), RunWorker(ok), []);
    PerformFirst(s, RunWorker(ok), [RunWorker(ok)] + []);
    PerformFirst(Step(s, RunWorker(ok)), RunWorker(ok), []);
    var closed := Step(s, Close);
    PerformFirst(s, Close, [RunWorker(ok)] + ([RunWorker(ok)] + []));
    PerformFirst(closed, RunWorker(ok), [RunWorker(ok)] + []);
    PerformFirst(Step(closed, RunWorker(ok)), RunWorker(ok), []);
  }

  // The queue is open with room for every slot, and both threads run, with nothing under way.
  lemma StartsFree(pool: nat)
    requires 0 < pool
    ensures Inv(Init(pool)) && !Init(pool).queue.closed && Init(pool).running && Init(pool).worker == LoopTop
    ensures Init(pool).apply == Resting && Init(pool).queue.items == [] && forall i :: 0 <= i < pool ==> !Init(pool).busy[i]
  {
  }
}
