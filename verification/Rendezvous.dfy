/** The parallel trigger: one round after another, the loop wakes all workers and gathers what
    they report until all are done or 100 ms have passed. A worker can be slow by any number
    of rounds. One critical section, control call or clock read per step. */
module Rendezvous {
  import opened Sums

  type Wid = nat

  datatype PC =
    | Waiting(seen: nat)
    | Triggering(round: nat)
    | Stamping(round: nat, good: bool)
    | Reporting(round: nat, stamp: nat, good: bool)
    | Stopped(seen: nat)

  datatype Main = Sleeping | Gathering | Ended

  datatype Snapshot = Snapshot(round: nat, epoch: nat, ts: seq<nat>, ok: seq<bool>, allDone: bool)

  // Bookkeeping: a control call made for `round` while `during` was the current one.
  datatype Fire = Fire(round: nat, during: nat, time: nat, good: bool)

  datatype State = State(
    now: nat, stop: bool, round: nat, epoch: nat, done: nat, ts: seq<nat>, ok: seq<bool>,
    main: Main, workers: seq<PC>,
    snaps: seq<Snapshot>, fires: seq<seq<Fire>>)

  datatype Action = Tick(d: nat) | Begin | End(timeout: bool) | Stop | Run(w: Wid, good: bool)

  function Step(s: State, a: Action): State {
    match a
    case Tick(d) => s.(now := s.now + d)
    case Begin =>
      if s.main == Sleeping
      then s.(done := 0, ts := Zeros(|s.workers|), ok := Nos(|s.workers|), epoch := s.now, round := s.round + 1,
              main := Gathering)
      else s
    case End(timeout) =>
      if s.main == Gathering && (s.done >= |s.workers| || timeout)
      then s.(main := Sleeping,
              snaps := s.snaps + [Snapshot(s.round, s.epoch, s.ts, s.ok, s.done >= |s.workers|)])
      else s
    case Stop => if s.main == Sleeping then s.(main := Ended, stop := true) else s
    case Run(w, good) =>
      if w < |s.workers| && w < |s.ts| && w < |s.ok| && w < |s.fires| then StepWorker(s, w, good) else s
  }

  function StepWorker(s: State, w: Wid, good: bool): State
    requires w < |s.workers| && w < |s.ts| && w < |s.ok| && w < |s.fires|
  {
    match s.workers[w]
    case Waiting(seen) =>
      if s.stop then Goto(s, w, Stopped(seen))
      else if s.round != seen then Goto(s, w, Triggering(s.round))
      else s
    case Triggering(round) =>
      Goto(s, w, Stamping(round, good)).(
        fires := s.fires[w := s.fires[w] + [Fire(round, s.round, s.now, good)]])
    case Stamping(round, ok) => Goto(s, w, Reporting(round, s.now, ok))
    case Reporting(round, stamp, ok) =>
      if s.round == round
      then Goto(s, w, Waiting(round)).(ts := s.ts[w := stamp], ok := s.ok[w := ok], done := s.done + 1)
      else Goto(s, w, Waiting(round))
    case Stopped(_) => s
  }

  function Goto(s: State, w: Wid, pc: PC): State
    requires w < |s.workers|
  {
    s.(workers := s.workers[w := pc])
  }

  function Zeros(n: nat): (r: seq<nat>)
    ensures |r| == n && forall i :: 0 <= i < n ==> r[i] == 0
  {
    seq(n, _ => 0)
  }

  function Nos(n: nat): (r: seq<bool>)
    ensures |r| == n && forall i :: 0 <= i < n ==> !r[i]
  {
    seq(n, _ => false)
  }

  function Init(workers: nat): State {
    State(0, false, 0, 0, 0, Zeros(workers), Nos(workers), Sleeping, seq(workers, _ => Waiting(0)),
          [], seq(workers, _ => []))
  }

  // ---------- What the fields mean ----------

  // The round a worker picked last.
  function Picked(pc: PC): nat {
    match pc
    case Waiting(seen) => seen
    case Stopped(seen) => seen
    case Triggering(round) => round
    case Stamping(round, _) => round
    case Reporting(round, _, _) => round
  }

  predicate Between(pc: PC) {
    pc.Waiting? || pc.Stopped?
  }

  // The worker has reported in the current round.
  predicate Reported(s: State, w: Wid)
    requires w < |s.workers|
  {
    1 <= s.round && Between(s.workers[w]) && Picked(s.workers[w]) == s.round
  }

  function Weight(pc: PC, round: nat): int {
    if 1 <= round && Between(pc) && Picked(pc) == round then 1 else 0
  }

  function Weights(s: State): (r: seq<int>)
    ensures |r| == |s.workers| && NonNeg(r)
    ensures forall w :: 0 <= w < |r| ==> r[w] == Weight(s.workers[w], s.round)
  {
    seq(|s.workers|, w requires 0 <= w < |s.workers| => Weight(s.workers[w], s.round))
  }

  // The call belongs to this very round, was made in it and not stamped before it happened.
  ghost predicate InRound(f: Fire, round: nat, epoch: nat, stamp: nat, good: bool) {
    f.round == f.during == round && epoch <= f.time <= stamp && f.good == good
  }

  ghost predicate FiredInRound(fires: seq<Fire>, round: nat, epoch: nat, stamp: nat, good: bool) {
    exists i :: 0 <= i < |fires| && InRound(fires[i], round, epoch, stamp, good)
  }

  ghost predicate Ordered(fires: seq<Fire>) {
    forall i, j :: 0 <= i < j < |fires| ==> fires[i].round < fires[j].round
  }

  // The last call is the one for the picked round.
  ghost predicate LastFire(s: State, fires: seq<Fire>, round: nat, stamp: nat, good: bool) {
    && fires != []
    && var f := fires[|fires| - 1];
       f.round == round && f.good == good && f.time <= stamp
       && (round == s.round ==> f.during == s.round && s.epoch <= f.time)
  }

  ghost predicate WorkerOk(s: State, pc: PC, fires: seq<Fire>, ts: nat, ok: bool) {
    && Picked(pc) <= s.round
    && Ordered(fires)
    && (forall f :: f in fires ==> f.round <= Picked(pc))
    && (pc.Triggering? ==> 1 <= pc.round && forall f :: f in fires ==> f.round < pc.round)
    && (pc.Stamping? ==> 1 <= pc.round && LastFire(s, fires, pc.round, s.now, pc.good))
    && (pc.Reporting? ==> 1 <= pc.round && pc.stamp <= s.now && LastFire(s, fires, pc.round, pc.stamp, pc.good))
    && (if Weight(pc, s.round) == 1 then LastFire(s, fires, s.round, ts, ok) else ts == 0 && !ok)
  }

  ghost predicate Shape(s: State) {
    |s.ts| == |s.ok| == |s.fires| == |s.workers|
  }

  ghost predicate WorkersOk(s: State)
    requires Shape(s)
  {
    forall w: Wid :: w < |s.workers| ==> WorkerOk(s, s.workers[w], s.fires[w], s.ts[w], s.ok[w])
  }

  ghost predicate SnapOk(snap: Snapshot, fires: seq<seq<Fire>>) {
    && |snap.ts| == |snap.ok| == |fires|
    && forall w: Wid :: w < |fires| && (snap.ok[w] || snap.allDone) ==>
         FiredInRound(fires[w], snap.round, snap.epoch, snap.ts[w], snap.ok[w])
  }

  ghost predicate Inv(s: State) {
    && Shape(s)
    && s.epoch <= s.now
    && WorkersOk(s)
    && s.done == Sum(Weights(s))
    && (forall i :: 0 <= i < |s.snaps| ==> s.snaps[i].round == i + 1 && SnapOk(s.snaps[i], s.fires))
    && s.round == |s.snaps| + (if s.main == Gathering then 1 else 0)
  }

  ghost predicate AllReported(s: State) {
    forall w: Wid :: w < |s.workers| ==> Reported(s, w)
  }

  /** The count is the number of workers that reported for the current round, and it is complete
      exactly when all of them did. */
  lemma CountIsReported(s: State)
    requires Inv(s)
    ensures s.done == Sum(Weights(s)) <= |s.workers|
    ensures s.done >= |s.workers| <==> AllReported(s)
  {
    var weights := Weights(s);
    SumAtMost(weights, 1);
    if w: Wid :| w < |s.workers| && !Reported(s, w) {
      SumUpdate(weights, w, 1);
      SumAtMost(weights[w := 1], 1);
    } else {
      forall w: Wid | w < |s.workers| ensures weights[w] == 1 {
        assert Reported(s, w);
      }
      AllOnes(weights);
    }
  }

  lemma {:induction false} AllOnes(weights: seq<int>)
    requires forall i :: 0 <= i < |weights| ==> weights[i] == 1
    ensures Sum(weights) == |weights|
  {
    if weights != [] {
      AllOnes(weights[1..]);
    }
  }

  // ---------- Steps ----------

  // Replacing one worker and its entries keeps the rest.
  lemma Replace(s: State, w: Wid, s': State)
    requires Inv(s) && w < |s.workers| && Shape(s') && |s'.workers| == |s.workers|
    requires s' == s.(workers := s.workers[w := s'.workers[w]], fires := s.fires[w := s'.fires[w]],
                      ts := s.ts[w := s'.ts[w]], ok := s.ok[w := s'.ok[w]], done := s'.done)
    requires WorkerOk(s', s'.workers[w], s'.fires[w], s'.ts[w], s'.ok[w])
    requires s'.fires[w] == s.fires[w] || exists f :: s'.fires[w] == s.fires[w] + [f]
    requires s'.done == s.done - Weight(s.workers[w], s.round) + Weight(s'.workers[w], s.round)
    ensures Inv(s')
  {
    forall x: Wid | x < |s.workers| && x != w ensures WorkerOk(s', s'.workers[x], s'.fires[x], s'.ts[x], s'.ok[x]) {
      assert WorkerOk(s, s.workers[x], s.fires[x], s.ts[x], s.ok[x]);
    }
    assert Weights(s') == Weights(s)[w := Weight(s'.workers[w], s.round)];
    SumUpdate(Weights(s), w, Weight(s'.workers[w], s.round));
    forall i | 0 <= i < |s.snaps| ensures SnapOk(s'.snaps[i], s'.fires) {
      MoreFires(s.snaps[i], s.fires, w, s'.fires[w]);
    }
  }

  lemma MoreFires(snap: Snapshot, fires: seq<seq<Fire>>, w: Wid, now: seq<Fire>)
    requires SnapOk(snap, fires) && w < |fires|
    requires now == fires[w] || exists f :: now == fires[w] + [f]
    ensures SnapOk(snap, fires[w := now])
  {
    forall x: Wid | x < |fires| && (snap.ok[x] || snap.allDone)
      ensures FiredInRound(fires[w := now][x], snap.round, snap.epoch, snap.ts[x], snap.ok[x])
    {
      var i :| 0 <= i < |fires[x]| && InRound(fires[x][i], snap.round, snap.epoch, snap.ts[x], snap.ok[x]);
      assert fires[w := now][x][i] == fires[x][i];
    }
  }

  lemma PickInv(s: State, w: Wid, good: bool)
    requires Inv(s) && w < |s.workers| && Between(s.workers[w])
    ensures Inv(StepWorker(s, w, good))
  {
    var s' := StepWorker(s, w, good);
    assert WorkerOk(s, s.workers[w], s.fires[w], s.ts[w], s.ok[w]);
    assert s.fires[w := s.fires[w]] == s.fires && s.ts[w := s.ts[w]] == s.ts && s.ok[w := s.ok[w]] == s.ok;
    if s' != s {
      Replace(s, w, s');
    }
  }

  lemma FireInv(s: State, w: Wid, good: bool)
    requires Inv(s) && w < |s.workers| && s.workers[w].Triggering?
    ensures Inv(StepWorker(s, w, good))
  {
    FireOk(s, w, good);
    assert s.ts[w := s.ts[w]] == s.ts && s.ok[w := s.ok[w]] == s.ok;
    Replace(s, w, StepWorker(s, w, good));
  }

  lemma StampInv(s: State, w: Wid, good: bool)
    requires Inv(s) && w < |s.workers| && s.workers[w].Stamping?
    ensures Inv(StepWorker(s, w, good))
  {
    assert WorkerOk(s, s.workers[w], s.fires[w], s.ts[w], s.ok[w]);
    assert s.fires[w := s.fires[w]] == s.fires && s.ts[w := s.ts[w]] == s.ts && s.ok[w := s.ok[w]] == s.ok;
    Replace(s, w, StepWorker(s, w, good));
  }

  lemma ReportInv(s: State, w: Wid, good: bool)
    requires Inv(s) && w < |s.workers| && s.workers[w].Reporting?
    ensures Inv(StepWorker(s, w, good))
  {
    assert WorkerOk(s, s.workers[w], s.fires[w], s.ts[w], s.ok[w]);
    assert s.fires[w := s.fires[w]] == s.fires && s.ts[w := s.ts[w]] == s.ts && s.ok[w := s.ok[w]] == s.ok;
    Replace(s, w, StepWorker(s, w, good));
  }

  lemma RunInv(s: State, w: Wid, good: bool)
    requires Inv(s) && w < |s.workers|
    ensures Inv(StepWorker(s, w, good))
  {
    match s.workers[w]
    case Triggering(_) => FireInv(s, w, good);
    case Stamping(_, _) => StampInv(s, w, good);
    case Reporting(_, _, _) => ReportInv(s, w, good);
    case _ => PickInv(s, w, good);
  }

  lemma FireOk(s: State, w: Wid, good: bool)
    requires Inv(s) && w < |s.workers| && s.workers[w].Triggering?
    ensures var s' := StepWorker(s, w, good);
            WorkerOk(s', s'.workers[w], s'.fires[w], s'.ts[w], s'.ok[w])
  {
    assert WorkerOk(s, s.workers[w], s.fires[w], s.ts[w], s.ok[w]);
    var f := Fire(s.workers[w].round, s.round, s.now, good);
    var after := s.fires[w] + [f];
    assert forall x :: x in after <==> x in s.fires[w] || x == f;
    forall i, j | 0 <= i < j < |after| ensures after[i].round < after[j].round {
      assert after[i] == s.fires[w][i] && s.fires[w][i] in s.fires[w];
    }
  }

  lemma BeginInv(s: State)
    requires Inv(s)
    ensures Inv(Step(s, Begin))
  {
    var s' := Step(s, Begin);
    if s.main == Sleeping {
      forall w: Wid | w < |s.workers| ensures WorkerOk(s', s'.workers[w], s'.fires[w], s'.ts[w], s'.ok[w]) {
        assert WorkerOk(s, s.workers[w], s.fires[w], s.ts[w], s.ok[w]);
      }
      forall w: Wid | w < |s.workers| ensures Weights(s')[w] == 0 {
        assert WorkerOk(s, s.workers[w], s.fires[w], s.ts[w], s.ok[w]);
      }
      SumZero(Weights(s'));
    }
  }

  // What a snapshot taken now says is true of every worker.
  lemma SnapshotOk(s: State, allDone: bool)
    requires Inv(s) && (allDone ==> s.done >= |s.workers|)
    ensures SnapOk(Snapshot(s.round, s.epoch, s.ts, s.ok, allDone), s.fires)
  {
    if 0 < |s.workers| {
      CountIsReported(s);
    }
    forall w: Wid | w < |s.fires| && (s.ok[w] || allDone)
      ensures FiredInRound(s.fires[w], s.round, s.epoch, s.ts[w], s.ok[w])
    {
      assert WorkerOk(s, s.workers[w], s.fires[w], s.ts[w], s.ok[w]);
      assert allDone ==> Reported(s, w);
      assert InRound(s.fires[w][|s.fires[w]| - 1], s.round, s.epoch, s.ts[w], s.ok[w]);
    }
  }

  lemma EndInv(s: State, timeout: bool)
    requires Inv(s)
    ensures Inv(Step(s, End(timeout)))
  {
    var s' := Step(s, End(timeout));
    if s' != s {
      SnapshotOk(s, s.done >= |s.workers|);
      assert Weights(s') == Weights(s);
      forall w: Wid | w < |s.workers| ensures WorkerOk(s', s'.workers[w], s'.fires[w], s'.ts[w], s'.ok[w]) {
        assert WorkerOk(s, s.workers[w], s.fires[w], s.ts[w], s.ok[w]);
      }
    }
  }

  lemma TickInv(s: State, a: Action)
    requires Inv(s) && (a.Tick? || a.Stop?)
    ensures Inv(Step(s, a))
  {
    var s' := Step(s, a);
    forall w: Wid | w < |s.workers| ensures WorkerOk(s', s'.workers[w], s'.fires[w], s'.ts[w], s'.ok[w]) {
      assert WorkerOk(s, s.workers[w], s.fires[w], s.ts[w], s.ok[w]);
    }
    assert Weights(s') == Weights(s);
  }

  lemma StepInv(s: State, a: Action)
    requires Inv(s)
    ensures Inv(Step(s, a)) && |Step(s, a).workers| == |s.workers|
  {
    match a
    case Begin => BeginInv(s);
    case End(timeout) => EndInv(s, timeout);
    case Run(w, good) =>
      if w < |s.workers| {
        RunInv(s, w, good);
      }
    case _ => TickInv(s, a);
  }

  lemma InitInv(workers: nat)
    ensures Inv(Init(workers))
  {
    SumZero(Weights(Init(workers)));
  }

  /** The state after a whole schedule. */
  function Execute(s: State, actions: seq<Action>): State {
    if actions == [] then s else Step(Execute(s, actions[..|actions| - 1]), actions[|actions| - 1])
  }

  /** Whatever the delays and timeouts of however many workers, the invariant holds in every run. */
  lemma {:induction false} EveryRun(workers: nat, actions: seq<Action>)
    ensures Inv(Execute(Init(workers), actions)) && |Execute(Init(workers), actions).workers| == workers
    decreases |actions|
  {
    if actions == [] {
      InitInv(workers);
    } else {
      EveryRun(workers, actions[..|actions| - 1]);
      StepInv(Execute(Init(workers), actions[..|actions| - 1]), actions[|actions| - 1]);
    }
  }

  // ---------- Results ----------

  // Each is about every state of every run: by EveryRun they all satisfy Inv.

  // What worker w did in the round of the k-th snapshot is what the snapshot says.
  ghost predicate DidWhatItSays(s: State, k: nat, w: Wid)
    requires k < |s.snaps| && w < |s.fires| == |s.snaps[k].ok| == |s.snaps[k].ts|
  {
    FiredInRound(s.fires[w], k + 1, s.snaps[k].epoch, s.snaps[k].ts[w], s.snaps[k].ok[w])
  }

  ghost predicate Sized(s: State) {
    forall k :: 0 <= k < |s.snaps| ==> |s.snaps[k].ok| == |s.snaps[k].ts| == |s.fires|
  }

  /** The k-th snapshot is of round k, whoever was late; an entry marked ok is of a call made in
      that round, between its epoch and the recorded stamp. */
  lemma OkMeansTriggeredThisRound(s: State, k: nat, w: Wid)
    requires Inv(s) && k < |s.snaps| && w < |s.workers|
    ensures Sized(s) && |s.fires| == |s.workers| && s.snaps[k].round == k + 1
    ensures s.snaps[k].ok[w] ==> DidWhatItSays(s, k, w)
  {
    assert forall i :: 0 <= i < |s.snaps| ==> SnapOk(s.snaps[i], s.fires);
  }

  /** A snapshot of a completed round says of every worker what that worker did in it. */
  lemma AllDoneMeansEverybodyReported(s: State, k: nat, w: Wid)
    requires Inv(s) && k < |s.snaps| && w < |s.workers| && s.snaps[k].allDone
    ensures Sized(s) && |s.fires| == |s.workers| && DidWhatItSays(s, k, w)
  {
    assert forall i :: 0 <= i < |s.snaps| ==> SnapOk(s.snaps[i], s.fires);
  }

  /** A worker triggers at most once for any round, and for later rounds later. */
  lemma OneTriggerPerRound(s: State, w: Wid)
    requires Inv(s) && w < |s.workers|
    ensures |s.fires| == |s.workers| && Ordered(s.fires[w])
  {
    assert WorkerOk(s, s.workers[w], s.fires[w], s.ts[w], s.ok[w]);
  }

  // Nothing the loop or a snapshot looks at changes.
  predicate SameRound(s: State, s': State) {
    s'.round == s.round && s'.done == s.done && s'.ts == s.ts && s'.ok == s.ok && s'.snaps == s.snaps
  }

  /** A snapshot once taken never changes, whatever reports arrive later. */
  lemma {:induction false} SnapshotsAreFinal(s: State, actions: seq<Action>)
    ensures s.snaps <= Execute(s, actions).snaps
    decreases |actions|
  {
    if actions != [] {
      SnapshotsAreFinal(s, actions[..|actions| - 1]);
    }
  }

  // Steps other than the worker's own leave it where it is, and rounds only go on.
  lemma OthersLeaveWorker(s: State, a: Action, w: Wid)
    requires w < |s.workers| && (a.Run? ==> a.w != w)
    ensures |Step(s, a).workers| == |s.workers| && Step(s, a).workers[w] == s.workers[w]
    ensures s.round <= Step(s, a).round
  {
  }

  lemma {:induction false} OthersLeaveWorkerInRun(s: State, w: Wid, actions: seq<Action>)
    requires Inv(s) && w < |s.workers|
    requires forall i :: 0 <= i < |actions| && actions[i].Run? ==> actions[i].w != w
    ensures var r := Execute(s, actions);
            Inv(r) && |r.workers| == |s.workers| && r.workers[w] == s.workers[w] && s.round <= r.round
    decreases |actions|
  {
    if actions != [] {
      var before := actions[..|actions| - 1];
      OthersLeaveWorkerInRun(s, w, before);
      StepInv(Execute(s, before), actions[|actions| - 1]);
      OthersLeaveWorker(Execute(s, before), actions[|actions| - 1], w);
    }
  }

  lemma LateReport(s: State, w: Wid, good: bool)
    requires Shape(s) && w < |s.workers| && s.workers[w].Reporting? && s.workers[w].round != s.round
    ensures SameRound(s, Step(s, Run(w, good)))
  {
  }

  /** A worker that is late with a round stays late: however many rounds go by before it reports,
      its completion changes neither count, stamps, flags nor snapshots of any of them. */
  lemma LateCompletionsDoNotCount(s: State, w: Wid, actions: seq<Action>, good: bool)
    requires Inv(s) && w < |s.workers| && s.workers[w].Reporting? && s.workers[w].round != s.round
    requires forall i :: 0 <= i < |actions| && actions[i].Run? ==> actions[i].w != w
    ensures var r := Execute(s, actions);
            |r.workers| == |s.workers| && r.workers[w] == s.workers[w] && SameRound(r, Step(r, Run(w, good)))
  {
    assert Picked(s.workers[w]) <= s.round by {
      assert WorkerOk(s, s.workers[w], s.fires[w], s.ts[w], s.ok[w]);
    }
    OthersLeaveWorkerInRun(s, w, actions);
    LateReport(Execute(s, actions), w, good);
  }

  // ---------- A round in time ----------

  // One worker's whole turn: it wakes, triggers, reads the clock and reports.
  function Turn(s: State, w: Wid, good: bool): State {
    Step(Step(Step(Step(s, Run(w, good)), Run(w, good)), Run(w, good)), Run(w, good))
  }

  // The first k workers take their turns, each with its own result.
  function Turns(s: State, goods: seq<bool>, k: nat): State
    requires k <= |goods|
  {
    if k == 0 then s else Turn(Turns(s, goods, k - 1), k - 1, goods[k - 1])
  }

  // A round in which all report, d after it began.
  function Round(s: State, d: nat, goods: seq<bool>): State {
    Step(Turns(Step(Step(s, Begin), Tick(d)), goods, |goods|), End(false))
  }

  lemma TurnReports(s: State, w: Wid, good: bool)
    requires Shape(s) && w < |s.workers| && s.workers[w].Waiting? && !s.stop && s.round != s.workers[w].seen
    ensures Turn(s, w, good) ==
            s.(workers := s.workers[w := Waiting(s.round)], done := s.done + 1,
               ts := s.ts[w := s.now], ok := s.ok[w := good],
               fires := s.fires[w := s.fires[w] + [Fire(s.round, s.round, s.now, good)]])
  {
    var r := Turn(s, w, good);
    assert r.workers == s.workers[w := Waiting(s.round)];
  }

  // What the turns of the first k workers leave.
  ghost predicate TookTurns(s: State, r: State, goods: seq<bool>, k: nat)
    requires Shape(s) && |goods| == |s.workers|
  {
    && Shape(r) && |r.workers| == |s.workers| && k <= |goods|
    && r == s.(workers := r.workers, done := s.done + k, ts := r.ts, ok := r.ok, fires := r.fires)
    && (forall w :: 0 <= w < k ==> r.workers[w] == Waiting(s.round) && r.ts[w] == s.now && r.ok[w] == goods[w]
                                   && r.fires[w] == s.fires[w] + [Fire(s.round, s.round, s.now, goods[w])])
    && (forall w :: k <= w < |s.workers| ==>
          r.workers[w] == s.workers[w] && r.ts[w] == s.ts[w] && r.ok[w] == s.ok[w] && r.fires[w] == s.fires[w])
  }

  lemma {:induction false} TurnsReport(s: State, goods: seq<bool>, k: nat)
    requires Shape(s) && k <= |goods| == |s.workers| && !s.stop
    requires forall w :: 0 <= w < |s.workers| ==> s.workers[w].Waiting? && s.workers[w].seen != s.round
    ensures TookTurns(s, Turns(s, goods, k), goods, k)
  {
    if k > 0 {
      var t := Turns(s, goods, k - 1);
      TurnsReport(s, goods, k - 1);
      TurnReports(t, k - 1, goods[k - 1]);
      OneMoreTurn(s, t, Turn(t, k - 1, goods[k - 1]), goods, k - 1);
    }
  }

  lemma OneMoreTurn(s: State, t: State, r: State, goods: seq<bool>, k: nat)
    requires Shape(s) && k < |goods| == |s.workers| && TookTurns(s, t, goods, k)
    requires r == t.(workers := t.workers[k := Waiting(s.round)], done := t.done + 1,
                     ts := t.ts[k := s.now], ok := t.ok[k := goods[k]],
                     fires := t.fires[k := t.fires[k] + [Fire(s.round, s.round, s.now, goods[k])]])
    ensures TookTurns(s, r, goods, k + 1)
  {
  }

  // All workers wait for the next round.
  predicate AllWait(s: State) {
    s.main == Sleeping && !s.stop && forall w :: 0 <= w < |s.workers| ==> s.workers[w].Waiting?
  }

  // Whatever the round does, this is what it leaves in r.
  ghost predicate RoundDone(s: State, r: State, d: nat, goods: seq<bool>)
    requires Shape(s) && |goods| == |s.workers|
  {
    && AllWait(r) && |r.fires| == |s.fires| && |r.snaps| == |s.snaps| + 1 && r.snaps[..|s.snaps|] == s.snaps
    && (var snap := r.snaps[|s.snaps|];
        && snap.round == |s.snaps| + 1 && snap.epoch == s.now && snap.allDone && snap.ok == goods
        && snap.ts == seq(|goods|, _ => s.now + d))
    && forall w :: 0 <= w < |goods| ==>
         r.fires[w] == s.fires[w] + [Fire(|s.snaps| + 1, |s.snaps| + 1, s.now + d, goods[w])]
  }

  lemma Begins(s: State, d: nat)
    requires Shape(s) && s.main == Sleeping
    ensures Step(Step(s, Begin), Tick(d)) ==
            s.(now := s.now + d, done := 0, ts := Zeros(|s.workers|), ok := Nos(|s.workers|), epoch := s.now,
               round := s.round + 1, main := Gathering)
  {
  }

  lemma Completes(s: State)
    requires s.main == Gathering && s.done == |s.workers|
    ensures Step(s, End(false)) ==
            s.(main := Sleeping, snaps := s.snaps + [Snapshot(s.round, s.epoch, s.ts, s.ok, true)])
  {
  }

  /** A round in which every worker is in time, whatever happened in the rounds before: each
      triggers once, and the snapshot is complete and holds each one's result and the time. */
  lemma RoundInTime(s: State, d: nat, goods: seq<bool>)
    requires Inv(s) && AllWait(s) && |goods| == |s.workers|
    ensures Inv(Round(s, d, goods)) && RoundDone(s, Round(s, d, goods), d, goods)
  {
    var begun := Step(Step(s, Begin), Tick(d));
    Begins(s, d);
    NotSeenYet(s);
    TurnsReport(begun, goods, |goods|);
    Completes(Turns(begun, goods, |goods|));
    AllInTime(s, begun, Turns(begun, goods, |goods|), d, goods);
    RoundInv(s, d, goods);
  }

  lemma NotSeenYet(s: State)
    requires Inv(s) && AllWait(s)
    ensures forall w :: 0 <= w < |s.workers| ==> s.workers[w].seen <= s.round == |s.snaps|
  {
    forall w | 0 <= w < |s.workers| ensures s.workers[w].seen <= s.round {
      assert WorkerOk(s, s.workers[w], s.fires[w], s.ts[w], s.ok[w]);
    }
  }

  lemma AllInTime(s: State, begun: State, all: State, d: nat, goods: seq<bool>)
    requires Inv(s) && AllWait(s) && |goods| == |s.workers|
    requires Shape(begun) && begun == s.(now := s.now + d, done := 0, ts := begun.ts, ok := begun.ok, epoch := s.now,
                                         round := s.round + 1, main := Gathering)
    requires TookTurns(begun, all, goods, |goods|)
    ensures RoundDone(s, all.(main := Sleeping, snaps := s.snaps + [Snapshot(all.round, all.epoch, all.ts, all.ok, true)]), d, goods)
  {
    assert all.ok == goods && all.ts == seq(|goods|, _ => s.now + d);
  }

  lemma RoundInv(s: State, d: nat, goods: seq<bool>)
    requires Inv(s)
    ensures Inv(Round(s, d, goods))
  {
    StepInv(s, Begin);
    StepInv(Step(s, Begin), Tick(d));
    TurnsInv(Step(Step(s, Begin), Tick(d)), goods, |goods|);
    StepInv(Turns(Step(Step(s, Begin), Tick(d)), goods, |goods|), End(false));
  }

  lemma {:induction false} TurnsInv(s: State, goods: seq<bool>, k: nat)
    requires Inv(s) && k <= |goods|
    ensures Inv(Turns(s, goods, k))
  {
    if k > 0 {
      var a := Run(k - 1, goods[k - 1]);
      var t := Turns(s, goods, k - 1);
      TurnsInv(s, goods, k - 1);
      StepInv(t, a);
      StepInv(Step(t, a), a);
      StepInv(Step(Step(t, a), a), a);
      StepInv(Step(Step(Step(t, a), a), a), a);
    }
  }

  /** The loop leaves a round at the timeout with what was reported until then, complete exactly if
      everybody has reported, and before the timeout only then. */
  lemma GatheringEnds(s: State)
    requires Inv(s) && s.main == Gathering
    ensures var r := Step(s, End(true));
      && r.main == Sleeping && r.snaps == s.snaps + [Snapshot(s.round, s.epoch, s.ts, s.ok, AllReported(s))]
      && Step(s, End(false)) == if AllReported(s) then r else s
  {
    CountIsReported(s);
  }

  /** After a stop every worker that waits leaves at its next step, and no round begins. */
  lemma StopEndsAll(s: State, w: Wid, good: bool)
    requires Shape(s) && s.main == Sleeping && w < |s.workers| && s.workers[w].Waiting?
    ensures var r := Step(s, Stop);
      && Step(r, Run(w, good)).workers[w] == Stopped(s.workers[w].seen) && Step(r, Begin) == r
  {
  }
}
