/** The blocking queue: an inner queue whose element count only the winner of a permit may
    lower, composed with the lightweight semaphore. Each thread is either outside, between
    enqueue and signal, inside a semaphore call, or spinning on the inner queue with the
    permits it still has to redeem. */
module BlockingQueue {
  import opened Sums
  import S = Semaphore

  type Tid = nat

  datatype Phase = Outside | ToSignal(n: nat) | Signalling | Waiting | Redeem(left: nat)

  datatype State = State(sema: S.State, elements: int, phases: seq<Phase>)

  datatype Action =
    | Enqueue(t: Tid, n: nat)                // inner enqueue (or bulk enqueue) of n succeeded
    | CallSignal(t: Tid)
    | CallWait(t: Tid, max: nat, timeout: S.Timeout)
    | CallTry(t: Tid, max: nat)
    | RunSema(t: Tid, lucky: bool)
    | SignalDone(t: Tid)
    | WaitDone(t: Tid)
    | TryInner(t: Tid, n: nat)               // an inner dequeue that delivered n, possibly 0
    | Leave(t: Tid)

  ghost predicate Shape(s: State) {
    |s.phases| == |s.sema.threads|
  }

  function Go(s: State, t: Tid, p: Phase, sema: S.State): State
    requires t < |s.phases|
  {
    s.(phases := s.phases[t := p], sema := sema)
  }

  ghost function Step(s: State, a: Action): State
    requires Shape(s)
  {
    if a.t >= |s.phases| then s
    else
      match a
      case Enqueue(t, n) =>
        if s.phases[t] == Outside && s.sema.threads[t] == S.Idle then
          Go(s, t, ToSignal(n), s.sema).(elements := s.elements + n)
        else s
      case CallSignal(t) =>
        if s.phases[t].ToSignal? && s.sema.threads[t] == S.Idle && t < |s.sema.asked| then
          Go(s, t, Signalling, S.Step(s.sema, S.Begin(t, S.Signal(s.phases[t].n))))
        else s
      case CallWait(t, max, timeout) =>
        if s.phases[t] == Outside && s.sema.threads[t] == S.Idle then
          Go(s, t, Waiting, S.Step(s.sema, S.Begin(t, S.WaitMany(max, timeout))))
        else s
      case CallTry(t, max) =>
        if s.phases[t] == Outside && s.sema.threads[t] == S.Idle then
          Go(s, t, Waiting, S.Step(s.sema, S.Begin(t, S.TryWaitMany(max))))
        else s
      case RunSema(t, lucky) =>
        if s.phases[t] == Signalling || s.phases[t] == Waiting then
          s.(sema := S.Step(s.sema, S.Run(t, lucky)))
        else s
      case SignalDone(t) =>
        if s.phases[t] == Signalling && s.sema.threads[t] == S.Idle then Go(s, t, Outside, s.sema) else s
      case WaitDone(t) =>
        if s.phases[t] == Waiting && s.sema.threads[t].Ret? then
          Go(s, t, Redeem(s.sema.threads[t].got), S.Step(s.sema, S.Return(t)))
        else s
      case TryInner(t, n) =>
        if s.phases[t].Redeem? && n <= s.phases[t].left && n <= s.elements then
          Go(s, t, Redeem(s.phases[t].left - n), s.sema).(elements := s.elements - n)
        else s
      case Leave(t) =>
        if s.phases[t] == Redeem(0) then Go(s, t, Outside, s.sema) else s
  }

  function Init(maxSpins: nat, threads: nat): State {
    State(S.Init(0, maxSpins, threads), 0, seq(threads, _ => Outside))
  }

  // ---------- Totals ----------

  // Elements a thread enqueued and has not yet added to the semaphore's count.
  function Unsignalled(p: Phase, pc: S.PC): nat {
    if p.ToSignal? then p.n else if pc.SignalAdd? then pc.n else 0
  }

  // Permits a thread holds and has not yet redeemed at the inner queue.
  function Held(p: Phase): nat {
    if p.Redeem? then p.left else 0
  }

  ghost function UnsignalledWeights(s: State): (w: seq<int>)
    requires Shape(s)
    ensures |w| == |s.phases|
  {
    seq(|s.phases|, t requires 0 <= t < |s.phases| => Unsignalled(s.phases[t], s.sema.threads[t]))
  }

  ghost function HeldWeights(s: State): (w: seq<int>)
    ensures |w| == |s.phases|
  {
    seq(|s.phases|, t requires 0 <= t < |s.phases| => Held(s.phases[t]))
  }

  ghost function TotalUnsignalled(s: State): int
    requires Shape(s)
  {
    Sum(UnsignalledWeights(s))
  }

  ghost function TotalHeld(s: State): int {
    Sum(HeldWeights(s)) + S.Total(s.sema.threads, S.Holding_)
  }

  // A thread is inside the semaphore only between the call and its return.
  predicate InStep(p: Phase, pc: S.PC) {
    match p
    case Signalling => pc.SignalAdd? || pc.Post? || pc.Idle?
    case Waiting => !pc.SignalAdd? && !pc.Post? && !pc.Idle?
    case _ => pc.Idle?
  }

  /** Elements = semaphore count + slow-path waiters + enqueued but not signalled + permits
      held but not redeemed. */
  ghost predicate Inv(s: State) {
    && Shape(s)
    && S.Inv(s.sema) && s.sema.initial == 0
    && (forall t :: 0 <= t < |s.phases| ==> InStep(s.phases[t], s.sema.threads[t]))
    && s.elements
       == s.sema.count + S.Total(s.sema.threads, S.Waiting_) + TotalUnsignalled(s) + TotalHeld(s)
  }

  // How one thread's move changes the two totals.
  lemma TotalsMove(s: State, s': State, t: Tid)
    requires Shape(s) && Shape(s') && t < |s.phases| == |s'.phases|
    requires s'.phases == s.phases[t := s'.phases[t]]
    requires s'.sema.threads == s.sema.threads[t := s'.sema.threads[t]]
    ensures TotalUnsignalled(s') == TotalUnsignalled(s)
              - Unsignalled(s.phases[t], s.sema.threads[t]) + Unsignalled(s'.phases[t], s'.sema.threads[t])
    ensures TotalHeld(s') == TotalHeld(s)
              - Held(s.phases[t]) - S.Weight(s.sema.threads[t], S.Holding_)
              + Held(s'.phases[t]) + S.Weight(s'.sema.threads[t], S.Holding_)
  {
    var u := Unsignalled(s'.phases[t], s'.sema.threads[t]);
    assert UnsignalledWeights(s') == UnsignalledWeights(s)[t := u];
    SumUpdate(UnsignalledWeights(s), t, u);
    assert HeldWeights(s') == HeldWeights(s)[t := Held(s'.phases[t])];
    SumUpdate(HeldWeights(s), t, Held(s'.phases[t]));
    S.TotalGoto(s.sema.threads, t, s'.sema.threads[t], S.Holding_);
  }

  lemma NoSemaStep(s: State, a: Action)
    requires Inv(s) && a.t < |s.phases|
    requires a.Enqueue? || a.TryInner? || a.Leave? || a.SignalDone?
    ensures Inv(Step(s, a))
  {
    TotalsMove(s, Step(s, a), a.t);
  }

  lemma BeginStep(s: State, a: Action)
    requires Inv(s) && a.t < |s.phases|
    requires a.CallSignal? || a.CallWait? || a.CallTry?
    ensures Inv(Step(s, a))
  {
    var s' := Step(s, a);
    if s' != s {
      var call := if a.CallSignal? then S.Signal(s.phases[a.t].n)
                  else if a.CallWait? then S.WaitMany(a.max, a.timeout) else S.TryWaitMany(a.max);
      assert s'.sema == S.Step(s.sema, S.Begin(a.t, call));
      S.StepInv(s.sema, S.Begin(a.t, call));
      TotalsMove(s, s', a.t);
      S.TotalGoto(s.sema.threads, a.t, s'.sema.threads[a.t], S.Waiting_);
    }
  }

  lemma SemaStep(s: State, a: Action)
    requires Inv(s) && a.t < |s.phases| && a.RunSema?
    ensures Inv(Step(s, a))
  {
    var s' := Step(s, a);
    if s.phases[a.t] == Signalling || s.phases[a.t] == Waiting {
      S.StepInv(s.sema, S.Run(a.t, a.lucky));
      assert InStep(s.phases[a.t], s.sema.threads[a.t]);
      StaysInStep(s.phases[a.t], s.sema, a.t, a.lucky);
      TotalsMove(s, s', a.t);
    }
  }

  // Inside the semaphore a waiter never turns signaller, nor a signaller waiter; and what a
  // step adds to signalled or acquired it moves out of, or into, the thread's weight.
  ghost predicate Stays(p: Phase, q: S.State, q': S.State, t: Tid)
    requires t < |q.threads|
  {
    && |q'.threads| == |q.threads| && q'.threads == q.threads[t := q'.threads[t]]
    && InStep(p, q'.threads[t])
    && q'.signalled - q.signalled == Unsignalled(p, q.threads[t]) - Unsignalled(p, q'.threads[t])
    && q'.returned == q.returned
  }

  lemma StaysInStep(p: Phase, q: S.State, t: Tid, lucky: bool)
    requires t < |q.threads| && (p == Signalling || p == Waiting) && InStep(p, q.threads[t])
    ensures Stays(p, q, S.Tick(q, t, lucky), t)
  {
    var pc := q.threads[t];
    if p == Signalling {
      SignallerStays(q, t, lucky);
    } else if pc.FetchSub? || pc.Blocked? || pc.Compensate? || pc.Seen? {
      SlowWaiterStays(q, t, lucky);
    } else {
      FastWaiterStays(q, t, lucky);
    }
  }

  lemma SignallerStays(q: S.State, t: Tid, lucky: bool)
    requires t < |q.threads| && InStep(Signalling, q.threads[t])
    ensures Stays(Signalling, q, S.Tick(q, t, lucky), t)
  {
  }

  lemma SlowWaiterStays(q: S.State, t: Tid, lucky: bool)
    requires t < |q.threads|
    requires var pc := q.threads[t]; pc.FetchSub? || pc.Blocked? || pc.Compensate? || pc.Seen?
    ensures Stays(Waiting, q, S.Tick(q, t, lucky), t)
  {
  }

  lemma FastWaiterStays(q: S.State, t: Tid, lucky: bool)
    requires t < |q.threads|
    requires var pc := q.threads[t]; pc.TryLoad? || pc.TryCas? || pc.SpinLoad? || pc.SpinCas? || pc.Ret?
    ensures Stays(Waiting, q, S.Tick(q, t, lucky), t)
  {
  }

  lemma ReturnStep(s: State, a: Action)
    requires Inv(s) && a.t < |s.phases| && a.WaitDone?
    ensures Inv(Step(s, a))
  {
    var s' := Step(s, a);
    if s' != s {
      S.StepInv(s.sema, S.Return(a.t));
      TotalsMove(s, s', a.t);
      S.TotalGoto(s.sema.threads, a.t, S.Idle, S.Waiting_);
    }
  }

  lemma StepInv(s: State, a: Action)
    requires Inv(s)
    ensures Inv(Step(s, a)) && |Step(s, a).phases| == |s.phases|
  {
    if a.t < |s.phases| {
      match a
      case RunSema(_, _) => SemaStep(s, a);
      case WaitDone(_) => ReturnStep(s, a);
      case CallSignal(_) => BeginStep(s, a);
      case CallWait(_, _, _) => BeginStep(s, a);
      case CallTry(_, _) => BeginStep(s, a);
      case _ => NoSemaStep(s, a);
    }
  }

  lemma InitInv(maxSpins: nat, threads: nat)
    ensures Inv(Init(maxSpins, threads))
  {
    S.InitInv(0, maxSpins, threads);
    OutsideTotals(Init(maxSpins, threads));
  }

  ghost function Started(maxSpins: nat, threads: nat): (s: State)
    ensures Inv(s)
  {
    InitInv(maxSpins, threads);
    Init(maxSpins, threads)
  }

  /** The state after a whole schedule; the element equation holds over every run. */
  ghost function Execute(s: State, actions: seq<Action>): (r: State)
    requires Inv(s)
    ensures Inv(r) && |r.phases| == |s.phases|
    decreases |actions|
  {
    if actions == [] then s
    else
      var before := Execute(s, actions[..|actions| - 1]);
      StepInv(before, actions[|actions| - 1]);
      Step(before, actions[|actions| - 1])
  }

  /** The inner queue always holds an element for every permit held anywhere at once, so a
      thread inside a redeeming spin is entitled to all it still asks for. */
  lemma SpinnersEntitled(s: State, t: Tid)
    requires Inv(s) && t < |s.phases| && s.phases[t].Redeem?
    ensures s.phases[t].left <= TotalHeld(s) <= s.elements
  {
    SumAtLeast(HeldWeights(s), t);
    SumNonNeg(S.Weights(s.sema.threads, S.Holding_));
    SumNonNeg(S.Weights(s.sema.threads, S.Waiting_));
    SumNonNeg(S.Weights(s.sema.threads, S.Posting_));
    SumNonNeg(UnsignalledWeights(s));
  }

  lemma OthersLeaveMyPhase(s: State, a: Action, t: Tid)
    requires Inv(s) && t < |s.phases| && a.t != t
    ensures |Step(s, a).phases| == |s.phases| && Step(s, a).phases[t] == s.phases[t]
  {
    StepInv(s, a);
  }

  // All that t still asks for is there, and an inner dequeue that finds it ends the spin.
  ghost predicate CanRedeem(s: State, t: Tid, left: nat) {
    && Shape(s) && t < |s.phases| && s.phases[t] == Redeem(left) && left <= s.elements
    && Step(s, TryInner(t, left)) == s.(phases := s.phases[t := Redeem(0)], elements := s.elements - left)
  }

  lemma EntitledCanRedeem(s: State, t: Tid)
    requires Inv(s) && t < |s.phases| && s.phases[t].Redeem?
    ensures CanRedeem(s, t, s.phases[t].left)
  {
    SpinnersEntitled(s, t);
  }

  /** However the other threads go on, with whatever they enqueue, wait for and redeem, as long
      as this spinner does not move all the elements it still needs are there, and an inner
      dequeue that finds them ends its spin: nobody can starve it for good. */
  lemma {:induction false} OthersCannotTakeMine(s: State, t: Tid, actions: seq<Action>)
    requires Inv(s) && t < |s.phases| && s.phases[t].Redeem?
    requires forall i :: 0 <= i < |actions| ==> actions[i].t != t
    ensures CanRedeem(Execute(s, actions), t, s.phases[t].left)
    decreases |actions|
  {
    if actions == [] {
      EntitledCanRedeem(s, t);
    } else {
      var before := Execute(s, actions[..|actions| - 1]);
      OthersCannotTakeMine(s, t, actions[..|actions| - 1]);
      OthersLeaveMyPhase(before, actions[|actions| - 1], t);
      EntitledCanRedeem(Execute(s, actions), t);
    }
  }

  // With every thread outside nothing is under way.
  lemma OutsideTotals(s: State)
    requires Shape(s)
    requires forall t :: 0 <= t < |s.phases| ==> s.phases[t] == Outside && s.sema.threads[t] == S.Idle
    ensures TotalUnsignalled(s) == 0 && TotalHeld(s) == 0
    ensures S.Total(s.sema.threads, S.Waiting_) == 0 && S.Total(s.sema.threads, S.Posting_) == 0
  {
    S.IdleTotals(s.sema.threads);
    SumZero(UnsignalledWeights(s));
    SumZero(HeldWeights(s));
  }

  /** With every thread outside, the semaphore's count is exactly the number of elements. */
  lemma QuiescentCountIsSize(s: State)
    requires Inv(s) && forall t :: 0 <= t < |s.phases| ==> s.phases[t] == Outside
    ensures s.sema.count == s.elements && s.sema.kernel == 0
  {
    assert forall t :: 0 <= t < |s.phases| ==> InStep(s.phases[t], s.sema.threads[t]);
    OutsideTotals(s);
  }

  // ---------- What a call does alone ----------

  // State s with thread t in this phase, at this point of the semaphore.
  function Put(s: State, t: Tid, phase: Phase, pc: S.PC): State
    requires t < |s.phases| && t < |s.sema.threads|
  {
    s.(phases := s.phases[t := phase], sema := S.Goto(s.sema, t, pc))
  }

  // With t outside, that is s itself.
  lemma PutOutside(s: State, t: Tid)
    requires Inv(s) && t < |s.phases| && s.phases[t] == Outside
    ensures Put(s, t, Outside, S.Idle) == s
  {
    assert InStep(s.phases[t], s.sema.threads[t]);
  }

  lemma PutTwice(s: State, t: Tid, p: Phase, pc: S.PC, q: Phase, qc: S.PC)
    requires t < |s.phases| && t < |s.sema.threads|
    ensures Put(Put(s, t, p, pc), t, q, qc) == Put(s, t, q, qc)
  {
    assert s.phases[t := p][t := q] == s.phases[t := q];
    assert s.sema.threads[t := pc][t := qc] == s.sema.threads[t := qc];
  }

  // The actions of one thread in turn; n of them can be steps inside the semaphore.
  ghost function Perform(s: State, actions: seq<Action>): (r: State)
    requires Shape(s)
    ensures Shape(r)
    decreases |actions|
  {
    if actions == [] then s else Perform(Step(s, actions[0]), actions[1..])
  }

  function Runs(t: Tid, n: nat): (r: seq<Action>)
    ensures |r| == n && forall i :: 0 <= i < n ==> r[i] == RunSema(t, true)
  {
    seq(n, _ => RunSema(t, true))
  }

  lemma PerformFirst(s: State, a: Action, rest: seq<Action>)
    requires Shape(s)
    ensures Shape(Step(s, a)) && Perform(s, [a] + rest) == Perform(Step(s, a), rest)
  {
    assert ([a] + rest)[1..] == rest;
  }

  lemma {:induction false} PerformRuns(s: State, t: Tid, n: nat, rest: seq<Action>)
    requires Shape(s) && t < |s.phases| && (s.phases[t] == Signalling || s.phases[t] == Waiting)
    ensures |S.Alone(s.sema, t, true, n).threads| == |s.sema.threads|
    ensures Perform(s, Runs(t, n) + rest) == Perform(s.(sema := S.Alone(s.sema, t, true, n)), rest)
    decreases n
  {
    if n == 0 {
      assert Runs(t, 0) + rest == rest;
    } else {
      var s1 := Step(s, RunSema(t, true));
      assert s1 == s.(sema := S.Tick(s.sema, t, true));
      PerformRuns(s1, t, n - 1, rest);
      assert Runs(t, n) + rest == [RunSema(t, true)] + (Runs(t, n - 1) + rest);
      PerformFirst(s, RunSema(t, true), Runs(t, n - 1) + rest);
    }
  }

  /** An enqueue of n elements that runs alone adds them and n permits, and wakes one sleeper for
      each it makes up for. */
  lemma SoloEnqueue(s: State, t: Tid, n: nat)
    requires Inv(s) && t < |s.phases| && s.phases[t] == Outside
    ensures var k: nat := if 0 <= s.sema.count then 0 else if -s.sema.count < n then -s.sema.count else n;
            var r := Perform(s, [Enqueue(t, n), CallSignal(t)] + (Runs(t, k + 1) + [SignalDone(t)]));
      && r.elements == s.elements + n && r.sema.count == s.sema.count + n && r.sema.kernel == s.sema.kernel + k
      && r.phases == s.phases && r.sema.threads == s.sema.threads
  {
    var k: nat := if 0 <= s.sema.count then 0 else if -s.sema.count < n then -s.sema.count else n;
    PutOutside(s, t);
    assert t < |s.sema.asked|;
    SoloEnqueueSteps(s, t, n, k);
    assert s.phases[t := Outside] == s.phases && s.sema.threads[t := S.Idle] == s.sema.threads;
  }

  lemma SoloEnqueueSteps(s: State, t: Tid, n: nat, k: nat)
    requires Shape(s) && t < |s.phases| && t < |s.sema.asked| && s.sema.threads[t] == S.Idle
    requires k == if 0 <= s.sema.count then 0 else if -s.sema.count < n then -s.sema.count else n
    ensures Perform(Put(s, t, Outside, S.Idle), [Enqueue(t, n), CallSignal(t)] + (Runs(t, k + 1) + [SignalDone(t)]))
         == Put(s.(elements := s.elements + n, sema := Signalled(s.sema, t, n, k)), t, Outside, S.Idle)
  {
    var added := s.(elements := s.elements + n);
    Adds(s, t, n, Runs(t, k + 1) + [SignalDone(t)]);
    S.SoloSignals(s.sema, t, n);
    InnerCall(added, t, Signalling, Calling(added, t, n).sema, Signalled(s.sema, t, n, k), S.Idle, k + 1, [SignalDone(t)]);
    SignalIsDone(added.(sema := Signalled(s.sema, t, n, k)), t);
  }

  // After a signal of n that woke k.
  function Signalled(q: S.State, t: Tid, n: nat, k: nat): S.State
    requires t < |q.asked|
  {
    S.Noted(q, t, S.Signal(n)).(count := q.count + n, signalled := q.signalled + n, kernel := q.kernel + k)
  }

  // With the signal for n elements begun.
  function Calling(b: State, t: Tid, n: nat): State
    requires t < |b.phases| && t < |b.sema.asked| && t < |b.sema.threads|
  {
    Put(b.(sema := S.Noted(b.sema, t, S.Signal(n))), t, Signalling, S.SignalAdd(n))
  }

  lemma Adds(b: State, t: Tid, n: nat, rest: seq<Action>)
    requires Shape(b) && t < |b.phases| && t < |b.sema.asked|
    ensures Perform(Put(b, t, Outside, S.Idle), [Enqueue(t, n), CallSignal(t)] + rest)
         == Perform(Calling(b.(elements := b.elements + n), t, n), rest)
  {
    assert [Enqueue(t, n), CallSignal(t)] + rest == [Enqueue(t, n)] + ([CallSignal(t)] + rest);
    Enqueues(b, t, n, [CallSignal(t)] + rest);
    Calls(b.(elements := b.elements + n), t, n, rest);
  }

  lemma Enqueues(b: State, t: Tid, n: nat, rest: seq<Action>)
    requires Shape(b) && t < |b.phases|
    ensures Perform(Put(b, t, Outside, S.Idle), [Enqueue(t, n)] + rest)
         == Perform(Put(b.(elements := b.elements + n), t, ToSignal(n), S.Idle), rest)
  {
    PerformFirst(Put(b, t, Outside, S.Idle), Enqueue(t, n), rest);
    PutTwice(b.(elements := b.elements + n), t, Outside, S.Idle, ToSignal(n), S.Idle);
  }

  lemma Calls(b: State, t: Tid, n: nat, rest: seq<Action>)
    requires Shape(b) && t < |b.phases| && t < |b.sema.asked|
    ensures Perform(Put(b, t, ToSignal(n), S.Idle), [CallSignal(t)] + rest) == Perform(Calling(b, t, n), rest)
  {
    PerformFirst(Put(b, t, ToSignal(n), S.Idle), CallSignal(t), rest);
    PutTwice(b.(sema := S.Noted(b.sema, t, S.Signal(n))), t, ToSignal(n), S.Idle, Signalling, S.SignalAdd(n));
  }

  // A call of the semaphore that takes m steps, from q to q' and this point.
  lemma InnerCall(s: State, t: Tid, phase: Phase, q: S.State, q': S.State, pc: S.PC, m: nat, rest: seq<Action>)
    requires Shape(s) && t < |s.phases| == |q.threads| == |q'.threads| && (phase == Signalling || phase == Waiting)
    requires S.Alone(q, t, true, m) == S.Goto(q', t, pc)
    ensures Perform(s.(phases := s.phases[t := phase], sema := q), Runs(t, m) + rest)
         == Perform(Put(s.(sema := q'), t, phase, pc), rest)
  {
    PerformRuns(s.(phases := s.phases[t := phase], sema := q), t, m, rest);
  }

  lemma SignalIsDone(b: State, t: Tid)
    requires Shape(b) && t < |b.phases|
    ensures Perform(Put(b, t, Signalling, S.Idle), [SignalDone(t)]) == Put(b, t, Outside, S.Idle)
  {
    assert [SignalDone(t)] + [] == [SignalDone(t)];
    PerformFirst(Put(b, t, Signalling, S.Idle), SignalDone(t), []);
    PutTwice(b, t, Signalling, S.Idle, Outside, S.Idle);
  }

  /** A dequeue that runs alone, trying or waiting, single or bulk, takes as many elements as it
      may or as there are permits, and as many permits. */
  lemma SoloDequeue(s: State, call: Action)
    requires Inv(s) && (call.CallTry? || call.CallWait?) && call.t < |s.phases| && s.phases[call.t] == Outside
    requires 0 < s.sema.count
    ensures var t, k := call.t, if call.max < s.sema.count then call.max else s.sema.count;
            var r := Perform(s, [call] + (Runs(t, 2) + [WaitDone(t), TryInner(t, k), Leave(t)]));
      && r.elements == s.elements - k && r.sema.count == s.sema.count - k && r.sema.kernel == s.sema.kernel
      && r.phases == s.phases && r.sema.threads == s.sema.threads
  {
    var t, k := call.t, if call.max < s.sema.count then call.max else s.sema.count;
    PutOutside(s, t);
    CountIsThere(s);
    S.SoloTakes(s.sema, t, Inner(call));
    SoloDequeueSteps(s, call, k, 2);
    assert s.phases[t := Outside] == s.phases && s.sema.threads[t := S.Idle] == s.sema.threads;
  }

  lemma CountIsThere(s: State)
    requires Inv(s)
    ensures s.sema.count <= s.elements
  {
    SumNonNeg(HeldWeights(s));
    SumNonNeg(S.Weights(s.sema.threads, S.Holding_));
    SumNonNeg(S.Weights(s.sema.threads, S.Waiting_));
    SumNonNeg(UnsignalledWeights(s));
  }

  // After an acquisition of k.
  function Taken(q: S.State, t: Tid, call: S.Call, k: nat): S.State
    requires t < |q.asked|
  {
    S.Noted(q, t, call).(count := q.count - k, acquired := q.acquired + k)
  }

  lemma SoloDequeueSteps(s: State, call: Action, k: nat, m: nat)
    requires Shape(s) && (call.CallTry? || call.CallWait?) && call.t < |s.phases| && call.t < |s.sema.asked|
    requires k <= s.elements
    requires S.Alone(S.Step(s.sema, S.Begin(call.t, Inner(call))), call.t, true, m)
          == S.Goto(Taken(s.sema, call.t, Inner(call), k), call.t, S.Ret(k))
    requires s.sema.threads[call.t] == S.Idle
    ensures Perform(Put(s, call.t, Outside, S.Idle),
                    [call] + (Runs(call.t, m) + [WaitDone(call.t), TryInner(call.t, k), Leave(call.t)]))
         == Put(s.(elements := s.elements - k, sema := Taken(s.sema, call.t, Inner(call), k).(returned := s.sema.returned + k)),
                call.t, Outside, S.Idle)
  {
    var t, q := call.t, Taken(s.sema, call.t, Inner(call), k);
    var end := [WaitDone(t), TryInner(t, k), Leave(t)];
    CallsInner(s, call, Runs(t, m) + end);
    InnerCall(s, t, Waiting, S.Step(s.sema, S.Begin(t, Inner(call))), q, S.Ret(k), m, end);
    SoloRedeems(s.(sema := q), t, k);
  }

  // The call of the semaphore a dequeue makes.
  function Inner(call: Action): S.Call
    requires call.CallTry? || call.CallWait?
  {
    if call.CallTry? then S.TryWaitMany(call.max) else S.WaitMany(call.max, call.timeout)
  }

  lemma CallsInner(b: State, call: Action, rest: seq<Action>)
    requires Shape(b) && (call.CallTry? || call.CallWait?) && call.t < |b.phases| && call.t < |b.sema.asked|
    requires b.sema.threads[call.t] == S.Idle
    ensures var called := b.(phases := b.phases[call.t := Waiting], sema := S.Step(b.sema, S.Begin(call.t, Inner(call))));
            Shape(called) && Perform(Put(b, call.t, Outside, S.Idle), [call] + rest) == Perform(called, rest)
  {
    var s := Put(b, call.t, Outside, S.Idle);
    assert s.sema.threads == b.sema.threads;
    PerformFirst(s, call, rest);
    assert b.phases[call.t := Outside][call.t := Waiting] == b.phases[call.t := Waiting];
  }

  lemma SoloRedeems(b: State, t: Tid, k: nat)
    requires Shape(b) && t < |b.phases| && k <= b.elements
    ensures Perform(Put(b, t, Waiting, S.Ret(k)), [WaitDone(t), TryInner(t, k), Leave(t)])
         == Put(b.(elements := b.elements - k, sema := b.sema.(returned := b.sema.returned + k)), t, Outside, S.Idle)
  {
    var none: seq<Action> := [];
    assert [WaitDone(t), TryInner(t, k), Leave(t)] == [WaitDone(t)] + ([TryInner(t, k)] + ([Leave(t)] + none));
    WaitIsDone(b, t, k, [TryInner(t, k)] + ([Leave(t)] + none));
    var d := b.(sema := b.sema.(returned := b.sema.returned + k));
    RedeemsAll(d, t, k, [Leave(t)] + none);
    Leaves(d.(elements := b.elements - k), t);
  }

  lemma WaitIsDone(b: State, t: Tid, k: nat, rest: seq<Action>)
    requires Shape(b) && t < |b.phases|
    ensures Perform(Put(b, t, Waiting, S.Ret(k)), [WaitDone(t)] + rest)
         == Perform(Put(b.(sema := b.sema.(returned := b.sema.returned + k)), t, Redeem(k), S.Idle), rest)
  {
    PerformFirst(Put(b, t, Waiting, S.Ret(k)), WaitDone(t), rest);
    PutTwice(b.(sema := b.sema.(returned := b.sema.returned + k)), t, Waiting, S.Ret(k), Redeem(k), S.Idle);
  }

  lemma RedeemsAll(b: State, t: Tid, k: nat, rest: seq<Action>)
    requires Shape(b) && t < |b.phases| && k <= b.elements
    ensures Perform(Put(b, t, Redeem(k), S.Idle), [TryInner(t, k)] + rest)
         == Perform(Put(b.(elements := b.elements - k), t, Redeem(0), S.Idle), rest)
  {
    PerformFirst(Put(b, t, Redeem(k), S.Idle), TryInner(t, k), rest);
    PutTwice(b.(elements := b.elements - k), t, Redeem(k), S.Idle, Redeem(0), S.Idle);
  }

  lemma Leaves(b: State, t: Tid)
    requires Shape(b) && t < |b.phases|
    ensures Perform(Put(b, t, Redeem(0), S.Idle), [Leave(t)] + []) == Put(b, t, Outside, S.Idle)
  {
    PerformFirst(Put(b, t, Redeem(0), S.Idle), Leave(t), []);
    PutTwice(b, t, Redeem(0), S.Idle, Outside, S.Idle);
  }
}
