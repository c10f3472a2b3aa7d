/** The lightweight semaphore: a signed count in front of a kernel semaphore, run by any
    number of threads, one atomic access or kernel call per step. `wait` and `tryWait`
    are the many-forms with max = 1: both turn a positive count c into c - 1. */
module Semaphore {
  import opened Sums

  type Tid = nat

  datatype Timeout = Never | AtOnce | Later

  datatype Call =
    | TryWaitMany(max: nat)
    | WaitMany(max: nat, timeout: Timeout)
    | Signal(n: nat)

  // What follows the exchange loop of tryWaitMany.
  datatype Next = Finish | ThenSlow(timeout: Timeout) | AddOne

  datatype PC =
    | Idle
    | TryLoad(max: nat, next: Next)
    | TryCas(was: int, max: nat, next: Next)
    | SpinLoad(left: nat, max: nat, timeout: Timeout)
    | SpinCas(was: int, left: nat, max: nat, timeout: Timeout)
    | FetchSub(max: nat, timeout: Timeout)
    | Blocked(max: nat, timeout: Timeout)
    | Compensate(max: nat)
    | Seen(was: int, max: nat)
    | Ret(got: nat)
    | SignalAdd(n: nat)
    | Post(left: nat)

  datatype State = State(
    count: int, kernel: nat, maxSpins: nat, threads: seq<PC>,
    // bookkeeping: permits made, taken and handed back, and what each thread's call asked for
    initial: nat, signalled: nat, acquired: nat, returned: nat, asked: seq<nat>)

  // `lucky` resolves what the code leaves open: a weak exchange failing for no reason, and
  // a kernel wait ending with a permit or with a timeout or error.
  datatype Action = Begin(t: Tid, call: Call) | Run(t: Tid, lucky: bool) | Return(t: Tid)

  function Entry(call: Call): PC {
    match call
    case TryWaitMany(max) => TryLoad(max, Finish)
    case WaitMany(max, timeout) => TryLoad(max, ThenSlow(timeout))
    case Signal(n) => SignalAdd(n)
  }

  // The part of a positive count that is left after taking at most max.
  function Remaining(was: int, max: nat): int {
    if was > max then was - max else 0
  }

  // After the exchange loop gave up with nothing.
  function Empty(s: State, max: nat, next: Next): PC {
    match next
    case Finish => Ret(0)
    case ThenSlow(timeout) => if max > 0 then SpinLoad(s.maxSpins, max, timeout) else Ret(0)
    case AddOne => Ret(1)
  }

  // After the exchange loop took `got` permits. waitMany goes on to the slow path when the
  // result is zero, which here needs max == 0 and then stops at once.
  function Took(got: nat, next: Next): PC {
    if next.AddOne? then Ret(1 + got) else Ret(got)
  }

  // After the slow path obtained one permit.
  function One(max: nat): PC {
    if max > 1 then TryLoad(max - 1, AddOne) else Ret(1)
  }

  function Goto(s: State, t: Tid, pc: PC): State
    requires t < |s.threads|
  {
    s.(threads := s.threads[t := pc])
  }

  function Acquire(s: State, n: nat): State {
    s.(acquired := s.acquired + n)
  }

  function Tick(s: State, t: Tid, lucky: bool): State
    requires t < |s.threads|
  {
    match s.threads[t]
    case Idle => s
    case TryLoad(max, next) => Goto(s, t, TryCas(s.count, max, next))
    case TryCas(was, max, next) =>
      if was <= 0 then Goto(s, t, Empty(s, max, next))
      else if lucky && s.count == was then
        var got := was - Remaining(was, max);
        Acquire(Goto(s, t, Took(got, next)), got).(count := Remaining(was, max))
      else Goto(s, t, TryCas(s.count, max, next))
    case SpinLoad(left, max, timeout) =>
      if left == 0 then Goto(s, t, FetchSub(max, timeout))
      else if s.count > 0 then Goto(s, t, SpinCas(s.count, left - 1, max, timeout))
      else Goto(s, t, SpinLoad(left - 1, max, timeout))
    case SpinCas(was, left, max, timeout) =>
      if 0 < was == s.count then
        var got := was - Remaining(was, max);
        Acquire(Goto(s, t, Ret(got)), got).(count := Remaining(was, max))
      else Goto(s, t, SpinLoad(left, max, timeout))
    case FetchSub(max, timeout) =>
      var s1 := s.(count := s.count - 1);
      if s.count > 0 then Acquire(Goto(s1, t, One(max)), 1)
      else Goto(s1, t, Blocked(max, timeout))
    case Blocked(max, timeout) =>
      if timeout.AtOnce? || !lucky then Goto(s, t, Compensate(max))
      else if s.kernel > 0 then Acquire(Goto(s, t, One(max)), 1).(kernel := s.kernel - 1)
      else s
    case Compensate(max) => Goto(s, t, Seen(s.count, max))
    case Seen(was, max) =>
      if was >= 0 then
        if s.kernel > 0 then Acquire(Goto(s, t, One(max)), 1).(kernel := s.kernel - 1)
        else Goto(s, t, Compensate(max))
      else if s.count == was then Goto(s, t, Ret(0)).(count := s.count + 1)
      else Goto(s, t, Compensate(max))
    case Ret(_) => s
    case SignalAdd(n) =>
      var release := if -s.count < n then -s.count else n;
      Goto(s, t, if release > 0 then Post(release) else Idle).(
        count := s.count + n, signalled := s.signalled + n)
    case Post(left) =>
      Goto(s, t, if left > 1 then Post(left - 1) else Idle).(kernel := s.kernel + 1)
  }

  function Step(s: State, a: Action): State {
    if a.t >= |s.threads| then s
    else
      match a
      case Begin(t, call) =>
        if s.threads[t] == Idle && t < |s.asked| then
          Goto(s, t, Entry(call)).(asked := s.asked[t := if call.Signal? then 0 else call.max])
        else s
      case Run(t, lucky) => Tick(s, t, lucky)
      case Return(t) =>
        if s.threads[t].Ret? then Goto(s, t, Idle).(returned := s.returned + s.threads[t].got) else s
  }

  function Init(initial: nat, maxSpins: nat, threads: nat): State {
    State(initial, 0, maxSpins, seq(threads, _ => Idle), initial, 0, 0, 0, seq(threads, _ => 0))
  }

  // ---------- Totals over the threads ----------

  datatype Class = Waiting_ | Posting_ | Holding_

  // A slow-path waiter counts one; a signaller what it still has to post; any other thread
  // the permits it took and has not yet returned to its caller.
  function Weight(pc: PC, c: Class): int {
    match c
    case Waiting_ => if pc.Blocked? || pc.Compensate? || pc.Seen? then 1 else 0
    case Posting_ => if pc.Post? then pc.left else 0
    case Holding_ =>
      match pc
      case Ret(got) => got
      case TryLoad(_, next) => if next.AddOne? then 1 else 0
      case TryCas(_, _, next) => if next.AddOne? then 1 else 0
      case _ => 0
  }

  // The most permits a call at this point may still return.
  function Limit(pc: PC): nat {
    match pc
    case TryLoad(max, next) => if next.AddOne? then max + 1 else max
    case TryCas(_, max, next) => if next.AddOne? then max + 1 else max
    case SpinLoad(_, max, _) => AtLeastOne(max)
    case SpinCas(_, _, max, _) => AtLeastOne(max)
    case FetchSub(max, _) => AtLeastOne(max)
    case Blocked(max, _) => AtLeastOne(max)
    case Compensate(max) => AtLeastOne(max)
    case Seen(_, max) => AtLeastOne(max)
    case Ret(got) => got
    case _ => 0
  }

  function AtLeastOne(max: nat): nat {
    if max == 0 then 1 else max
  }

  function Weights(threads: seq<PC>, c: Class): (w: seq<int>)
    ensures |w| == |threads|
  {
    seq(|threads|, t requires 0 <= t < |threads| => Weight(threads[t], c))
  }

  function Total(threads: seq<PC>, c: Class): int {
    Sum(Weights(threads, c))
  }

  lemma TotalGoto(threads: seq<PC>, t: Tid, pc: PC, c: Class)
    requires t < |threads|
    ensures Total(threads[t := pc], c) == Total(threads, c) - Weight(threads[t], c) + Weight(pc, c)
  {
    assert Weights(threads[t := pc], c) == Weights(threads, c)[t := Weight(pc, c)];
    SumUpdate(Weights(threads, c), t, Weight(pc, c));
  }

  lemma TotalAtLeast(threads: seq<PC>, t: Tid, c: Class)
    requires t < |threads|
    ensures 0 <= Weight(threads[t], c) <= Total(threads, c)
  {
    SumAtLeast(Weights(threads, c), t);
  }

  lemma IdleTotals(threads: seq<PC>)
    requires forall t :: 0 <= t < |threads| ==> threads[t] == Idle
    ensures forall c: Class :: Total(threads, c) == 0
  {
    forall c: Class ensures Total(threads, c) == 0 {
      SumZero(Weights(threads, c));
    }
  }

  // ---------- Conservation ----------

  function Owed(count: int): nat {
    if count < 0 then -count else 0
  }

  ghost predicate Inv(s: State) {
    && s.count + Total(s.threads, Waiting_) == s.initial + s.signalled - s.acquired
    && Owed(s.count) == Total(s.threads, Waiting_) - s.kernel - Total(s.threads, Posting_)
    && s.acquired == s.returned + Total(s.threads, Holding_)
    && (forall t :: 0 <= t < |s.threads| && s.threads[t].Post? ==> 0 < s.threads[t].left)
    && |s.asked| == |s.threads|
    && (forall t :: 0 <= t < |s.threads| ==> Limit(s.threads[t]) <= s.asked[t])
  }

  // What the move of one thread adds to a total.
  function Gain(s: State, s': State, t: Tid, c: Class): int
    requires t < |s.threads| == |s'.threads|
  {
    Weight(s'.threads[t], c) - Weight(s.threads[t], c)
  }

  // The moving thread's own books balance.
  ghost predicate Balanced(s: State, s': State, t: Tid)
    requires t < |s.threads| == |s'.threads|
  {
    && s'.threads == s.threads[t := s'.threads[t]]
    && s'.initial == s.initial
    && s'.count - s.count + Gain(s, s', t, Waiting_) == s'.signalled - s.signalled - (s'.acquired - s.acquired)
    && Owed(s'.count) - Owed(s.count)
       == Gain(s, s', t, Waiting_) - (s'.kernel - s.kernel) - Gain(s, s', t, Posting_)
    && s'.acquired - s.acquired == s'.returned - s.returned + Gain(s, s', t, Holding_)
    && (s'.threads[t].Post? ==> 0 < s'.threads[t].left)
    && |s'.asked| == |s.asked|
    && (forall u :: 0 <= u < |s.asked| && u != t ==> s'.asked[u] == s.asked[u])
    && (t < |s.asked| && Limit(s.threads[t]) <= s.asked[t] ==> Limit(s'.threads[t]) <= s'.asked[t])
  }

  lemma BalancedKeepsInv(s: State, s': State, t: Tid)
    requires Inv(s) && t < |s.threads| == |s'.threads| && Balanced(s, s', t)
    ensures Inv(s')
  {
    TotalGoto(s.threads, t, s'.threads[t], Waiting_);
    TotalGoto(s.threads, t, s'.threads[t], Posting_);
    TotalGoto(s.threads, t, s'.threads[t], Holding_);
  }

  // Fast paths: the exchange loops and the spinning.
  lemma FastBalances(s: State, t: Tid, lucky: bool)
    requires t < |s.threads|
    requires var pc := s.threads[t]; pc.Idle? || pc.TryLoad? || pc.TryCas? || pc.SpinLoad? || pc.SpinCas?
    ensures |Tick(s, t, lucky).threads| == |s.threads| && Balanced(s, Tick(s, t, lucky), t)
  {
  }

  // Slow paths: the unconditional decrement, the kernel wait and the compensation loop.
  lemma SlowBalances(s: State, t: Tid, lucky: bool)
    requires t < |s.threads|
    requires var pc := s.threads[t]; pc.FetchSub? || pc.Blocked? || pc.Compensate? || pc.Seen?
    ensures |Tick(s, t, lucky).threads| == |s.threads| && Balanced(s, Tick(s, t, lucky), t)
  {
  }

  lemma SignalBalances(s: State, t: Tid, lucky: bool)
    requires t < |s.threads|
    requires var pc := s.threads[t]; pc.Ret? || pc.SignalAdd? || (pc.Post? && 0 < pc.left)
    ensures |Tick(s, t, lucky).threads| == |s.threads| && Balanced(s, Tick(s, t, lucky), t)
  {
  }

  /** Every step of every thread balances, so every interleaving keeps the invariant. */
  lemma StepInv(s: State, a: Action)
    requires Inv(s)
    ensures Inv(Step(s, a)) && |Step(s, a).threads| == |s.threads|
    ensures Step(s, a).initial == s.initial
  {
    if a.t < |s.threads| {
      if a.Run? {
        var pc := s.threads[a.t];
        if pc.FetchSub? || pc.Blocked? || pc.Compensate? || pc.Seen? {
          SlowBalances(s, a.t, a.lucky);
        } else if pc.Ret? || pc.SignalAdd? || pc.Post? {
          SignalBalances(s, a.t, a.lucky);
        } else {
          FastBalances(s, a.t, a.lucky);
        }
      }
      assert Balanced(s, Step(s, a), a.t);
      BalancedKeepsInv(s, Step(s, a), a.t);
    }
  }

  lemma InitInv(initial: nat, maxSpins: nat, threads: nat)
    ensures Inv(Init(initial, maxSpins, threads))
  {
    IdleTotals(Init(initial, maxSpins, threads).threads);
  }

  ghost function Started(initial: nat, maxSpins: nat, threads: nat): (s: State)
    ensures Inv(s)
  {
    InitInv(initial, maxSpins, threads);
    Init(initial, maxSpins, threads)
  }

  /** The state after a whole schedule; conservation holds over every run. */
  ghost function Execute(s: State, actions: seq<Action>): (r: State)
    requires Inv(s)
    ensures Inv(r) && r.initial == s.initial && |r.threads| == |s.threads|
    decreases |actions|
  {
    if actions == [] then s
    else
      var before := Execute(s, actions[..|actions| - 1]);
      StepInv(before, actions[|actions| - 1]);
      Step(before, actions[|actions| - 1])
  }

  ghost predicate Reachable(s: State) {
    exists initial: nat, maxSpins: nat, threads: nat, actions ::
      s == Execute(Started(initial, maxSpins, threads), actions)
  }

  /** Permits handed to callers never exceed the initial count plus the signals, through
      timeouts, the compensation loop and multi-acquires. */
  lemma NeverOversold(s: State)
    requires Reachable(s)
    ensures s.returned <= s.acquired <= s.initial + s.signalled
  {
    assert Inv(s);
    SumNonNeg(Weights(s.threads, Waiting_));
    SumNonNeg(Weights(s.threads, Posting_));
    SumNonNeg(Weights(s.threads, Holding_));
  }

  /** A call returns at most what it asked for. */
  lemma ReturnsAtMostAsked(s: State, t: Tid)
    requires Reachable(s) && t < |s.threads| && s.threads[t].Ret?
    ensures t < |s.asked| && s.threads[t].got <= s.asked[t]
  {
    assert Inv(s);
    assert Limit(s.threads[t]) <= s.asked[t];
  }

  /** A waiter in the compensation loop that would see a non-negative count has a kernel
      permit coming: the permits posted or about to be posted match the waiters one to one. */
  lemma PermitComing(s: State, t: Tid)
    requires Reachable(s) && t < |s.threads| && Weight(s.threads[t], Waiting_) == 1 && 0 <= s.count
    ensures s.kernel + Total(s.threads, Posting_) == Total(s.threads, Waiting_) >= 1
  {
    assert Inv(s);
    TotalAtLeast(s.threads, t, Waiting_);
  }

  /** No lost wake-up: when waiters remain and no permit is posted or coming, every permit
      ever made has been acquired. */
  lemma BlockedOnlyWhenExhausted(s: State)
    requires Reachable(s) && 0 < Total(s.threads, Waiting_)
    requires s.kernel == 0 && Total(s.threads, Posting_) == 0
    ensures s.acquired == s.initial + s.signalled && s.count == -Total(s.threads, Waiting_)
  {
    assert Inv(s);
  }

  /** Once every call has returned, the count alone is what is left and the kernel semaphore
      is drained. */
  lemma QuiescentCount(s: State)
    requires Reachable(s) && forall t :: 0 <= t < |s.threads| ==> s.threads[t] == Idle
    ensures s.kernel == 0 && 0 <= s.count == s.initial + s.signalled - s.returned
  {
    assert Inv(s);
    IdleTotals(s.threads);
  }

  // ---------- What a call does alone ----------

  // n steps of thread t while all the others stand still, wherever they are.
  function Alone(s: State, t: Tid, lucky: bool, n: nat): (r: State)
    requires t < |s.threads|
    decreases n
  {
    if n == 0 then s else Alone(Tick(s, t, lucky), t, lucky, n - 1)
  }

  // One step, to a state that is s but for what is said and the program counter.
  lemma Moves(s: State, b: State, t: Tid, lucky: bool, from: PC, to: PC, n: nat)
    requires t < |s.threads| == |b.threads| && s.threads == b.threads
    requires Tick(Goto(s, t, from), t, lucky) == Goto(Goto(s, t, from), t, to).(
               count := b.count, kernel := b.kernel, signalled := b.signalled, acquired := b.acquired)
    requires b == s.(count := b.count, kernel := b.kernel, signalled := b.signalled, acquired := b.acquired)
    ensures Alone(Goto(s, t, from), t, lucky, n + 1) == Alone(Goto(b, t, to), t, lucky, n)
  {
    assert s.threads[t := from][t := to] == s.threads[t := to];
    assert Goto(b, t, to) == Goto(Goto(s, t, from), t, to).(
      count := b.count, kernel := b.kernel, signalled := b.signalled, acquired := b.acquired);
  }

  lemma LoadsCount(s: State, t: Tid, lucky: bool, max: nat, next: Next, n: nat)
    requires t < |s.threads|
    ensures Alone(Goto(s, t, TryLoad(max, next)), t, lucky, n + 1)
         == Alone(Goto(s, t, TryCas(s.count, max, next)), t, lucky, n)
  {
    Moves(s, s, t, lucky, TryLoad(max, next), TryCas(s.count, max, next), n);
  }

  // The exchange takes as many as asked for or all there are.
  lemma TakesCount(s: State, t: Tid, max: nat, next: Next, n: nat)
    requires t < |s.threads| && 0 < s.count
    ensures var got := if max < s.count then max else s.count;
            Alone(Goto(s, t, TryCas(s.count, max, next)), t, true, n + 1)
            == Alone(Goto(s.(count := s.count - got, acquired := s.acquired + got), t, Took(got, next)), t, true, n)
  {
    var got := if max < s.count then max else s.count;
    Moves(s, s.(count := s.count - got, acquired := s.acquired + got), t, true,
          TryCas(s.count, max, next), Took(got, next), n);
  }

  lemma FindsNone(s: State, t: Tid, lucky: bool, max: nat, next: Next, n: nat)
    requires t < |s.threads| && s.count <= 0
    ensures Alone(Goto(s, t, TryCas(s.count, max, next)), t, lucky, n + 1) == Alone(Goto(s, t, Empty(s, max, next)), t, lucky, n)
  {
    Moves(s, s, t, lucky, TryCas(s.count, max, next), Empty(s, max, next), n);
  }

  // Thread t idle, with its call noted.
  function Noted(s: State, t: Tid, call: Call): State
    requires t < |s.asked|
  {
    s.(asked := s.asked[t := if call.Signal? then 0 else call.max])
  }

  /** With permits there, an acquiring call that runs alone takes as many as it asked for or all
      there are, trying or waiting, and returns their number. */
  lemma SoloTakes(s: State, t: Tid, call: Call)
    requires t < |s.threads| && t < |s.asked| && s.threads[t] == Idle && !call.Signal? && 0 < s.count
    ensures var got := if call.max < s.count then call.max else s.count;
            Alone(Step(s, Begin(t, call)), t, true, 2)
            == Goto(Noted(s, t, call).(count := s.count - got, acquired := s.acquired + got), t, Ret(got))
  {
    var next := if call.TryWaitMany? then Finish else ThenSlow(call.timeout);
    LoadsCount(Noted(s, t, call), t, true, call.max, next, 1);
    TakesCount(Noted(s, t, call), t, call.max, next, 0);
  }

  /** With none there, trying returns 0 and changes nothing. */
  lemma SoloTriesInVain(s: State, t: Tid, max: nat)
    requires t < |s.threads| && t < |s.asked| && s.threads[t] == Idle && s.count <= 0
    ensures Alone(Step(s, Begin(t, TryWaitMany(max))), t, true, 2) == Goto(Noted(s, t, TryWaitMany(max)), t, Ret(0))
  {
    var b := Noted(s, t, TryWaitMany(max));
    LoadsCount(b, t, true, max, Finish, 1);
    FindsNone(b, t, true, max, Finish, 0);
  }

  /** A wait with none there that ends without a permit, by timeout or error, gives its decrement
      back and returns 0. */
  lemma SoloWaitsInVain(s: State, t: Tid, max: nat, timeout: Timeout)
    requires t < |s.threads| && t < |s.asked| && s.threads[t] == Idle && s.count <= 0 && 0 < max
    ensures var call := WaitMany(max, timeout);
            Alone(Step(s, Begin(t, call)), t, false, s.maxSpins + 7) == Goto(Noted(s, t, call), t, Ret(0))
  {
    var b := Noted(s, t, WaitMany(max, timeout));
    LoadsCount(b, t, false, max, ThenSlow(timeout), s.maxSpins + 6);
    FindsNone(b, t, false, max, ThenSlow(timeout), s.maxSpins + 5);
    SpinsOut(b, t, max, timeout, s.maxSpins, 4);
    GivesUp(b, t, max, timeout, 0);
  }

  lemma {:induction false} SpinsOut(b: State, t: Tid, max: nat, timeout: Timeout, left: nat, n: nat)
    requires t < |b.threads| && b.count <= 0
    ensures Alone(Goto(b, t, SpinLoad(left, max, timeout)), t, false, left + 1 + n)
         == Alone(Goto(b, t, FetchSub(max, timeout)), t, false, n)
    decreases left
  {
    if left == 0 {
      Moves(b, b, t, false, SpinLoad(0, max, timeout), FetchSub(max, timeout), n);
    } else {
      Moves(b, b, t, false, SpinLoad(left, max, timeout), SpinLoad(left - 1, max, timeout), left + n);
      SpinsOut(b, t, max, timeout, left - 1, n);
    }
  }

  lemma GivesUp(b: State, t: Tid, max: nat, timeout: Timeout, n: nat)
    requires t < |b.threads| && b.count <= 0
    ensures Alone(Goto(b, t, FetchSub(max, timeout)), t, false, n + 4) == Alone(Goto(b, t, Ret(0)), t, false, n)
  {
    var d := b.(count := b.count - 1);
    Moves(b, d, t, false, FetchSub(max, timeout), Blocked(max, timeout), n + 3);
    Moves(d, d, t, false, Blocked(max, timeout), Compensate(max), n + 2);
    Moves(d, d, t, false, Compensate(max), Seen(d.count, max), n + 1);
    Moves(d, b, t, false, Seen(d.count, max), Ret(0), n);
  }

  /** A sleeping waiter that finds a kernel permit takes it, and with it what it may of the count,
      and returns the sum. */
  lemma SoloWakes(s: State, t: Tid, max: nat, timeout: Timeout)
    requires t < |s.threads| && !timeout.AtOnce? && 0 < s.kernel
    ensures var more := if max <= 1 || s.count <= 0 then 0 else if max - 1 < s.count then max - 1 else s.count;
            Alone(Goto(s, t, Blocked(max, timeout)), t, true, if max > 1 then 3 else 1)
            == Goto(s.(kernel := s.kernel - 1, count := s.count - more, acquired := s.acquired + 1 + more), t, Ret(1 + more))
  {
    var d := s.(kernel := s.kernel - 1, acquired := s.acquired + 1);
    Moves(s, d, t, true, Blocked(max, timeout), One(max), if max > 1 then 2 else 0);
    TakesMore(d, t, max);
  }

  // With one permit taken, what more there is of the count.
  lemma TakesMore(d: State, t: Tid, max: nat)
    requires t < |d.threads|
    ensures var more := if max <= 1 || d.count <= 0 then 0 else if max - 1 < d.count then max - 1 else d.count;
            Alone(Goto(d, t, One(max)), t, true, if max > 1 then 2 else 0)
            == Goto(d.(count := d.count - more, acquired := d.acquired + more), t, Ret(1 + more))
  {
    if max > 1 {
      LoadsCount(d, t, true, max - 1, AddOne, 1);
      if d.count > 0 {
        TakesCount(d, t, max - 1, AddOne, 0);
      } else {
        FindsNone(d, t, true, max - 1, AddOne, 0);
      }
    }
  }

  /** A spinning waiter that sees permits takes as many as it may or there are. */
  lemma SoloSpins(s: State, t: Tid, left: nat, max: nat, timeout: Timeout)
    requires t < |s.threads| && 0 < left && 0 < s.count
    ensures var got := if max < s.count then max else s.count;
            Alone(Goto(s, t, SpinLoad(left, max, timeout)), t, true, 2)
            == Goto(s.(count := s.count - got, acquired := s.acquired + got), t, Ret(got))
  {
    var got := if max < s.count then max else s.count;
    Moves(s, s, t, true, SpinLoad(left, max, timeout), SpinCas(s.count, left - 1, max, timeout), 1);
    Moves(s, s.(count := s.count - got, acquired := s.acquired + got), t, true,
          SpinCas(s.count, left - 1, max, timeout), Ret(got), 0);
  }

  // How many steps the spin may still take.
  function SpinLeft(pc: PC): nat {
    match pc
    case SpinLoad(left, _, _) => 2 * left + 1
    case SpinCas(_, left, _, _) => 2 * left + 2
    case _ => 0
  }

  /** Every step of a spin, whatever the count is, brings it nearer to its end. */
  lemma SpinsDown(s: State, t: Tid, lucky: bool)
    requires t < |s.threads| && (s.threads[t].SpinLoad? || s.threads[t].SpinCas?)
    ensures |Tick(s, t, lucky).threads| == |s.threads|
    ensures SpinLeft(Tick(s, t, lucky).threads[t]) < SpinLeft(s.threads[t])
  {
  }

  /** A waiter that timed out but sees the count made up for it takes the kernel permit instead. */
  lemma SoloCompensates(s: State, t: Tid, max: nat)
    requires t < |s.threads| && 0 <= s.count && 0 < s.kernel
    ensures var more := if max <= 1 || s.count <= 0 then 0 else if max - 1 < s.count then max - 1 else s.count;
            Alone(Goto(s, t, Compensate(max)), t, true, if max > 1 then 4 else 2)
            == Goto(s.(kernel := s.kernel - 1, count := s.count - more, acquired := s.acquired + 1 + more), t, Ret(1 + more))
  {
    var d := s.(kernel := s.kernel - 1, acquired := s.acquired + 1);
    Moves(s, s, t, true, Compensate(max), Seen(s.count, max), if max > 1 then 3 else 1);
    Moves(s, d, t, true, Seen(s.count, max), One(max), if max > 1 then 2 else 0);
    TakesMore(d, t, max);
  }

  /** A signal adds its number to the count and posts a kernel permit for each waiter it makes up
      for: as many as the count was below zero, but no more than the number. */
  lemma SoloSignals(s: State, t: Tid, n: nat)
    requires t < |s.threads| && t < |s.asked| && s.threads[t] == Idle
    ensures var k: nat := if 0 <= s.count then 0 else if -s.count < n then -s.count else n;
            Alone(Step(s, Begin(t, Signal(n))), t, true, k + 1)
            == Goto(Noted(s, t, Signal(n)).(count := s.count + n, signalled := s.signalled + n, kernel := s.kernel + k), t, Idle)
  {
    var k: nat := if 0 <= s.count then 0 else if -s.count < n then -s.count else n;
    var b := Noted(s, t, Signal(n));
    var d := b.(count := s.count + n, signalled := s.signalled + n);
    Moves(b, d, t, true, SignalAdd(n), if k > 0 then Post(k) else Idle, k);
    if k > 0 {
      Posts(d, t, k);
    }
  }

  lemma {:induction false} Posts(b: State, t: Tid, left: nat)
    requires t < |b.threads| && 0 < left
    ensures Alone(Goto(b, t, Post(left)), t, true, left) == Goto(b.(kernel := b.kernel + left), t, Idle)
    decreases left
  {
    var d := b.(kernel := b.kernel + 1);
    Moves(b, d, t, true, Post(left), if left > 1 then Post(left - 1) else Idle, left - 1);
    if left > 1 {
      Posts(d, t, left - 1);
    }
  }

  // ---------- When a try comes back with nothing ----------

  ghost predicate IsRun(states: seq<State>, actions: seq<Action>) {
    |states| == |actions| + 1 && forall i :: 0 <= i < |actions| ==> states[i + 1] == Step(states[i], actions[i])
  }

  // A run in which thread t, idle at first, makes one call that tries for `max` permits.
  ghost predicate OneTry(states: seq<State>, actions: seq<Action>, t: Tid, max: nat) {
    && IsRun(states, actions) && actions != [] && t < |states[0].threads| && t < |states[0].asked|
    && states[0].threads[t] == Idle && actions[0] == Begin(t, TryWaitMany(max))
    && forall i :: 1 <= i < |actions| && actions[i].t == t ==> actions[i].Run?
  }

  // There was nothing to take at a moment after the call began.
  ghost predicate SawNone(states: seq<State>, end: nat)
    requires end < |states|
  {
    exists k: nat :: 1 <= k <= end && states[k].count <= 0
  }

  // Still trying, having seen permits if anything, or coming back with some.
  predicate Hopeful(pc: PC, max: nat) {
    match pc
    case TryLoad(m, next) => m == max && next == Finish
    case TryCas(was, m, next) => 0 < was && m == max && next == Finish
    case Ret(got) => 0 < got
    case _ => false
  }

  lemma HopefulStep(s: State, a: Action, t: Tid, max: nat)
    requires t < |s.threads| && 0 < max && Hopeful(s.threads[t], max) && (a.t == t ==> a.Run?)
    ensures |Step(s, a).threads| == |s.threads|
    ensures Hopeful(Step(s, a).threads[t], max) || Step(s, a).count <= 0
  {
  }

  lemma {:induction false} HopefulGoesOn(states: seq<State>, actions: seq<Action>, t: Tid, max: nat, end: nat)
    requires OneTry(states, actions, t, max) && 0 < max && 1 <= end <= |actions|
    ensures t < |states[end].threads| && (Hopeful(states[end].threads[t], max) || SawNone(states, end))
  {
    assert states[end] == Step(states[end - 1], actions[end - 1]);
    if end > 1 {
      HopefulGoesOn(states, actions, t, max, end - 1);
      if Hopeful(states[end - 1].threads[t], max) {
        HopefulStep(states[end - 1], actions[end - 1], t, max);
      }
    }
  }

  /** In any run, among any other threads, a try for at least one permit returns 0 only if the
      count was not positive at a moment during the call. */
  lemma EmptyHandedOnlyIfNone(states: seq<State>, actions: seq<Action>, t: Tid, max: nat)
    requires OneTry(states, actions, t, max) && 0 < max
    requires t < |states[|actions|].threads| && states[|actions|].threads[t] == Ret(0)
    ensures SawNone(states, |actions|)
  {
    HopefulGoesOn(states, actions, t, max, |actions|);
  }
}
