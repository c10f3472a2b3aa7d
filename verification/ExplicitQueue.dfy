/** One producer's queue as a whole: the ticket protocol of DequeueTickets and the blocks of
    BlockReuse run side by side over the same tail and head. The step with which a consumer adds
    to the head claims its range in the blocks, the producer builds and publishes in both, and a
    consumer's move out of a block is the delivery of the ticket protocol. */
module ExplicitQueue {
  import opened BlockIndex
  import B = BlockReuse
  import D = DequeueTickets

  type Tid = nat

  datatype State<T> = State(tickets: D.State<T>, store: B.State<T>)

  datatype Action<T> =
    | Grow(junk: seq<Entry>)
    | Take
    | Write
    | Build(x: T)
    | Publish
    | Begin(t: Tid, kind: D.Kind)
    | Run(t: Tid)

  ghost function Step<T>(s: State<T>, a: Action<T>): State<T>
    requires B.Shape(s.store)
  {
    match a
    case Grow(junk) => s.(store := B.Step(s.store, B.Grow(junk)))
    case Take => s.(store := B.Step(s.store, B.Take))
    case Write => s.(store := B.Step(s.store, B.Write))
    case Build(x) =>
      if B.HasRoom(s.store) then
        State(D.Step(s.tickets, D.Construct(x)), B.Step(s.store, B.Build(x)))
      else s
    case Publish => State(D.Step(s.tickets, D.Publish), B.Step(s.store, B.Publish))
    case Begin(t, kind) => s.(tickets := D.Step(s.tickets, D.Begin(t, kind)))
    case Run(t) => if t < |s.tickets.threads| && t < |s.store.consumers| then Consume(s, t) else s
  }

  ghost function Consume<T>(s: State<T>, t: Tid): State<T>
    requires B.Shape(s.store) && t < |s.tickets.threads| && t < |s.store.consumers|
  {
    var d, b := s.tickets.threads[t], s.store.consumers[t];
    if d.AddHead? && 0 < d.won then
      State(D.Tick(s.tickets, t), B.Step(s.store, B.Claim(t, d.won)))
    else if b.Idle? then s.(tickets := D.Tick(s.tickets, t))
    else
      var store := B.Consume(s.store, t);
      State(if Delivers(b) || Ends(b) then D.Tick(s.tickets, t) else s.tickets, store)
  }

  // The consumer's next step moves an element out, or ends its range.
  predicate Delivers<T>(b: B.PC<T>) {
    b.InBlock? && !B.AtPartEnd(b)
  }

  predicate Ends<T>(b: B.PC<T>) {
    B.AtPartEnd(b) && B.Next(b) >= B.End(b)
  }

  // A thread that reads owns in the blocks what it still has to read.
  predicate Link<T>(d: D.PC, b: B.PC<T>) {
    if b.Idle? then d.Read? ==> d.left == 0
    else d.Read? && d.first == B.Next(b) && d.first + d.left == B.End(b)
  }

  ghost predicate Linked<T>(s: State<T>) {
    && s.store.tail == s.tickets.tail && s.store.head == s.tickets.head && s.store.items == s.tickets.slots
    && |s.store.consumers| == |s.tickets.threads|
    && forall t :: 0 <= t < |s.tickets.threads| ==> Link(s.tickets.threads[t], s.store.consumers[t])
  }

  ghost predicate Inv<T>(s: State<T>) {
    D.Inv(s.tickets) && B.Inv(s.store) && Linked(s)
  }

  // ---------- One step keeps the two in line ----------

  // One thread and its consumer moved, in line with each other.
  lemma LinkedKeeps<T>(s: State<T>, s': State<T>, t: Tid)
    requires Linked(s) && t < |s.tickets.threads|
    requires s'.store.tail == s'.tickets.tail && s'.store.head == s'.tickets.head && s'.store.items == s'.tickets.slots
    requires |s'.tickets.threads| == |s.tickets.threads| && |s'.store.consumers| == |s.store.consumers|
    requires s'.tickets.threads == s.tickets.threads[t := s'.tickets.threads[t]]
    requires s'.store.consumers == s.store.consumers[t := s'.store.consumers[t]]
    requires Link(s'.tickets.threads[t], s'.store.consumers[t])
    ensures Linked(s')
  {
  }

  lemma TicksKeep<T>(s: D.State<T>, t: Tid)
    requires D.Inv(s) && t < |s.threads|
    ensures D.Inv(D.Tick(s, t))
  {
    var a: D.Action<T> := D.Run(t);
    D.StepInv(s, a);
  }

  lemma IndexSteps<T>(s: B.State<T>, a: B.Action<T>)
    requires B.Inv(s) && (a.Grow? || a.Take? || a.Write?)
    ensures var s' := B.Step(s, a);
            s'.tail == s.tail && s'.head == s.head && s'.items == s.items && s'.consumers == s.consumers
  {
  }

  lemma IndexInv<T>(s: State<T>, a: B.Action<T>)
    requires Inv(s) && (a.Grow? || a.Take? || a.Write?)
    ensures Inv(s.(store := B.Step(s.store, a)))
  {
    IndexSteps(s.store, a);
    B.StepInv(s.store, a);
  }

  lemma BuildInv<T>(s: State<T>, x: T)
    requires Inv(s) && B.HasRoom(s.store)
    ensures Inv(Step(s, Build(x)))
  {
    D.StepInv(s.tickets, D.Construct(x));
    B.StepInv(s.store, B.Build(x));
  }

  lemma PublishInv<T>(s: State<T>)
    requires Inv(s)
    ensures Inv(Step(s, Publish))
  {
    var a: D.Action<T> := D.Publish;
    D.StepInv(s.tickets, a);
    B.StepInv(s.store, B.Publish);
  }

  lemma BeginInv<T>(s: State<T>, t: Tid, kind: D.Kind)
    requires Inv(s)
    ensures Inv(Step(s, Begin(t, kind)))
  {
    D.StepInv(s.tickets, D.Begin(t, kind));
    if t < |s.tickets.threads| && s.tickets.threads[t] == D.Idle {
      assert Link(s.tickets.threads[t], s.store.consumers[t]);
      LinkedKeeps(s, Step(s, Begin(t, kind)), t);
    }
  }

  // Steps of the ticket protocol outside AddHead and Read leave the head and start no reading.
  lemma TicketSteps<T>(s: D.State<T>, t: Tid)
    requires t < |s.threads| && !s.threads[t].Read? && !(s.threads[t].AddHead? && 0 < s.threads[t].won)
    ensures var s' := D.Tick(s, t);
      && s'.tail == s.tail && s'.head == s.head && s'.slots == s.slots
      && |s'.threads| == |s.threads| && s'.threads == s.threads[t := s'.threads[t]]
      && (s'.threads[t].Read? ==> s'.threads[t].left == 0)
  {
  }

  lemma NothingToRead<T>(s: D.State<T>, t: Tid)
    requires t < |s.threads| && s.threads[t].Read? && s.threads[t].left == 0
    ensures D.Tick(s, t) == D.Goto(s, t, D.Idle)
  {
  }

  lemma TicketInv<T>(s: State<T>, t: Tid)
    requires Inv(s) && t < |s.tickets.threads| && s.store.consumers[t].Idle?
    requires !(s.tickets.threads[t].AddHead? && 0 < s.tickets.threads[t].won)
    ensures Inv(Consume(s, t))
  {
    assert Link(s.tickets.threads[t], s.store.consumers[t]);
    TicksKeep(s.tickets, t);
    if s.tickets.threads[t].Read? {
      NothingToRead(s.tickets, t);
    } else {
      TicketSteps(s.tickets, t);
    }
    LinkedKeeps(s, s.(tickets := D.Tick(s.tickets, t)), t);
  }

  /** What the blocks ask of a claim the tickets provide: a thread about to add to the head finds
      its range published, and is not reading. */
  lemma ClaimIsGranted<T>(s: State<T>, t: Tid)
    requires Inv(s) && t < |s.tickets.threads| && s.tickets.threads[t].AddHead?
    ensures s.store.consumers[t] == B.Idle && s.store.head + s.tickets.threads[t].won <= s.store.tail
    ensures 0 < s.tickets.threads[t].won ==>
              B.Step(s.store, B.Claim(t, s.tickets.threads[t].won)).consumers[t]
              == B.Claimed(s.tickets.head, s.tickets.threads[t].won)
  {
    assert Link(s.tickets.threads[t], s.store.consumers[t]);
    TicksKeep(s.tickets, t);
    D.HeadWithinTail(D.Tick(s.tickets, t));
  }

  lemma ClaimInv<T>(s: State<T>, t: Tid)
    requires Inv(s) && t < |s.tickets.threads| && s.tickets.threads[t].AddHead? && 0 < s.tickets.threads[t].won
    ensures Inv(Consume(s, t))
  {
    ClaimIsGranted(s, t);
    TicksKeep(s.tickets, t);
    B.ClaimInv(s.store, t, s.tickets.threads[t].won);
    AddsHead(s.tickets, t);
    LinkedKeeps(s, Consume(s, t), t);
  }

  lemma AddsHead<T>(s: D.State<T>, t: Tid)
    requires t < |s.threads| && s.threads[t].AddHead?
    ensures var s', won := D.Tick(s, t), s.threads[t].won;
      && s'.tail == s.tail && s'.head == s.head + won && s'.slots == s.slots
      && s'.threads == s.threads[t := D.Read(s.head, won)]
  {
  }

  // A step inside the blocks that is no delivery leaves the next index.
  lemma LooksFurther<T>(s: B.State<T>, t: Tid)
    requires B.Inv(s) && t < |s.consumers| && !s.consumers[t].Idle? && !Delivers(s.consumers[t]) && !Ends(s.consumers[t])
    ensures var s', b := B.Consume(s, t), s.consumers[t];
      && s'.tail == s.tail && s'.head == s.head && s'.items == s.items
      && |s'.consumers| == |s.consumers| && s'.consumers == s.consumers[t := s'.consumers[t]]
      && !s'.consumers[t].Idle? && B.Next(s'.consumers[t]) == B.Next(b) && B.End(s'.consumers[t]) == B.End(b)
  {
    if B.AtPartEnd(s.consumers[t]) {
      B.LeaveBlockIs(s, t);
    } else {
      B.KeepsGoing(s, t);
    }
  }

  lemma LookInv<T>(s: State<T>, t: Tid)
    requires Inv(s) && t < |s.tickets.threads| && !s.store.consumers[t].Idle?
    requires !Delivers(s.store.consumers[t]) && !Ends(s.store.consumers[t])
    ensures Inv(Consume(s, t))
  {
    assert Link(s.tickets.threads[t], s.store.consumers[t]);
    B.RunInv(s.store, t);
    LooksFurther(s.store, t);
    LinkedKeeps(s, s.(store := B.Consume(s.store, t)), t);
  }

  // In a delivery both move.
  lemma BothMove<T>(s: State<T>, t: Tid)
    requires Inv(s) && t < |s.tickets.threads| && Delivers(s.store.consumers[t])
    ensures s.tickets.threads[t].Read? && 0 < s.tickets.threads[t].left
    ensures s.tickets.threads[t].first == B.Next(s.store.consumers[t])
    ensures Consume(s, t) == State(D.Tick(s.tickets, t), B.Consume(s.store, t))
  {
    assert Link(s.tickets.threads[t], s.store.consumers[t]);
    assert B.ConsumerOk(s.store, s.store.consumers[t]);
  }

  /** A move out of a block is the delivery of the ticket protocol: the element taken from the
      block's memory is the one the producer built under the thread's next index. */
  lemma DeliversTheTicketsElement<T>(s: State<T>, t: Tid)
    requires Inv(s) && t < |s.tickets.threads| && Delivers(s.store.consumers[t])
    ensures var i, b, s' := s.tickets.threads[t].first, s.store.consumers[t], Consume(s, t);
      && i == B.Next(b) < |s.tickets.slots|
      && s'.store.consumers[t].InBlock? && s'.store.consumers[t].out == b.out + [s.tickets.slots[i]]
      && i !in s.tickets.taken && s'.tickets.taken == s.tickets.taken[i := s.tickets.slots[i]]
      && s'.tickets.threads == s.tickets.threads[t := D.Read(i + 1, s.tickets.threads[t].left - 1)]
  {
    BothMove(s, t);
    B.MovesOne(s.store, t);
    ReadDelivers(s.tickets, t);
  }

  lemma ReadDelivers<T>(s: D.State<T>, t: Tid)
    requires D.Inv(s) && t < |s.threads| && s.threads[t].Read? && 0 < s.threads[t].left
    ensures var i, s' := s.threads[t].first, D.Tick(s, t);
      && i < |s.slots| && i !in s.taken && s'.taken == s.taken[i := s.slots[i]]
      && s'.threads == s.threads[t := D.Read(i + 1, s.threads[t].left - 1)]
      && s'.tail == s.tail && s'.head == s.head && s'.slots == s.slots
  {
    assert D.ThreadOk(s, t);
    assert D.ReaderOk(s, s.threads[t].first);
    D.HeadWithinTail(s);
  }

  lemma DeliverInv<T>(s: State<T>, t: Tid)
    requires Inv(s) && t < |s.tickets.threads| && Delivers(s.store.consumers[t])
    ensures Inv(Consume(s, t))
  {
    DeliversTheTicketsElement(s, t);
    TicksKeep(s.tickets, t);
    B.RunInv(s.store, t);
    B.MovesOne(s.store, t);
    assert Link(s.tickets.threads[t], s.store.consumers[t]);
    ReadDelivers(s.tickets, t);
    LinkedKeeps(s, State(D.Tick(s.tickets, t), B.Consume(s.store, t)), t);
  }

  lemma RangeEnds<T>(s: State<T>, t: Tid)
    requires Inv(s) && t < |s.tickets.threads| && Ends(s.store.consumers[t])
    ensures D.Tick(s.tickets, t) == D.Goto(s.tickets, t, D.Idle)
    ensures var s' := B.Consume(s.store, t);
      && s'.tail == s.store.tail && s'.head == s.store.head && s'.items == s.store.items
      && s'.consumers == s.store.consumers[t := B.Idle]
  {
    assert Link(s.tickets.threads[t], s.store.consumers[t]);
    assert B.ConsumerOk(s.store, s.store.consumers[t]);
    B.LeaveBlockIs(s.store, t);
  }

  lemma EndInv<T>(s: State<T>, t: Tid)
    requires Inv(s) && t < |s.tickets.threads| && Ends(s.store.consumers[t])
    ensures Inv(Consume(s, t))
  {
    TicksKeep(s.tickets, t);
    B.RunInv(s.store, t);
    RangeEnds(s, t);
    LinkedKeeps(s, State(D.Tick(s.tickets, t), B.Consume(s.store, t)), t);
  }

  /** Every step of the producer, of the tickets and of the block walk keeps both invariants and
      keeps the two in line. */
  lemma StepInv<T>(s: State<T>, a: Action<T>)
    requires Inv(s)
    ensures Inv(Step(s, a))
  {
    match a
    case Grow(junk) => IndexInv(s, B.Grow(junk));
    case Take => IndexInv(s, B.Take);
    case Write => IndexInv(s, B.Write);
    case Build(x) => if B.HasRoom(s.store) { BuildInv(s, x); }
    case Publish => PublishInv(s);
    case Begin(t, kind) => BeginInv(s, t, kind);
    case Run(t) => if t < |s.tickets.threads| { RunInv(s, t); }
  }

  lemma RunInv<T>(s: State<T>, t: Tid)
    requires Inv(s) && t < |s.tickets.threads|
    ensures Inv(Consume(s, t))
  {
    var d, b := s.tickets.threads[t], s.store.consumers[t];
    assert Link(d, b);
    if d.AddHead? && 0 < d.won {
      ClaimInv(s, t);
    } else if b.Idle? {
      TicketInv(s, t);
    } else if Delivers(b) {
      DeliverInv(s, t);
    } else if Ends(b) {
      EndInv(s, t);
    } else {
      LookInv(s, t);
    }
  }

  // ---------- Runs ----------

  ghost function Started<T>(k: nat, junk: seq<Entry>, threads: nat): (s: State<T>)
    requires 5 <= k <= 60 && |junk| == Pow2(k)
    ensures Inv(s)
  {
    State(D.Started<T>(threads), B.Started<T>(k, junk, threads))
  }

  /** The state of the queue after a whole schedule; both invariants hold and stay in line. */
  ghost function Execute<T>(s: State<T>, actions: seq<Action<T>>): (r: State<T>)
    requires Inv(s)
    ensures Inv(r)
    decreases |actions|
  {
    if actions == [] then s
    else
      var before := Execute(s, actions[..|actions| - 1]);
      StepInv(before, actions[|actions| - 1]);
      Step(before, actions[|actions| - 1])
  }

  // What a thread still has to read has not been given back.
  lemma ReadingIsHeld<T>(s: State<T>, i: nat)
    requires Inv(s) && i < |s.tickets.readers| && s.tickets.readers[i].Reading?
    ensures i !in s.store.done
  {
    assert D.ReaderOk(s.tickets, i);
    var t := s.tickets.readers[i].t;
    assert Link(s.tickets.threads[t], s.store.consumers[t]);
    assert B.ConsumerOk(s.store, s.store.consumers[t]);
  }

  // An index whose place in its block was given back has been delivered.
  lemma GivenBackIsDelivered<T>(s: State<T>, i: nat)
    requires Inv(s) && i in s.store.done
    ensures Delivered(s, i)
  {
    assert D.ReaderOk(s.tickets, i);
    if s.tickets.readers[i].Reading? {
      ReadingIsHeld(s, i);
    }
  }

  // Element i has been delivered under its own index.
  ghost predicate Delivered<T>(s: State<T>, i: nat) {
    i in s.tickets.taken && i < |s.tickets.slots| && s.tickets.taken[i] == s.tickets.slots[i]
  }

  /** A block is taken over only after every element of the number it had was delivered under
      its own index, in every run of producer and consumers together. */
  lemma ReuseAfterDelivery<T>(k: nat, junk: seq<Entry>, threads: nat, actions: seq<Action<T>>)
    requires 5 <= k <= 60 && |junk| == Pow2(k)
    ensures var s := Execute(Started<T>(k, junk, threads), actions);
            B.Reusable(s.store) ==> forall i :: 0 <= i < (B.Low(s.store) + 1) * BLOCK_SIZE ==> Delivered(s, i)
  {
    var s := Execute(Started<T>(k, junk, threads), actions);
    if B.Reusable(s.store) {
      B.ReusableIsDone(s.store);
      forall i | 0 <= i < (B.Low(s.store) + 1) * BLOCK_SIZE ensures Delivered(s, i) {
        GivenBackIsDelivered(s, i);
      }
    }
  }

  /** What a dequeue has taken from the blocks so far is the run of consecutive elements that its
      tickets won, each delivered under its own index. */
  lemma DequeuedAreConsecutive<T>(k: nat, junk: seq<Entry>, threads: nat, actions: seq<Action<T>>, t: Tid)
    requires 5 <= k <= 60 && |junk| == Pow2(k)
    requires var s := Execute(Started<T>(k, junk, threads), actions);
             t < |s.store.consumers| && s.store.consumers[t].InBlock?
    ensures var s := Execute(Started<T>(k, junk, threads), actions);
            var b := s.store.consumers[t];
      && B.Next(b) <= B.End(b) <= s.tickets.head <= s.tickets.tail <= |s.tickets.slots|
      && b.out == s.tickets.slots[b.first..B.Next(b)]
      && s.tickets.threads[t] == D.Read(B.Next(b), B.End(b) - B.Next(b))
  {
    var s := Execute(Started<T>(k, junk, threads), actions);
    B.OwnElements(s.store, t);
    D.HeadWithinTail(s.tickets);
    assert B.ConsumerOk(s.store, s.store.consumers[t]);
    assert Link(s.tickets.threads[t], s.store.consumers[t]);
  }

  // No dequeue is under way.
  ghost predicate Quiet<T>(s: State<T>) {
    forall t :: 0 <= t < |s.tickets.threads| ==> s.tickets.threads[t] == D.Idle
  }

  /** When no dequeue is under way the tickets balance, exactly the first `head` elements have
      been delivered, each under its index, and the places of exactly those have been given
      back to their blocks. */
  lemma QuietQueue<T>(k: nat, junk: seq<Entry>, threads: nat, actions: seq<Action<T>>)
    requires 5 <= k <= 60 && |junk| == Pow2(k)
    ensures var s := Execute(Started<T>(k, junk, threads), actions);
            Quiet(s) ==>
              && s.tickets.opt - s.tickets.over == s.tickets.head <= s.tickets.tail
              && s.store.done == B.Range(0, s.tickets.head)
              && forall i :: 0 <= i < s.tickets.head ==> Delivered(s, i)
  {
    var s := Execute(Started<T>(k, junk, threads), actions);
    if Quiet(s) {
      D.QuiescentBalance(s.tickets);
      forall t | 0 <= t < |s.store.consumers| ensures s.store.consumers[t] == B.Idle {
        assert Link(s.tickets.threads[t], s.store.consumers[t]);
      }
      B.AllGivenBack(s.store);
    }
  }

  // ---------- One thread alone ----------

  lemma SizesStay<T>(s: State<T>, t: Tid)
    requires Inv(s) && t < |s.tickets.threads|
    ensures t < |s.store.consumers| && Step(s, Run(t)) == Consume(s, t)
    ensures Inv(Consume(s, t)) && |Consume(s, t).tickets.threads| == |s.tickets.threads|
  {
    assert Linked(s);
    RunInv(s, t);
    TickSize(s.tickets, t);
  }

  lemma TickSize<T>(s: D.State<T>, t: Tid)
    requires t < |s.threads|
    ensures |D.Tick(s, t).threads| == |s.threads|
  {
  }

  // The state after n steps of thread t, wherever the others are.
  ghost function Alone<T>(s: State<T>, t: Tid, n: nat): (r: State<T>)
    requires Inv(s) && t < |s.tickets.threads|
    ensures Inv(r) && |r.tickets.threads| == |s.tickets.threads|
    decreases n
  {
    if n == 0 then s
    else
      SizesStay(s, t);
      Alone(Step(s, Run(t)), t, n - 1)
  }

  // How far the tickets have taken the thread, the last stage being the walk through the blocks.
  function Stage(d: D.PC): nat {
    match d
    case Idle => 0
    case LoadTail(_) => 8
    case LoadOver(_, _) => 7
    case LoadOpt(_, _, _) => 6
    case FetchOpt(_, _) => 5
    case Reload(_, _, _) => 4
    case AddOver(_, _, _) => 3
    case AddHead(_, _) => 2
    case Read(_, _) => 1
  }

  lemma TickFalls<T>(s: D.State<T>, t: Tid)
    requires D.Inv(s) && t < |s.threads| && s.threads[t] != D.Idle && !s.threads[t].Read?
    ensures |D.Tick(s, t).threads| == |s.threads| && Stage(D.Tick(s, t).threads[t]) < Stage(s.threads[t])
  {
    assert D.ThreadOk(s, t);
  }

  ghost predicate Nearer<T>(s: State<T>, s': State<T>, t: Tid)
    requires Inv(s) && Inv(s') && t < |s.tickets.threads| == |s'.tickets.threads|
  {
    || Stage(s'.tickets.threads[t]) < Stage(s.tickets.threads[t])
    || (Stage(s'.tickets.threads[t]) == Stage(s.tickets.threads[t])
        && B.StepsLeft(s'.store.consumers[t]) < B.StepsLeft(s.store.consumers[t]))
  }

  // A step of the thread goes forward, and is a step of the ticket protocol or none.
  ghost predicate Advances<T>(s: State<T>, s': State<T>, t: Tid)
    requires Inv(s) && Inv(s') && t < |s.tickets.threads| == |s'.tickets.threads|
  {
    (s'.tickets == s.tickets || s'.tickets == D.Tick(s.tickets, t)) && Nearer(s, s', t)
  }

  lemma StepAdvances<T>(s: State<T>, t: Tid)
    requires Inv(s) && t < |s.tickets.threads| && s.tickets.threads[t] != D.Idle
    ensures Inv(Consume(s, t)) && |Consume(s, t).tickets.threads| == |s.tickets.threads|
    ensures Advances(s, Consume(s, t), t)
  {
    var d, b := s.tickets.threads[t], s.store.consumers[t];
    assert Link(d, b);
    SizesStay(s, t);
    if b.Idle? {
      if d.Read? {
        NothingToRead(s.tickets, t);
      } else {
        TickFalls(s.tickets, t);
      }
    } else {
      B.OwnStepFalls(s.store, t);
      if Delivers(b) {
        DeliversTheTicketsElement(s, t);
      } else if Ends(b) {
        RangeEnds(s, t);
      }
    }
  }

  // n steps of the thread are m steps of the ticket protocol, and end its call.
  ghost predicate EndsAfter<T>(s: State<T>, t: Tid, n: nat, m: nat)
    requires Inv(s) && t < |s.tickets.threads|
  {
    Alone(s, t, n).tickets == D.Ticks(s.tickets, t, m) && Alone(s, t, n).tickets.threads[t] == D.Idle
  }

  // Alone the thread comes to the end of its call.
  ghost predicate WillEnd<T>(s: State<T>, t: Tid)
    requires Inv(s) && t < |s.tickets.threads|
  {
    exists n: nat, m: nat :: EndsAfter(s, t, n, m)
  }

  lemma EndsOneLater<T>(s: State<T>, s': State<T>, t: Tid, n: nat, m: nat)
    requires Inv(s) && Inv(s') && t < |s.tickets.threads| == |s'.tickets.threads| && s' == Consume(s, t)
    requires Advances(s, s', t) && EndsAfter(s', t, n, m)
    ensures WillEnd(s, t)
  {
    D.TickFirst(s.tickets, t, m);
    SizesStay(s, t);
    assert Alone(s, t, n + 1) == Alone(s', t, n);
    assert EndsAfter(s, t, n + 1, if s'.tickets == s.tickets then m else m + 1);
  }

  lemma OneStep<T>(s: State<T>, t: Tid) returns (s': State<T>)
    requires Inv(s) && t < |s.tickets.threads| && s.tickets.threads[t] != D.Idle
    ensures Inv(s') && |s'.tickets.threads| == |s.tickets.threads| && Nearer(s, s', t)
    ensures WillEnd(s', t) ==> WillEnd(s, t)
  {
    StepAdvances(s, t);
    s' := Consume(s, t);
    if n: nat, m: nat :| EndsAfter(s', t, n, m) {
      EndsOneLater(s, s', t, n, m);
    }
  }

  lemma {:induction false} EndsAlone<T>(s: State<T>, t: Tid)
    requires Inv(s) && t < |s.tickets.threads|
    ensures WillEnd(s, t)
    decreases Stage(s.tickets.threads[t]), B.StepsLeft(s.store.consumers[t])
  {
    if s.tickets.threads[t] == D.Idle {
      assert EndsAfter(s, t, 0, 0);
    } else {
      B.BusyHasSteps(s.store, t);
      var s' := OneStep(s, t);
      EndsAlone(s', t);
    }
  }

  ghost predicate EndsWith<T>(s: State<T>, r: State<T>, t: Tid, k: nat)
    requires t < |r.store.consumers|
  {
    D.Dequeued(s.tickets, r.tickets, k) && r.store.consumers[t] == B.Idle
  }

  ghost predicate Takes<T>(s: State<T>, t: Tid, kind: D.Kind, k: nat)
    requires Inv(s) && t < |s.tickets.threads|
    requires Inv(Step(s, Begin(t, kind))) && |Step(s, Begin(t, kind)).tickets.threads| == |s.tickets.threads|
  {
    exists n: nat :: EndsWith(s, Alone(Step(s, Begin(t, kind)), t, n), t, k)
  }

  lemma BeginSize<T>(s: State<T>, t: Tid, kind: D.Kind)
    requires Inv(s)
    ensures Inv(Step(s, Begin(t, kind))) && |Step(s, Begin(t, kind)).tickets.threads| == |s.tickets.threads|
    ensures Step(s, Begin(t, kind)).tickets == D.Step(s.tickets, D.Begin(t, kind))
  {
    StepInv(s, Begin(t, kind));
  }

  /** A dequeue that runs alone, whatever the others were doing when they stalled, walks through
      the blocks to its end and has then taken one element, or as many as it may and there are:
      the next ones from the head, in the order they were enqueued. */
  lemma LoneDequeue<T>(s: State<T>, t: Tid, kind: D.Kind)
    requires Inv(s) && t < |s.tickets.threads| && s.tickets.threads[t] == D.Idle
    requires s.tickets.opt - s.tickets.over < s.tickets.tail
    ensures Inv(Step(s, Begin(t, kind))) && |Step(s, Begin(t, kind)).tickets.threads| == |s.tickets.threads|
    ensures var free := s.tickets.tail - (s.tickets.opt - s.tickets.over);
            var k := if kind.Single? then 1 else if kind.max < free then kind.max else free;
            k <= free <= s.tickets.tail - s.tickets.head && Takes(s, t, kind, k)
  {
    BeginSize(s, t, kind);
    var k := TicketsTake(s.tickets, t, kind);
    LoneEnd(s, Step(s, Begin(t, kind)), t, k, kind);
  }

  lemma TicketsTake<T>(s: D.State<T>, t: Tid, kind: D.Kind) returns (k: nat)
    requires D.Inv(s) && t < |s.threads| && s.threads[t] == D.Idle && s.opt - s.over < s.tail
    ensures var free := s.tail - (s.opt - s.over);
            k == (if kind.Single? then 1 else if kind.max < free then kind.max else free) && k <= free <= s.tail - s.head
    ensures |D.Step(s, D.Begin(t, kind)).threads| == |s.threads|
    ensures D.Dequeued(s, D.Ticks(D.Step(s, D.Begin(t, kind)), t, 7 + k), k)
  {
    D.SoloDequeue(s, t, kind);
    var free := s.tail - (s.opt - s.over);
    k := if kind.Single? then 1 else if kind.max < free then kind.max else free;
  }

  lemma LoneEnd<T>(s: State<T>, s1: State<T>, t: Tid, k: nat, kind: D.Kind)
    requires Inv(s) && Inv(s1) && t < |s.tickets.threads| == |s1.tickets.threads| && s.tickets.threads[t] == D.Idle
    requires s1 == Step(s, Begin(t, kind))
    requires D.Dequeued(s.tickets, D.Ticks(s1.tickets, t, 7 + k), k)
    ensures Takes(s, t, kind, k)
  {
    EndsAlone(s1, t);
    var n: nat, m: nat :| EndsAfter(s1, t, n, m);
    D.OverIsOver(s1.tickets, t, m, 7 + k);
    var r := Alone(s1, t, n);
    assert Link(r.tickets.threads[t], r.store.consumers[t]);
    assert EndsWith(s, r, t, k);
  }

  // ---------- The producer alone ----------

  // The producer's actions as the blocks see them.
  function StoreAction<T>(a: Action<T>): B.Action<T>
    requires !a.Begin? && !a.Run?
  {
    match a
    case Grow(junk) => B.Grow(junk)
    case Take => B.Take
    case Write => B.Write
    case Build(x) => B.Build(x)
    case Publish => B.Publish
  }

  lemma ProducerStep<T>(s: State<T>, a: Action<T>)
    requires Inv(s) && !a.Begin? && !a.Run?
    ensures Inv(Step(s, a)) && Step(s, a).store == B.Step(s.store, StoreAction(a))
    ensures Step(s, a).tickets == s.tickets.(slots := Step(s, a).store.items, tail := Step(s, a).store.tail)
  {
    StepInv(s, a);
  }

  // The actions of one enqueue in turn, as BlockReuse.EnqueueOf.
  function Enqueue<T>(x: T, junk: seq<Entry>): (r: seq<Action<T>>) {
    [Grow(junk), Take, Write, Write, Write, Build(x), Publish]
  }

  ghost function Produce<T>(s: State<T>, actions: seq<Action<T>>): (r: State<T>)
    requires Inv(s) && forall i :: 0 <= i < |actions| ==> !actions[i].Begin? && !actions[i].Run?
    ensures Inv(r)
    decreases |actions|
  {
    if actions == [] then s
    else
      StepInv(s, actions[0]);
      Produce(Step(s, actions[0]), actions[1..])
  }

  function StoreActions<T>(actions: seq<Action<T>>): (r: seq<B.Action<T>>)
    requires forall i :: 0 <= i < |actions| ==> !actions[i].Begin? && !actions[i].Run?
    ensures |r| == |actions| && forall i :: 0 <= i < |r| ==> r[i] == StoreAction(actions[i])
  {
    seq(|actions|, i requires 0 <= i < |actions| => StoreAction(actions[i]))
  }

  lemma {:induction false} ProducesInBoth<T>(s: State<T>, actions: seq<Action<T>>)
    requires Inv(s) && forall i :: 0 <= i < |actions| ==> !actions[i].Begin? && !actions[i].Run?
    ensures var r := Produce(s, actions);
            r.store == B.Perform(s.store, StoreActions(actions)) && r.tickets == s.tickets.(slots := r.store.items, tail := r.store.tail)
    decreases |actions|
  {
    if actions != [] {
      ProducerStep(s, actions[0]);
      ProducesInBoth(Step(s, actions[0]), actions[1..]);
      assert StoreActions(actions)[1..] == StoreActions(actions[1..]);
    } else {
      assert Linked(s);
    }
  }

  // The queue has a place for one more element, in the tail block or in another.
  ghost predicate Accepts<T>(s: State<T>)
    requires B.Shape(s.store)
  {
    s.store.tail < 32 * |s.store.numbers| || B.OldestIsDone(s.store) || B.MoreBlocks(s.store)
  }

  lemma SameActions<T>(x: T, junk: seq<Entry>)
    ensures StoreActions(Enqueue(x, junk)) == B.EnqueueOf(x, junk)
  {
  }

  /** An enqueue while the consumers stand still appends its element to the queue, or leaves the
      whole queue as it was if there is no place for one more. */
  lemma LoneEnqueue<T>(s: State<T>, x: T, junk: seq<Entry>)
    requires Inv(s) && B.Resting(s.store, junk)
    ensures Produce(s, Enqueue(x, junk)).tickets ==
            if Accepts(s) then s.tickets.(slots := s.tickets.slots + [x], tail := s.tickets.tail + 1) else s.tickets
  {
    var actions := Enqueue(x, junk);
    ProducesInBoth(s, actions);
    SameActions(x, junk);
    Stored(s.store, x, junk);
    assert Linked(s);
  }

  lemma Stored<T>(s: B.State<T>, x: T, junk: seq<Entry>)
    requires B.Resting(s, junk)
    ensures var r := B.Perform(s, B.EnqueueOf(x, junk));
            if s.tail < 32 * |s.numbers| || B.OldestIsDone(s) || B.MoreBlocks(s)
            then r.items == s.items + [x] && r.tail == s.tail + 1 else r == s
  {
    B.SoloEnqueue(s, x, junk);
  }

  // Alone the thread, having begun to dequeue one element, gets this one and leaves none.
  ghost predicate GetsLast<T>(q: State<T>, t: Tid, x: T)
    requires Inv(q) && t < |q.tickets.threads|
    requires Inv(Step(q, Begin(t, D.Single))) && |Step(q, Begin(t, D.Single)).tickets.threads| == |q.tickets.threads|
  {
    exists n: nat :: HasGot(q, Alone(Step(q, Begin(t, D.Single)), t, n), x)
  }

  ghost predicate HasGot<T>(q: State<T>, r: State<T>, x: T) {
    && D.Dequeued(q.tickets, r.tickets, 1) && r.tickets.head == q.tickets.tail
    && q.tickets.head in r.tickets.taken && r.tickets.taken[q.tickets.head] == x
  }

  lemma GetsTheLast<T>(q: State<T>, t: Tid)
    requires Inv(q) && t < |q.tickets.threads| && q.tickets.threads[t] == D.Idle
    requires q.tickets.opt - q.tickets.over == q.tickets.head == q.tickets.tail - 1 && q.tickets.tail <= |q.tickets.slots|
    ensures Inv(Step(q, Begin(t, D.Single))) && |Step(q, Begin(t, D.Single)).tickets.threads| == |q.tickets.threads|
    ensures GetsLast(q, t, q.tickets.slots[q.tickets.head])
  {
    LoneDequeue(q, t, D.Single);
    var n: nat :| EndsWith(q, Alone(Step(q, Begin(t, D.Single)), t, n), t, 1);
    TookFirst(q, Alone(Step(q, Begin(t, D.Single)), t, n), t);
  }

  lemma TookFirst<T>(q: State<T>, r: State<T>, t: Tid)
    requires t < |r.store.consumers| && EndsWith(q, r, t, 1) && q.tickets.head < |q.tickets.slots|
    requires q.tickets.head + 1 == q.tickets.tail
    ensures HasGot(q, r, q.tickets.slots[q.tickets.head])
  {
  }

  /** What goes in comes out: an element enqueued to an empty queue in which nothing is under way is
      what the next dequeue of any thread delivers, and the queue is empty again. */
  lemma InThenOut<T>(s: State<T>, x: T, junk: seq<Entry>, t: Tid)
    requires Inv(s) && B.Resting(s.store, junk) && Quiet(s) && s.tickets.head == s.tickets.tail && Accepts(s)
    requires t < |s.tickets.threads|
    ensures var q := Produce(s, Enqueue(x, junk));
      && |q.tickets.threads| == |s.tickets.threads|
      && Inv(Step(q, Begin(t, D.Single))) && |Step(q, Begin(t, D.Single)).tickets.threads| == |q.tickets.threads|
      && GetsLast(q, t, x)
  {
    LoneEnqueue(s, x, junk);
    D.QuiescentBalance(s.tickets);
    assert Linked(s);
    var q := Produce(s, Enqueue(x, junk));
    assert q.tickets.slots[q.tickets.head] == x;
    GetsTheLast(q, t);
  }
}
