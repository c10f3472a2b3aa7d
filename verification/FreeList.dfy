/** The lock-free free list of the queue's blocks, as the program-counter machine of
    any number of threads running `add` and `try_get`. Every access to an atomic
    is one step; a thread's program counter holds the locals it still needs. */
module FreeList {
  import opened Sums
  import opened Counting

  type Node = nat
  type Tid = nat
  datatype Ptr = Null | At(node: Node)

  // The 32-bit reference word: a 31-bit count and the should-be-on-free-list bit.
  const SHOULD := 0x8000_0000
  const WORD := 0x1_0000_0000

  function Plus(w: nat, k: int): nat {
    (w + k) % WORD
  }

  // What a thread does once add_knowing_refcount_is_zero returns: leave `add`, or go
  // round the loop of `try_get` with the head its failed exchange saw.
  datatype Cont = Return | Resume(head: Ptr)

  datatype PC =
    | Idle
    | AddFlag(n: Node)
    | PushLoad(n: Node, k: Cont)
    | PushNext(n: Node, h: Ptr, k: Cont)
    | PushRefs(n: Node, h: Ptr, k: Cont)
    | PushCas(n: Node, h: Ptr, k: Cont)
    | PushUndo(n: Node, h: Ptr, k: Cont)
    | GetLoad
    | GetRefs(head: Ptr)
    | GetHold(n: Node, r: nat)
    | GetNext(n: Node)
    | GetCas(n: Node, nx: Ptr)
    | GetAssert(n: Node)
    | GetTake(n: Node)
    | GetDrop(n: Node, seen: Ptr)

  // Where a node is: bookkeeping that no step reads to decide what to do.
  datatype Place = Client | Listed | Flagged | Hand(t: Tid)

  datatype State = State(
    head: Ptr, next: seq<Ptr>, refs: seq<nat>, threads: seq<PC>,
    place: seq<Place>, list: seq<Node>)

  datatype Action = Add(t: Tid, n: Node) | TryGet(t: Tid) | Run(t: Tid)

  function After(k: Cont): PC {
    match k
    case Return => Idle
    case Resume(h) => GetRefs(h)
  }

  ghost predicate Shape(s: State) {
    && |s.next| == |s.refs| == |s.place|
    && |s.threads| < SHOULD - 2
    && (forall t :: 0 <= t < |s.threads| ==> Local(s.threads[t], |s.refs|))
    && PtrIn(s.head, |s.refs|)
    && (forall n :: 0 <= n < |s.next| ==> PtrIn(s.next[n], |s.refs|))
  }

  predicate PtrIn(p: Ptr, size: nat) {
    p.At? ==> p.node < size
  }

  // Every node a program counter names exists.
  predicate Local(pc: PC, size: nat) {
    match pc
    case Idle => true
    case GetLoad => true
    case GetRefs(h) => PtrIn(h, size)
    case AddFlag(n) => n < size
    case PushLoad(n, k) => n < size && ContIn(k, size)
    case PushNext(n, h, k) => n < size && PtrIn(h, size) && ContIn(k, size)
    case PushRefs(n, h, k) => n < size && PtrIn(h, size) && ContIn(k, size)
    case PushCas(n, h, k) => n < size && PtrIn(h, size) && ContIn(k, size)
    case PushUndo(n, h, k) => n < size && PtrIn(h, size) && ContIn(k, size)
    case GetHold(n, _) => n < size
    case GetNext(n) => n < size
    case GetCas(n, nx) => n < size && PtrIn(nx, size)
    case GetAssert(n) => n < size
    case GetTake(n) => n < size
    case GetDrop(n, seen) => n < size && PtrIn(seen, size)
  }

  predicate ContIn(k: Cont, size: nat) {
    k.Resume? ==> PtrIn(k.head, size)
  }

  // ---------- The steps ----------

  /** One atomic action of thread `t`, or a client starting a call on an idle thread. */
  ghost function Step(s: State, a: Action): State
    requires Shape(s)
  {
    match a
    case Add(t, n) =>
      if t < |s.threads| && s.threads[t] == Idle && n < |s.refs| && s.place[n] == Client then
        s.(threads := s.threads[t := AddFlag(n)], place := s.place[n := Hand(t)])
      else s
    case TryGet(t) =>
      if t < |s.threads| && s.threads[t] == Idle then Goto(s, t, GetLoad) else s
    case Run(t) =>
      if t < |s.threads| then Tick(s, t) else s
  }

  function Goto(s: State, t: Tid, pc: PC): State
    requires t < |s.threads|
  {
    s.(threads := s.threads[t := pc])
  }

  ghost function Tick(s: State, t: Tid): State
    requires Shape(s) && t < |s.threads|
  {
    assert Local(s.threads[t], |s.refs|);
    match s.threads[t]
    case Idle => s
    case AddFlag(n) =>
      var s1 := s.(refs := s.refs[n := Plus(s.refs[n], SHOULD)]);
      if s.refs[n] == 0 then Goto(s1, t, PushLoad(n, Return))
      else Goto(s1, t, Idle).(place := s.place[n := Flagged])
    case PushLoad(n, k) => Goto(s, t, PushNext(n, s.head, k))
    case PushNext(n, h, k) => Goto(s, t, PushRefs(n, h, k)).(next := s.next[n := h])
    case PushRefs(n, h, k) => Goto(s, t, PushCas(n, h, k)).(refs := s.refs[n := 1])
    case PushCas(n, h, k) =>
      if s.head == h then
        Goto(s, t, After(k)).(head := At(n), list := [n] + s.list, place := s.place[n := Listed])
      else Goto(s, t, PushUndo(n, s.head, k))
    case PushUndo(n, h, k) =>
      var s1 := s.(refs := s.refs[n := Plus(s.refs[n], SHOULD - 1)]);
      if s.refs[n] == 1 then Goto(s1, t, PushNext(n, h, k))
      else Goto(s1, t, After(k)).(place := s.place[n := Flagged])
    case GetLoad => Goto(s, t, GetRefs(s.head))
    case GetRefs(h) =>
      if h == Null then Goto(s, t, Idle) else Goto(s, t, GetHold(h.node, s.refs[h.node]))
    case GetHold(n, r) =>
      if r % SHOULD != 0 && s.refs[n] == r then
        Goto(s, t, GetNext(n)).(refs := s.refs[n := Plus(r, 1)])
      else Goto(s, t, GetLoad)
    case GetNext(n) => Goto(s, t, GetCas(n, s.next[n]))
    case GetCas(n, nx) =>
      if s.head == At(n) then
        Goto(s, t, GetAssert(n)).(
          head := nx, list := if s.list == [] then [] else s.list[1..], place := s.place[n := Hand(t)])
      else Goto(s, t, GetDrop(n, s.head))
    case GetAssert(n) => Goto(s, t, GetTake(n))
    case GetTake(n) =>
      Goto(s, t, Idle).(refs := s.refs[n := Plus(s.refs[n], -2)], place := s.place[n := Client])
    case GetDrop(n, seen) =>
      var s1 := s.(refs := s.refs[n := Plus(s.refs[n], -1)]);
      if s.refs[n] == SHOULD + 1 then
        Goto(s1, t, PushLoad(n, Resume(seen))).(place := s.place[n := Hand(t)])
      else Goto(s1, t, GetRefs(seen))
  }

  /** Every node starts with the client and no thread is inside a call. */
  function Init(nodes: nat, threads: nat): State {
    State(Null, seq(nodes, _ => Null), seq(nodes, _ => 0), seq(threads, _ => Idle),
          seq(nodes, _ => Client), [])
  }

  // ---------- The invariant ----------

  // The thread has taken one count of n's reference word.
  predicate Holds(pc: PC, n: Node) {
    match pc
    case GetNext(m) => m == n
    case GetCas(m, _) => m == n
    case GetAssert(m) => m == n
    case GetTake(m) => m == n
    case GetDrop(m, _) => m == n
    case _ => false
  }

  // The thread alone is responsible for n: adding it, pushing it, or having popped it.
  predicate InHand(pc: PC, n: Node) {
    match pc
    case AddFlag(m) => m == n
    case PushLoad(m, _) => m == n
    case PushNext(m, _, _) => m == n
    case PushRefs(m, _, _) => m == n
    case PushCas(m, _, _) => m == n
    case PushUndo(m, _, _) => m == n
    case GetAssert(m) => m == n
    case GetTake(m) => m == n
    case _ => false
  }

  // Pushing, with the count at zero and nobody able to raise it.
  predicate Closed(pc: PC) {
    pc.PushLoad? || pc.PushNext? || pc.PushRefs?
  }

  // The list's own count is in the word.
  predicate Open(pc: PC) {
    pc.PushCas? || pc.PushUndo? || pc.GetAssert? || pc.GetTake?
  }

  function Weights(threads: seq<PC>, n: Node): (w: seq<int>)
    ensures |w| == |threads|
  {
    seq(|threads|, t requires 0 <= t < |threads| => if Holds(threads[t], n) then 1 else 0)
  }

  function Holders(threads: seq<PC>, n: Node): int {
    Sum(Weights(threads, n))
  }

  ghost predicate HandOk(s: State, n: Node)
    requires n < |s.place|
  {
    s.place[n].Hand? ==> s.place[n].t < |s.threads| && InHand(s.threads[s.place[n].t], n)
  }

  ghost function FlagBit(s: State, n: Node): nat
    requires n < |s.place| && HandOk(s, n)
  {
    match s.place[n]
    case Flagged => 1
    case Hand(t) => if Closed(s.threads[t]) then 1 else 0
    case _ => 0
  }

  ghost function ListRef(s: State, n: Node): nat
    requires n < |s.place| && HandOk(s, n)
  {
    match s.place[n]
    case Listed => 1
    case Hand(t) => if Open(s.threads[t]) then 1 else 0
    case _ => 0
  }

  ghost predicate NodeOk(s: State, n: Node)
    requires n < |s.place| && n < |s.refs|
  {
    && HandOk(s, n)
    && s.refs[n] == Holders(s.threads, n) + ListRef(s, n) + SHOULD * FlagBit(s, n)
    && (s.place[n].Flagged? ==> 0 < Holders(s.threads, n))
    && (FlagBit(s, n) == 1 && !s.place[n].Flagged? ==> Holders(s.threads, n) == 0)
  }

  ghost predicate ThreadOk(s: State, t: Tid)
    requires Shape(s) && t < |s.threads|
  {
    && (forall n :: 0 <= n < |s.place| && InHand(s.threads[t], n) ==> s.place[n] == Hand(t))
    && match s.threads[t]
       case PushRefs(n, h, _) => n < |s.next| && s.next[n] == h
       case PushCas(n, h, _) => n < |s.next| && s.next[n] == h
       case GetCas(n, nx) => n < |s.next| && s.next[n] == nx
       case _ => true
  }

  function First(list: seq<Node>): Ptr {
    if list == [] then Null else At(list[0])
  }

  /** Following `next` from the head visits exactly `list` and ends in null. */
  ghost predicate Chain(head: Ptr, next: seq<Ptr>, list: seq<Node>) {
    && head == First(list)
    && (forall i :: 0 <= i < |list| ==> list[i] < |next| && next[list[i]] == First(list[i + 1..]))
  }

  ghost predicate ListOk(s: State) {
    && Chain(s.head, s.next, s.list)
    && NoDup(s.list)
    && (forall n :: n in s.list ==> n < |s.place| && s.place[n] == Listed)
    && (forall n :: 0 <= n < |s.place| && s.place[n] == Listed ==> n in s.list)
  }

  ghost predicate Inv(s: State) {
    && Shape(s)
    && ListOk(s)
    && (forall n :: 0 <= n < |s.refs| ==> NodeOk(s, n))
    && (forall t :: 0 <= t < |s.threads| ==> ThreadOk(s, t))
  }

  // ---------- Counting holders ----------

  lemma HoldersGoto(threads: seq<PC>, t: Tid, pc: PC, n: Node)
    requires t < |threads|
    ensures Holders(threads[t := pc], n)
         == Holders(threads, n) - (if Holds(threads[t], n) then 1 else 0) + (if Holds(pc, n) then 1 else 0)
  {
    var v := if Holds(pc, n) then 1 else 0;
    assert Weights(threads[t := pc], n) == Weights(threads, n)[t := v];
    SumUpdate(Weights(threads, n), t, v);
  }

  lemma HoldersBounds(threads: seq<PC>, n: Node)
    ensures 0 <= Holders(threads, n) <= |threads|
    ensures forall t :: 0 <= t < |threads| && Holds(threads[t], n) ==> 1 <= Holders(threads, n)
  {
    SumNonNeg(Weights(threads, n));
    SumAtMost(Weights(threads, n), 1);
    forall t | 0 <= t < |threads| && Holds(threads[t], n) ensures 1 <= Holders(threads, n) {
      SumAtLeast(Weights(threads, n), t);
    }
  }

  // ---------- One step keeps the invariant ----------

  // A node whose word and place stay, and which the moving thread treats as before.
  lemma SameNode(s: State, s': State, t: Tid, m: Node)
    requires Inv(s) && t < |s.threads| && m < |s.refs|
    requires |s'.refs| == |s'.place| == |s.refs|
    requires |s'.threads| == |s.threads| && s'.threads == s.threads[t := s'.threads[t]]
    requires s'.refs[m] == s.refs[m] && s'.place[m] == s.place[m]
    requires Holds(s.threads[t], m) == Holds(s'.threads[t], m)
    requires InHand(s.threads[t], m) ==>
               && InHand(s'.threads[t], m)
               && Closed(s.threads[t]) == Closed(s'.threads[t])
               && Open(s.threads[t]) == Open(s'.threads[t])
    ensures NodeOk(s', m)
  {
    assert NodeOk(s, m);
    HoldersGoto(s.threads, t, s'.threads[t], m);
  }

  // The threads that do not move, when only node n's link or place may change.
  lemma OtherThreads(s: State, s': State, t: Tid, n: Node)
    requires Inv(s) && Shape(s') && t < |s.threads| && n < |s.refs|
    requires |s'.refs| == |s.refs|
    requires |s'.threads| == |s.threads| && s'.threads == s.threads[t := s'.threads[t]]
    requires s'.place == s.place[n := s'.place[n]]
    requires s'.place[n] == s.place[n] || !s.place[n].Hand? || s.place[n] == Hand(t)
    requires s'.next == s.next[n := s'.next[n]]
    requires s'.next[n] == s.next[n] || (s.place[n] == Hand(t) && Holders(s.threads, n) == 0)
    ensures forall u :: 0 <= u < |s.threads| && u != t ==> ThreadOk(s', u)
  {
    forall u | 0 <= u < |s.threads| && u != t ensures ThreadOk(s', u) {
      assert ThreadOk(s, u);
      assert s'.threads[u] == s.threads[u];
      HoldersBounds(s.threads, n);
    }
  }

  lemma GotoShape(s: State, t: Tid)
    requires Shape(s) && t < |s.threads|
    ensures Shape(Tick(s, t))
    ensures |Tick(s, t).refs| == |s.refs|
    ensures Tick(s, t).threads == s.threads[t := Tick(s, t).threads[t]]
  {
    assert Local(s.threads[t], |s.refs|);
  }

  // The steps that touch one node n and leave every other node as it was.
  lemma OneNode(s: State, t: Tid, n: Node)
    requires Inv(s) && t < |s.threads| && n < |s.refs|
    requires Shape(Tick(s, t)) && |Tick(s, t).refs| == |s.refs|
    requires Tick(s, t).threads == s.threads[t := Tick(s, t).threads[t]]
    requires Tick(s, t).refs == s.refs[n := Tick(s, t).refs[n]]
    requires Tick(s, t).place == s.place[n := Tick(s, t).place[n]]
    requires Tick(s, t).place[n] == s.place[n] || !s.place[n].Hand? || s.place[n] == Hand(t)
    requires Tick(s, t).next == s.next[n := Tick(s, t).next[n]]
    requires Tick(s, t).next[n] == s.next[n] || (s.place[n] == Hand(t) && Holders(s.threads, n) == 0)
    requires forall m :: m != n ==> !Holds(s.threads[t], m) && !InHand(s.threads[t], m)
    requires forall m :: m != n ==> !Holds(Tick(s, t).threads[t], m)
    requires NodeOk(Tick(s, t), n) && ThreadOk(Tick(s, t), t) && ListOk(Tick(s, t))
    ensures Inv(Tick(s, t))
  {
    var s' := Tick(s, t);
    OtherThreads(s, s', t, n);
    forall m | 0 <= m < |s.refs| ensures NodeOk(s', m) {
      if m != n {
        SameNode(s, s', t, m);
      }
    }
  }

  // Steps that only move the program counter.
  lemma PureStep(s: State, t: Tid)
    requires Inv(s) && t < |s.threads|
    requires Tick(s, t) == Goto(s, t, Tick(s, t).threads[t])
    requires forall m :: Holds(s.threads[t], m) == Holds(Tick(s, t).threads[t], m)
    requires forall m :: InHand(s.threads[t], m) == InHand(Tick(s, t).threads[t], m)
    requires Closed(s.threads[t]) == Closed(Tick(s, t).threads[t])
    requires Open(s.threads[t]) == Open(Tick(s, t).threads[t])
    requires ThreadOk(s, t) && Shape(Tick(s, t)) ==> ThreadOk(Tick(s, t), t)
    ensures Inv(Tick(s, t))
  {
    var s' := Tick(s, t);
    GotoShape(s, t);
    forall m | 0 <= m < |s.refs| ensures NodeOk(s', m) {
      SameNode(s, s', t, m);
    }
    if |s.refs| > 0 {
      OtherThreads(s, s', t, 0);
    }
    forall u | 0 <= u < |s.threads| ensures ThreadOk(s', u) {
      assert ThreadOk(s, u);
    }
  }

  // What a thread knows about the node it is responsible for.
  lemma InHandFacts(s: State, t: Tid, n: Node)
    requires Inv(s) && t < |s.threads| && n < |s.refs|
    requires InHand(s.threads[t], n) || Holds(s.threads[t], n)
    ensures InHand(s.threads[t], n) ==> s.place[n] == Hand(t) && n !in s.list
    ensures Holds(s.threads[t], n) ==> 1 <= Holders(s.threads, n)
    ensures NodeOk(s, n)
    ensures 0 <= Holders(s.threads, n) <= |s.threads| < SHOULD - 2
  {
    assert ThreadOk(s, t);
    HoldersBounds(s.threads, n);
  }

  lemma StepAddFlag(s: State, t: Tid)
    requires Inv(s) && t < |s.threads| && s.threads[t].AddFlag?
    ensures Inv(Tick(s, t))
  {
    var n := s.threads[t].n;
    assert Local(s.threads[t], |s.refs|);
    InHandFacts(s, t, n);
    GotoShape(s, t);
    HoldersGoto(s.threads, t, Tick(s, t).threads[t], n);
    OneNode(s, t, n);
  }

  lemma StepPushNext(s: State, t: Tid)
    requires Inv(s) && t < |s.threads| && s.threads[t].PushNext?
    ensures Inv(Tick(s, t))
  {
    var n := s.threads[t].n;
    assert Local(s.threads[t], |s.refs|);
    InHandFacts(s, t, n);
    GotoShape(s, t);
    HoldersGoto(s.threads, t, Tick(s, t).threads[t], n);
    OneNode(s, t, n);
  }

  lemma StepPushRefs(s: State, t: Tid)
    requires Inv(s) && t < |s.threads| && s.threads[t].PushRefs?
    ensures Inv(Tick(s, t))
  {
    var n := s.threads[t].n;
    assert Local(s.threads[t], |s.refs|);
    InHandFacts(s, t, n);
    GotoShape(s, t);
    assert ThreadOk(s, t);
    HoldersGoto(s.threads, t, Tick(s, t).threads[t], n);
    OneNode(s, t, n);
  }

  // Pushing puts the node in front of the list it links to.
  lemma PushChain(s: State, n: Node)
    requires ListOk(s) && n < |s.next| == |s.place| && s.next[n] == s.head && n !in s.list
    ensures Chain(At(n), s.next, [n] + s.list) && NoDup([n] + s.list)
  {
    var list := [n] + s.list;
    assert list[1..] == s.list;
    forall i | 0 <= i < |list| ensures list[i] < |s.next| && s.next[list[i]] == First(list[i + 1..]) {
      if i > 0 {
        assert list[i + 1..] == s.list[i - 1 + 1..];
      }
    }
  }

  lemma PushSucceeds(s: State, t: Tid)
    requires Inv(s) && t < |s.threads| && s.threads[t].PushCas? && s.head == s.threads[t].h
    requires s.threads[t].n < |s.refs|
    ensures Inv(Tick(s, t))
  {
    var n := s.threads[t].n;
    InHandFacts(s, t, n);
    GotoShape(s, t);
    assert ThreadOk(s, t);
    PushChain(s, n);
    HoldersGoto(s.threads, t, Tick(s, t).threads[t], n);
    OneNode(s, t, n);
  }

  lemma StepPushCas(s: State, t: Tid)
    requires Inv(s) && t < |s.threads| && s.threads[t].PushCas?
    ensures Inv(Tick(s, t))
  {
    assert Local(s.threads[t], |s.refs|);
    if s.head == s.threads[t].h {
      PushSucceeds(s, t);
    } else {
      PureStep(s, t);
    }
  }

  lemma StepPushUndo(s: State, t: Tid)
    requires Inv(s) && t < |s.threads| && s.threads[t].PushUndo?
    ensures Inv(Tick(s, t))
  {
    var n := s.threads[t].n;
    assert Local(s.threads[t], |s.refs|);
    InHandFacts(s, t, n);
    GotoShape(s, t);
    HoldersGoto(s.threads, t, Tick(s, t).threads[t], n);
    OneNode(s, t, n);
  }

  // Raising a count that is not zero: the node is listed, flagged or in somebody's open hand.
  lemma RaiseCount(s: State, t: Tid)
    requires Inv(s) && t < |s.threads| && s.threads[t].GetHold? && s.threads[t].n < |s.refs|
    requires s.threads[t].r % SHOULD != 0 && s.refs[s.threads[t].n] == s.threads[t].r
    ensures NodeOk(Tick(s, t), s.threads[t].n)
  {
    var n := s.threads[t].n;
    assert NodeOk(s, n);
    HoldersBounds(s.threads, n);
    OneMoreCount(Holders(s.threads, n), ListRef(s, n), FlagBit(s, n));
    HoldersGoto(s.threads, t, GetNext(n), n);
  }

  // A word of h holders, the list's count l and the flag f has room for one more.
  lemma OneMoreCount(h: nat, l: nat, f: nat)
    requires h < SHOULD - 2 && l <= 1 && f <= 1
    ensures Plus(h + l + SHOULD * f, 1) == h + 1 + l + SHOULD * f
    ensures (h + l + SHOULD * f) % SHOULD == h + l
  {
  }

  lemma HoldSucceeds(s: State, t: Tid)
    requires Inv(s) && t < |s.threads| && s.threads[t].GetHold? && s.threads[t].n < |s.refs|
    requires s.threads[t].r % SHOULD != 0 && s.refs[s.threads[t].n] == s.threads[t].r
    ensures Inv(Tick(s, t))
  {
    RaiseCount(s, t);
    GotoShape(s, t);
    OneNode(s, t, s.threads[t].n);
  }

  lemma StepGetHold(s: State, t: Tid)
    requires Inv(s) && t < |s.threads| && s.threads[t].GetHold?
    ensures Inv(Tick(s, t))
  {
    assert Local(s.threads[t], |s.refs|);
    if s.threads[t].r % SHOULD != 0 && s.refs[s.threads[t].n] == s.threads[t].r {
      HoldSucceeds(s, t);
    } else {
      PureStep(s, t);
    }
  }

  lemma PopChain(head: Ptr, next: seq<Ptr>, list: seq<Node>)
    requires Chain(head, next, list) && NoDup(list) && list != []
    ensures list[0] < |next| && Chain(next[list[0]], next, list[1..]) && NoDup(list[1..])
    ensures list[0] !in list[1..]
  {
    var rest := list[1..];
    forall i | 0 <= i < |rest| ensures rest[i] < |next| && next[rest[i]] == First(rest[i + 1..]) {
      assert rest[i + 1..] == list[i + 1 + 1..];
    }
  }

  /** A successful exchange of the head takes the first node off the list and installs
      what that node links to at this moment, so no node is lost and no stale link returns. */
  lemma PopInstallsNext(s: State, t: Tid)
    requires Inv(s) && t < |s.threads| && s.threads[t].GetCas? && s.head == At(s.threads[t].n)
    ensures s.threads[t].n < |s.next| && s.threads[t].nx == s.next[s.threads[t].n]
    ensures s.list != [] && s.list[0] == s.threads[t].n
    ensures Tick(s, t).list == s.list[1..] && ListOk(Tick(s, t))
  {
    var n := s.threads[t].n;
    assert ThreadOk(s, t) && Local(s.threads[t], |s.refs|);
    PopChain(s.head, s.next, s.list);
    assert s.list == [n] + s.list[1..];
  }

  lemma StepGetCas(s: State, t: Tid)
    requires Inv(s) && t < |s.threads| && s.threads[t].GetCas?
    ensures Inv(Tick(s, t))
  {
    var n := s.threads[t].n;
    assert Local(s.threads[t], |s.refs|);
    if s.head == At(n) {
      PopInstallsNext(s, t);
      InHandFacts(s, t, n);
      GotoShape(s, t);
      HoldersGoto(s.threads, t, Tick(s, t).threads[t], n);
      OneNode(s, t, n);
    } else {
      PureStep(s, t);
    }
  }

  lemma StepGetTake(s: State, t: Tid)
    requires Inv(s) && t < |s.threads| && s.threads[t].GetTake?
    ensures Inv(Tick(s, t))
  {
    var n := s.threads[t].n;
    assert Local(s.threads[t], |s.refs|);
    InHandFacts(s, t, n);
    GotoShape(s, t);
    HoldersGoto(s.threads, t, Tick(s, t).threads[t], n);
    OneNode(s, t, n);
  }

  // The last holder of a flagged node takes it in hand.
  lemma DropLast(s: State, t: Tid)
    requires Inv(s) && t < |s.threads| && s.threads[t].GetDrop?
    requires s.threads[t].n < |s.refs| && s.refs[s.threads[t].n] == SHOULD + 1
    ensures Inv(Tick(s, t))
  {
    var n := s.threads[t].n;
    InHandFacts(s, t, n);
    GotoShape(s, t);
    HoldersGoto(s.threads, t, Tick(s, t).threads[t], n);
    OneNode(s, t, n);
  }

  lemma DropOne(s: State, t: Tid)
    requires Inv(s) && t < |s.threads| && s.threads[t].GetDrop?
    requires s.threads[t].n < |s.refs| && s.refs[s.threads[t].n] != SHOULD + 1
    ensures Inv(Tick(s, t))
  {
    var n := s.threads[t].n;
    InHandFacts(s, t, n);
    GotoShape(s, t);
    HoldersGoto(s.threads, t, Tick(s, t).threads[t], n);
    OneNode(s, t, n);
  }

  lemma StepGetDrop(s: State, t: Tid)
    requires Inv(s) && t < |s.threads| && s.threads[t].GetDrop?
    ensures Inv(Tick(s, t))
  {
    assert Local(s.threads[t], |s.refs|);
    if s.refs[s.threads[t].n] == SHOULD + 1 {
      DropLast(s, t);
    } else {
      DropOne(s, t);
    }
  }

  lemma TickInv(s: State, t: Tid)
    requires Inv(s) && t < |s.threads|
    ensures Inv(Tick(s, t))
  {
    assert Local(s.threads[t], |s.refs|) && ThreadOk(s, t);
    match s.threads[t]
    case Idle =>
    case AddFlag(_) => StepAddFlag(s, t);
    case PushLoad(_, _) => PureStep(s, t);
    case PushNext(_, _, _) => StepPushNext(s, t);
    case PushRefs(_, _, _) => StepPushRefs(s, t);
    case PushCas(_, _, _) => StepPushCas(s, t);
    case PushUndo(_, _, _) => StepPushUndo(s, t);
    case GetLoad => PureStep(s, t);
    case GetRefs(_) => PureStep(s, t);
    case GetHold(_, _) => StepGetHold(s, t);
    case GetNext(_) => PureStep(s, t);
    case GetCas(_, _) => StepGetCas(s, t);
    case GetAssert(_) => PureStep(s, t);
    case GetTake(_) => StepGetTake(s, t);
    case GetDrop(_, _) => StepGetDrop(s, t);
  }

  /** Every step of every thread, whatever the interleaving, keeps the invariant. */
  lemma StepInv(s: State, a: Action)
    requires Inv(s)
    ensures Inv(Step(s, a)) && |Step(s, a).refs| == |s.refs| && |Step(s, a).threads| == |s.threads|
  {
    match a
    case Run(t) =>
      if t < |s.threads| {
        TickInv(s, t);
        GotoShape(s, t);
      }
    case Add(t, n) => StepStart(s, a);
    case TryGet(t) => StepStart(s, a);
  }

  lemma StepStart(s: State, a: Action)
    requires Inv(s) && !a.Run?
    ensures Inv(Step(s, a)) && |Step(s, a).refs| == |s.refs| && |Step(s, a).threads| == |s.threads|
  {
    var t := a.t;
    var s' := Step(s, a);
    if s' != s {
      assert ThreadOk(s, t);
      var n := if a.Add? then a.n else 0;
      forall m | 0 <= m < |s.refs| ensures NodeOk(s', m) {
        assert NodeOk(s, m);
        HoldersGoto(s.threads, t, s'.threads[t], m);
      }
      if |s.refs| > 0 {
        OtherThreads(s, s', t, n);
      }
    }
  }

  lemma InitInv(nodes: nat, threads: nat)
    requires threads < SHOULD - 2
    ensures Inv(Init(nodes, threads))
  {
    var s := Init(nodes, threads);
    forall n | 0 <= n < nodes ensures NodeOk(s, n) {
      SumZero(Weights(s.threads, n));
    }
  }

  /** The state after a whole schedule. Its contract is the safety theorem: the invariant
      holds after any sequence of steps of any threads. */
  ghost function Execute(s: State, actions: seq<Action>): (r: State)
    requires Inv(s)
    ensures Inv(r) && |r.refs| == |s.refs| && |r.threads| == |s.threads|
    decreases |actions|
  {
    if actions == [] then s
    else
      var before := Execute(s, actions[..|actions| - 1]);
      StepInv(before, actions[|actions| - 1]);
      Step(before, actions[|actions| - 1])
  }

  ghost function Started(nodes: nat, threads: nat): (s: State)
    requires threads < SHOULD - 2
    ensures Inv(s)
  {
    InitInv(nodes, threads);
    Init(nodes, threads)
  }

  ghost predicate Reachable(s: State) {
    exists nodes: nat, threads: nat, actions ::
      threads < SHOULD - 2 && s == Execute(Started(nodes, threads), actions)
  }

  /** In every reachable state the list from the head is finite and duplicate-free, and each
      node is in exactly one place: with the client, on the list, flagged for the last
      holder to push, or in the hand of exactly one thread. */
  lemma EveryNodeInOnePlace(s: State, n: Node)
    requires Reachable(s) && n < |s.refs|
    ensures Chain(s.head, s.next, s.list) && NoDup(s.list)
    ensures n in s.list <==> s.place[n] == Listed
    ensures forall t: Tid :: s.place[n] == Hand(t) <==> t < |s.threads| && InHand(s.threads[t], n)
    ensures s.place[n] == Flagged ==>
              0 < Holders(s.threads, n) && s.refs[n] == SHOULD + Holders(s.threads, n)
  {
    assert Inv(s) && NodeOk(s, n);
    forall t | 0 <= t < |s.threads| && InHand(s.threads[t], n) ensures s.place[n] == Hand(t) {
      assert ThreadOk(s, t);
    }
  }

  /** The assertion between the head exchange and the release of the two counts holds: the
      popped node's should-be-on-free-list bit is clear, and no other thread has it in hand. */
  lemma PoppedNodeUnflagged(s: State, t: Tid)
    requires Reachable(s) && t < |s.threads| && s.threads[t].GetAssert?
    ensures s.threads[t].n < |s.refs| && 2 <= s.refs[s.threads[t].n] < SHOULD
    ensures forall u :: 0 <= u < |s.threads| && InHand(s.threads[u], s.threads[t].n) ==> u == t
  {
    var n := s.threads[t].n;
    assert Local(s.threads[t], |s.refs|);
    InHandFacts(s, t, n);
    EveryNodeInOnePlace(s, n);
  }

  /** While a thread counts on a node, nobody rewrites that node's link. */
  lemma HeldLinkIsStable(s: State, a: Action, t: Tid)
    requires Reachable(s) && t < |s.threads| && Holds(s.threads[t], NodeOf(s.threads[t]))
    ensures NodeOf(s.threads[t]) < |s.next|
    ensures Step(s, a).next[NodeOf(s.threads[t])] == s.next[NodeOf(s.threads[t])]
  {
    var n := NodeOf(s.threads[t]);
    assert Local(s.threads[t], |s.refs|);
    InHandFacts(s, t, n);
    if a.Run? && a.t < |s.threads| && s.threads[a.t].PushNext? && s.threads[a.t].n == n {
      InHandFacts(s, a.t, n);
      assert false;
    }
  }

  function NodeOf(pc: PC): Node {
    match pc
    case GetNext(n) => n
    case GetCas(n, _) => n
    case GetAssert(n) => n
    case GetTake(n) => n
    case GetDrop(n, _) => n
    case _ => 0
  }

  /** Once every call has returned no node is lost: it is on the list with exactly the
      list's count, or with the client with a zero word. */
  lemma NoNodeLost(s: State, n: Node)
    requires Reachable(s) && n < |s.refs|
    requires forall t :: 0 <= t < |s.threads| ==> s.threads[t] == Idle
    ensures s.refs[n] == if n in s.list then 1 else 0
    ensures n !in s.list ==> s.place[n] == Client
  {
    assert NodeOk(s, n);
    SumZero(Weights(s.threads, n));
  }

  // ---------- What a call delivers ----------

  // n steps of thread t while all the others stand still, wherever they are.
  ghost function Alone(s: State, t: Tid, n: nat): (r: State)
    requires Inv(s) && t < |s.threads|
    ensures Inv(r) && |r.threads| == |s.threads| && |r.refs| == |s.refs|
  {
    if n == 0 then s
    else
      var before := Alone(s, t, n - 1);
      StepInv(before, Run(t));
      Step(before, Run(t))
  }

  ghost function CallAlone(s: State, a: Action, n: nat): (r: State)
    requires Inv(s) && a.t < |s.threads|
    ensures Inv(r) && |r.threads| == |s.threads| && |r.refs| == |s.refs|
  {
    StepInv(s, a);
    Alone(Step(s, a), a.t, n)
  }

  // The first node's count is the list's own and one for each holder.
  lemma FrontCount(s: State)
    requires Inv(s) && s.list != []
    ensures s.list[0] < |s.refs| && s.head == At(s.list[0]) && s.place[s.list[0]] == Listed
    ensures 0 < s.refs[s.list[0]] < SHOULD - 1 && s.next[s.list[0]] == First(s.list[1..])
  {
    assert s.list[0] in s.list && NodeOk(s, s.list[0]);
    HoldersBounds(s.threads, s.list[0]);
  }

  // Thread t alone, after k steps: state m but for its own program counter.
  ghost predicate Stands(s: State, t: Tid, k: nat, m: State, pc: PC) {
    Inv(s) && t < |s.threads| == |m.threads| && Alone(s, t, k) == Goto(m, t, pc)
  }

  lemma UpdateTwice<T>(q: seq<T>, i: nat, a: T, b: T)
    requires i < |q|
    ensures q[i := a][i := b] == q[i := b]
  {
  }

  lemma OneStep(s: State, t: Tid, k: nat, m: State, pc: PC)
    requires Stands(s, t, k, m, pc)
    ensures Inv(Goto(m, t, pc)) && Alone(s, t, k + 1) == Tick(Goto(m, t, pc), t)
    ensures forall next: PC :: Goto(Goto(m, t, pc), t, next) == Goto(m, t, next)
  {
    forall next: PC ensures Goto(Goto(m, t, pc), t, next) == Goto(m, t, next) {
      UpdateTwice(m.threads, t, pc, next);
    }
  }

  lemma LoadsHead(s: State, t: Tid, k: nat, m: State)
    requires Stands(s, t, k, m, GetLoad)
    ensures Stands(s, t, k + 1, m, GetRefs(m.head))
  {
    OneStep(s, t, k, m, GetLoad);
  }

  lemma LoadsRefs(s: State, t: Tid, k: nat, m: State, n: Node)
    requires Stands(s, t, k, m, GetRefs(At(n))) && n < |m.refs|
    ensures Stands(s, t, k + 1, m, GetHold(n, m.refs[n]))
  {
    OneStep(s, t, k, m, GetRefs(At(n)));
  }

  lemma RaisesCount(s: State, t: Tid, k: nat, m: State, n: Node)
    requires n < |m.refs| && Stands(s, t, k, m, GetHold(n, m.refs[n])) && 0 < m.refs[n] < SHOULD - 1
    ensures Stands(s, t, k + 1, m.(refs := m.refs[n := m.refs[n] + 1]), GetNext(n))
  {
    OneStep(s, t, k, m, GetHold(n, m.refs[n]));
    TickRaises(Goto(m, t, GetHold(n, m.refs[n])), t, n);
  }

  lemma TickRaises(q: State, t: Tid, n: Node)
    requires Shape(q) && t < |q.threads| && n < |q.refs| && q.threads[t] == GetHold(n, q.refs[n])
    requires 0 < q.refs[n] < SHOULD - 1
    ensures Tick(q, t) == Goto(q, t, GetNext(n)).(refs := q.refs[n := q.refs[n] + 1])
  {
  }

  lemma LoadsNext(s: State, t: Tid, k: nat, m: State, n: Node)
    requires n < |m.next| && Stands(s, t, k, m, GetNext(n))
    ensures Stands(s, t, k + 1, m, GetCas(n, m.next[n]))
  {
    OneStep(s, t, k, m, GetNext(n));
  }

  lemma Exchanges(s: State, t: Tid, k: nat, m: State, n: Node, nx: Ptr)
    requires n < |m.place| && Stands(s, t, k, m, GetCas(n, nx)) && m.head == At(n) && m.list != []
    ensures Stands(s, t, k + 1, m.(head := nx, list := m.list[1..], place := m.place[n := Hand(t)]), GetAssert(n))
  {
    OneStep(s, t, k, m, GetCas(n, nx));
  }

  lemma Asserts(s: State, t: Tid, k: nat, m: State, n: Node)
    requires Stands(s, t, k, m, GetAssert(n))
    ensures Stands(s, t, k + 1, m, GetTake(n))
  {
    OneStep(s, t, k, m, GetAssert(n));
  }

  lemma Takes(s: State, t: Tid, k: nat, m: State, n: Node)
    requires n < |m.refs| && n < |m.place| && Stands(s, t, k, m, GetTake(n)) && 2 <= m.refs[n] < SHOULD
    ensures Stands(s, t, k + 1, m.(refs := m.refs[n := m.refs[n] - 2], place := m.place[n := Client]), Idle)
  {
    OneStep(s, t, k, m, GetTake(n));
    TickTakes(Goto(m, t, GetTake(n)), t, n);
  }

  lemma TickTakes(q: State, t: Tid, n: Node)
    requires Shape(q) && t < |q.threads| && n < |q.refs| && q.threads[t] == GetTake(n) && 2 <= q.refs[n] < SHOULD
    ensures Tick(q, t) == Goto(q, t, Idle).(refs := q.refs[n := q.refs[n] - 2], place := q.place[n := Client])
  {
  }

  lemma Starts(s: State, a: Action)
    requires Inv(s) && a.t < |s.threads| && s.threads[a.t] == Idle && !a.Run?
    ensures a.TryGet? ==> Stands(Step(s, a), a.t, 0, s, GetLoad)
    ensures a.Add? && a.n < |s.refs| && s.place[a.n] == Client ==>
              Stands(Step(s, a), a.t, 0, s.(place := s.place[a.n := Hand(a.t)]), AddFlag(a.n))
  {
    StepInv(s, a);
  }

  /** A try_get that runs alone returns the first node of the list, wherever the other threads
      were stopped: the node is the client's, its count has lost the list's share, and the rest
      of the list is what is left. */
  lemma SoloTryGet(s: State, t: Tid)
    requires Inv(s) && t < |s.threads| && s.threads[t] == Idle && s.list != []
    ensures s.list[0] < |s.refs|
    ensures var r, n := CallAlone(s, TryGet(t), 7), s.list[0];
      && r.refs == s.refs[n := r.refs[n]] && r.refs[n] + 1 == s.refs[n] && r.place == s.place[n := Client]
      && r.list == s.list[1..] && r.head == First(s.list[1..]) && r.next == s.next && r.threads == s.threads
  {
    FrontCount(s);
    Starts(s, TryGet(t));
    var s0, n, nx := Step(s, TryGet(t)), s.list[0], First(s.list[1..]);
    LoadsHead(s0, t, 0, s);
    LoadsRefs(s0, t, 1, s, n);
    RaisesCount(s0, t, 2, s, n);
    var held := s.(refs := s.refs[n := s.refs[n] + 1]);
    LoadsNext(s0, t, 3, held, n);
    Exchanges(s0, t, 4, held, n, nx);
    var popped := held.(head := nx, list := s.list[1..], place := s.place[n := Hand(t)]);
    Asserts(s0, t, 5, popped, n);
    Takes(s0, t, 6, popped, n);
    UpdateTwice(s.refs, n, s.refs[n] + 1, popped.refs[n] - 2);
    UpdateTwice(s.place, n, Hand(t), Client);
  }

  /** On an empty list it comes back with nothing changed. */
  lemma SoloTryGetEmpty(s: State, t: Tid)
    requires Inv(s) && t < |s.threads| && s.threads[t] == Idle && s.list == []
    ensures CallAlone(s, TryGet(t), 2) == s
  {
    Starts(s, TryGet(t));
    var s0 := Step(s, TryGet(t));
    LoadsHead(s0, t, 0, s);
    OneStep(s0, t, 1, s, GetRefs(Null));
  }

  /** An add that runs alone puts the node in front of the list when nobody counts on it, and
      otherwise flags it for the last one who does. */
  lemma SoloAdd(s: State, t: Tid, n: Node)
    requires Inv(s) && t < |s.threads| && s.threads[t] == Idle && n < |s.refs| && s.place[n] == Client
    ensures s.refs[n] == Holders(s.threads, n)
    ensures s.refs[n] == 0 ==>
              CallAlone(s, Add(t, n), 5)
              == s.(refs := s.refs[n := 1], place := s.place[n := Listed], next := s.next[n := s.head],
                    head := At(n), list := [n] + s.list)
    ensures s.refs[n] > 0 ==>
              CallAlone(s, Add(t, n), 1) == s.(refs := s.refs[n := s.refs[n] + SHOULD], place := s.place[n := Flagged])
  {
    assert NodeOk(s, n);
    HoldersBounds(s.threads, n);
    Starts(s, Add(t, n));
    var s0, mine := Step(s, Add(t, n)), s.(place := s.place[n := Hand(t)]);
    if s.refs[n] == 0 {
      AddsFirst(s0, t, 0, mine, n);
      SoloPush(s, s0, t, n);
    } else {
      AddsFlag(s0, t, 0, mine, n);
      UpdateTwice(s.place, n, Hand(t), Flagged);
    }
  }

  lemma TickFlags(q: State, t: Tid, n: Node)
    requires Shape(q) && t < |q.threads| && n < |q.refs| && q.threads[t] == AddFlag(n) && q.refs[n] < SHOULD
    ensures var flagged := q.(refs := q.refs[n := q.refs[n] + SHOULD]);
            Tick(q, t) == if q.refs[n] == 0 then Goto(flagged, t, PushLoad(n, Return))
                          else Goto(flagged, t, Idle).(place := q.place[n := Flagged])
  {
  }

  lemma AddsFirst(s: State, t: Tid, k: nat, m: State, n: Node)
    requires n < |m.refs| && n < |m.place| && Stands(s, t, k, m, AddFlag(n)) && m.refs[n] == 0
    ensures Stands(s, t, k + 1, m.(refs := m.refs[n := SHOULD]), PushLoad(n, Return))
  {
    OneStep(s, t, k, m, AddFlag(n));
    TickFlags(Goto(m, t, AddFlag(n)), t, n);
  }

  lemma AddsFlag(s: State, t: Tid, k: nat, m: State, n: Node)
    requires n < |m.refs| && n < |m.place| && Stands(s, t, k, m, AddFlag(n)) && 0 < m.refs[n] < SHOULD
    ensures Stands(s, t, k + 1, m.(refs := m.refs[n := m.refs[n] + SHOULD], place := m.place[n := Flagged]), Idle)
  {
    OneStep(s, t, k, m, AddFlag(n));
    TickFlags(Goto(m, t, AddFlag(n)), t, n);
  }

  lemma LoadsForPush(s: State, t: Tid, k: nat, m: State, n: Node)
    requires Stands(s, t, k, m, PushLoad(n, Return))
    ensures Stands(s, t, k + 1, m, PushNext(n, m.head, Return))
  {
    OneStep(s, t, k, m, PushLoad(n, Return));
  }

  lemma Links(s: State, t: Tid, k: nat, m: State, n: Node, h: Ptr)
    requires n < |m.next| && Stands(s, t, k, m, PushNext(n, h, Return))
    ensures Stands(s, t, k + 1, m.(next := m.next[n := h]), PushRefs(n, h, Return))
  {
    OneStep(s, t, k, m, PushNext(n, h, Return));
  }

  lemma SetsCount(s: State, t: Tid, k: nat, m: State, n: Node, h: Ptr)
    requires n < |m.refs| && Stands(s, t, k, m, PushRefs(n, h, Return))
    ensures Stands(s, t, k + 1, m.(refs := m.refs[n := 1]), PushCas(n, h, Return))
  {
    OneStep(s, t, k, m, PushRefs(n, h, Return));
  }

  lemma Pushes(s: State, t: Tid, k: nat, m: State, n: Node)
    requires n < |m.place| && Stands(s, t, k, m, PushCas(n, m.head, Return))
    ensures Stands(s, t, k + 1, m.(head := At(n), list := [n] + m.list, place := m.place[n := Listed]), Idle)
  {
    OneStep(s, t, k, m, PushCas(n, m.head, Return));
  }

  lemma SoloPush(s: State, s0: State, t: Tid, n: Node)
    requires Inv(s) && t < |s.threads| && n < |s.refs| && s.threads[t] == Idle
    requires Stands(s0, t, 1, s.(place := s.place[n := Hand(t)], refs := s.refs[n := SHOULD]), PushLoad(n, Return))
    ensures Stands(s0, t, 5,
                   s.(refs := s.refs[n := 1], place := s.place[n := Listed], next := s.next[n := s.head],
                      head := At(n), list := [n] + s.list), Idle)
  {
    var mine := s.(place := s.place[n := Hand(t)], refs := s.refs[n := SHOULD]);
    LoadsForPush(s0, t, 1, mine, n);
    Links(s0, t, 2, mine, n, s.head);
    var linked := mine.(next := s.next[n := s.head]);
    SetsCount(s0, t, 3, linked, n, s.head);
    UpdateTwice(s.refs, n, SHOULD, 1);
    Pushes(s0, t, 4, linked.(refs := s.refs[n := 1]), n);
    UpdateTwice(s.place, n, Hand(t), Listed);
  }

  // A run as the sequence of its states; that each satisfies the invariant follows from the first.
  ghost predicate IsRun(states: seq<State>, actions: seq<Action>) {
    && |states| == |actions| + 1
    && forall i :: 0 <= i < |actions| ==> Inv(states[i]) && states[i + 1] == Step(states[i], actions[i])
  }

  // The head was null at some moment after the call began and before the end.
  ghost predicate SawNull(states: seq<State>, end: nat)
    requires end < |states|
  {
    exists k: nat :: 1 <= k <= end && states[k].head == Null
  }

  // Some node went from t's hand to the client.
  ghost predicate HandedOut(states: seq<State>, end: nat, t: Tid)
    requires end < |states|
  {
    exists k: nat :: k < end && GivesSome(states[k], states[k + 1], t)
  }

  ghost predicate GivesSome(s: State, s': State, t: Tid) {
    exists n: Node :: Gives(s, s', t, n)
  }

  ghost predicate Gives(s: State, s': State, t: Tid, n: Node) {
    n < |s.place| && n < |s'.place| && s.place[n] == Hand(t) && s'.place[n] == Client
  }

  // Inside try_get with no null head seen.
  predicate Getting(pc: PC) {
    match pc
    case Idle => false
    case AddFlag(_) => false
    case PushLoad(_, k) => GoesBack(k)
    case PushNext(_, _, k) => GoesBack(k)
    case PushRefs(_, _, k) => GoesBack(k)
    case PushCas(_, _, k) => GoesBack(k)
    case PushUndo(_, _, k) => GoesBack(k)
    case GetRefs(h) => h.At?
    case GetDrop(_, seen) => seen.At?
    case _ => true
  }

  predicate GoesBack(k: Cont) {
    k.Resume? && k.head.At?
  }

  // One step inside try_get goes on, meets a null head or hands a node out.
  lemma GettingStep(s: State, t: Tid)
    requires Inv(s) && t < |s.threads| && Getting(s.threads[t])
    ensures |Tick(s, t).threads| == |s.threads|
    ensures var s' := Tick(s, t);
            Getting(s'.threads[t]) || s'.head == Null || GivesSome(s, s', t)
  {
    assert Local(s.threads[t], |s.refs|) && ThreadOk(s, t);
    if s.threads[t].GetTake? {
      assert Gives(s, Tick(s, t), t, s.threads[t].n);
    }
  }

  lemma OthersStay(s: State, a: Action, t: Tid)
    requires Inv(s) && t < |s.threads| && a.t != t
    ensures |Step(s, a).threads| == |s.threads| && Step(s, a).threads[t] == s.threads[t]
  {
    StepInv(s, a);
    if a.Run? && a.t < |s.threads| {
      GotoShape(s, a.t);
    }
  }

  // A run in which thread t, idle at first, makes one call of try_get.
  ghost predicate OneTryGet(states: seq<State>, actions: seq<Action>, t: Tid) {
    && IsRun(states, actions) && actions != [] && t < |states[0].threads| && states[0].threads[t] == Idle
    && actions[0] == TryGet(t)
    && forall i :: 1 <= i < |actions| && actions[i].t == t ==> actions[i] == Run(t)
  }

  lemma {:induction false} GettingGoesOn(states: seq<State>, actions: seq<Action>, t: Tid, end: nat)
    requires OneTryGet(states, actions, t) && 1 <= end <= |actions|
    ensures t < |states[end].threads|
    ensures Getting(states[end].threads[t]) || SawNull(states, end) || HandedOut(states, end, t)
  {
    if end > 1 {
      GettingGoesOn(states, actions, t, end - 1);
      var s, a := states[end - 1], actions[end - 1];
      assert Inv(s) && states[end] == Step(s, a);
      if a.t == t {
        if Getting(s.threads[t]) {
          GettingStep(s, t);
        } else {
          GotoShape(s, t);
        }
      } else {
        OthersStay(s, a, t);
      }
    }
  }

  /** In any run, among any other threads, a try_get that comes back either handed a node to its
      client or the head was null at a moment during the call. */
  lemma EmptyHandedOnlyIfNull(states: seq<State>, actions: seq<Action>, t: Tid)
    requires OneTryGet(states, actions, t) && t < |states[|actions|].threads| && states[|actions|].threads[t] == Idle
    ensures SawNull(states, |actions|) || HandedOut(states, |actions|, t)
  {
    GettingGoesOn(states, actions, t, |actions|);
  }

  // ---------- A call that goes on alone ends ----------

  // The last holder of a flagged node: dropping the reference makes this thread push the node.
  predicate PushesOnDrop(s: State, n: Node) {
    n < |s.refs| && s.refs[n] == SHOULD + 1
  }

  // How many steps the thread may still need alone. What it read of the head is still so, or not.
  function StepsLeft(s: State, t: Tid): nat
    requires t < |s.threads|
  {
    match s.threads[t]
    case Idle => 0
    case GetTake(_) => 1
    case GetAssert(_) => 2
    case GetCas(n, _) => if s.head == At(n) then 3 else if PushesOnDrop(s, n) then 19 else 9
    case GetNext(n) => if s.head == At(n) then 4 else if PushesOnDrop(s, n) then 20 else 10
    case GetHold(n, r) => if s.head == At(n) && n < |s.refs| && s.refs[n] == r then 5 else 11
    case GetRefs(h) => if s.head == h then 6 else 12
    case GetLoad => 7
    case GetDrop(n, seen) => if PushesOnDrop(s, n) then 18 else if s.head == seen then 8 else 13
    case PushCas(_, h, _) => if s.head == h then 14 else 18
    case PushRefs(_, h, _) => if s.head == h then 15 else 19
    case PushNext(_, h, _) => if s.head == h then 16 else 20
    case PushLoad(_, _) => 17
    case PushUndo(_, h, _) => if s.head == h then 17 else 21
    case AddFlag(_) => 22
  }

  // The step takes the call on.
  ghost predicate Falls(s: State, t: Tid)
    requires Shape(s) && t < |s.threads|
  {
    t < |Tick(s, t).threads| && StepsLeft(Tick(s, t), t) < StepsLeft(s, t)
  }

  lemma PushFalls(s: State, t: Tid)
    requires Inv(s) && t < |s.threads|
    requires var pc := s.threads[t]; pc.AddFlag? || pc.PushLoad? || pc.PushNext? || pc.PushRefs?
    ensures Falls(s, t)
  {
  }

  lemma PushedFalls(s: State, t: Tid)
    requires Inv(s) && t < |s.threads| && (s.threads[t].PushCas? || s.threads[t].PushUndo?)
    ensures Falls(s, t)
  {
  }

  lemma LoadFalls(s: State, t: Tid)
    requires Inv(s) && t < |s.threads| && (s.threads[t].GetLoad? || s.threads[t].GetRefs? || s.threads[t].GetNext?)
    ensures Falls(s, t)
  {
  }

  lemma HoldFalls(s: State, t: Tid)
    requires Inv(s) && t < |s.threads| && s.threads[t].GetHold?
    ensures Falls(s, t)
  {
    var n := s.threads[t].n;
    assert Local(s.threads[t], |s.refs|);
    if s.head == At(n) {
      FrontCount(s);
    }
    CountBelowWord(s, n);
  }

  // No reference word ever wraps when it is raised.
  lemma CountBelowWord(s: State, n: Node)
    requires Inv(s) && n < |s.refs|
    ensures s.refs[n] < WORD - 2
  {
    assert NodeOk(s, n);
    HoldersBounds(s.threads, n);
  }

  lemma ExchangeFalls(s: State, t: Tid)
    requires Inv(s) && t < |s.threads| && (s.threads[t].GetCas? || s.threads[t].GetAssert? || s.threads[t].GetTake?)
    ensures Falls(s, t)
  {
  }

  lemma DropFalls(s: State, t: Tid)
    requires Inv(s) && t < |s.threads| && s.threads[t].GetDrop?
    ensures Falls(s, t)
  {
  }

  lemma StepFalls(s: State, t: Tid)
    requires Inv(s) && t < |s.threads| && s.threads[t] != Idle
    ensures Falls(s, t)
  {
    var pc := s.threads[t];
    if pc.AddFlag? || pc.PushLoad? || pc.PushNext? || pc.PushRefs? {
      PushFalls(s, t);
    } else if pc.PushCas? || pc.PushUndo? {
      PushedFalls(s, t);
    } else if pc.GetHold? {
      HoldFalls(s, t);
    } else if pc.GetDrop? {
      DropFalls(s, t);
    } else if pc.GetLoad? || pc.GetRefs? || pc.GetNext? {
      LoadFalls(s, t);
    } else {
      ExchangeFalls(s, t);
    }
  }

  lemma {:induction false} LeftFalls(s: State, t: Tid, n: nat)
    requires Inv(s) && t < |s.threads|
    ensures StepsLeft(Alone(s, t, n), t) <= if n < StepsLeft(s, t) then StepsLeft(s, t) - n else 0
  {
    if n > 0 {
      LeftFalls(s, t, n - 1);
      NextFalls(Alone(s, t, n - 1), t);
    }
  }

  lemma NextFalls(s: State, t: Tid)
    requires Inv(s) && t < |s.threads|
    ensures t < |Step(s, Run(t)).threads|
    ensures StepsLeft(Step(s, Run(t)), t) <= if StepsLeft(s, t) > 0 then StepsLeft(s, t) - 1 else 0
  {
    if s.threads[t] == Idle {
      assert Step(s, Run(t)) == s;
    } else {
      StepFalls(s, t);
    }
  }

  /** No thread can be held up by others that stand still: wherever it and they are, a call that
      goes on alone is over after 22 steps. */
  lemma LoneCallEnds(s: State, t: Tid, n: nat)
    requires Inv(s) && t < |s.threads| && 22 <= n
    ensures Alone(s, t, n).threads[t] == Idle
  {
    LeftFalls(s, t, n);
    AtMost22(s, t);
    OverAtZero(Alone(s, t, n), t);
  }

  lemma AtMost22(s: State, t: Tid)
    requires t < |s.threads|
    ensures StepsLeft(s, t) <= 22
  {
  }

  lemma OverAtZero(s: State, t: Tid)
    requires t < |s.threads| && StepsLeft(s, t) == 0
    ensures s.threads[t] == Idle
  {
  }
}
