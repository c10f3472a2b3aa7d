/** The per-producer dequeue protocol: one producer publishing a tail, any number of
    consumers taking optimistic tickets, correcting the count by an overcommit they
    may have read long ago, and claiming indices from the head. Counters are true
    integers here; FirstTestAgrees and SecondTestAgrees say when the code's wrapped tests
    agree with the true ones. */
module DequeueTickets {
  import opened Sums
  import opened Circular
  import opened Products

  type Tid = nat

  // The fate of one ticket: one unit of the optimistic count.
  datatype Ticket = Pending(t: Tid) | Won(t: Tid) | Lost(t: Tid) | Claimed | Counted

  // Who reads an index handed out by the head counter.
  datatype Reader = Reading(t: Tid) | Done

  datatype Kind = Single | Bulk(max: nat)

  datatype PC =
    | Idle
    | LoadTail(kind: Kind)
    | LoadOver(kind: Kind, tail: nat)
    | LoadOpt(kind: Kind, tail: nat, over: nat)
    | FetchOpt(want: nat, over: nat)
    | Reload(my: nat, want: nat, over: nat)
    | AddOver(my: nat, want: nat, won: nat)
    | AddHead(my: nat, won: nat)
    | Read(first: nat, left: nat)

  datatype State<T> = State(
    tail: nat, opt: nat, over: nat, head: nat,
    slots: seq<T>,               // elements constructed by the producer, by index
    threads: seq<PC>,
    tickets: seq<Ticket>,        // bookkeeping: fates of the tickets
    readers: seq<Reader>,        // bookkeeping: who got each claimed index
    taken: map<nat, T>)          // what was moved out of each index

  datatype Action<T> =
    | Construct(x: T)            // the producer builds the next element
    | Publish                    // ... and stores the new tail
    | Begin(t: Tid, kind: Kind)
    | Run(t: Tid)

  function Min(a: int, b: int): int {
    if a < b then a else b
  }

  // How many tickets to ask for, given the elements that seem available.
  function Want(kind: Kind, available: int): nat
    requires 0 < available
  {
    match kind
    case Single => 1
    case Bulk(max) => Min(available, max)
  }

  function Repeat<A>(n: nat, a: A): (r: seq<A>)
    ensures |r| == n && forall i :: 0 <= i < n ==> r[i] == a
  {
    seq(n, _ => a)
  }

  /** The n entries from position `from` replaced by `a`. */
  function Mark<A>(s: seq<A>, from: nat, n: nat, a: A): (r: seq<A>)
    ensures from + n <= |s| ==>
              |r| == |s| && forall i :: 0 <= i < |s| ==> r[i] == if from <= i < from + n then a else s[i]
  {
    if from + n <= |s| then s[..from] + Repeat(n, a) + s[from + n..] else s
  }

  function Step<T>(s: State<T>, a: Action<T>): State<T> {
    match a
    case Construct(x) => s.(slots := s.slots + [x])
    case Publish => s.(tail := |s.slots|)
    case Begin(t, kind) =>
      if t < |s.threads| && s.threads[t] == Idle then Goto(s, t, LoadTail(kind)) else s
    case Run(t) =>
      if t < |s.threads| then Tick(s, t) else s
  }

  function Goto<T>(s: State<T>, t: Tid, pc: PC): State<T>
    requires t < |s.threads|
  {
    s.(threads := s.threads[t := pc])
  }

  function Tick<T>(s: State<T>, t: Tid): State<T>
    requires t < |s.threads|
  {
    match s.threads[t]
    case Idle => s
    case LoadTail(kind) => Goto(s, t, LoadOver(kind, s.tail))
    case LoadOver(kind, tail) => Goto(s, t, LoadOpt(kind, tail, s.over))
    case LoadOpt(kind, tail, over) =>
      if s.opt - over < tail then Goto(s, t, FetchOpt(Want(kind, tail - (s.opt - over)), over))
      else Goto(s, t, Idle)
    case FetchOpt(want, over) =>
      Goto(s, t, Reload(s.opt, want, over)).(
        opt := s.opt + want, tickets := s.tickets + Repeat(want, Pending(t)))
    case Reload(my, want, over) =>
      if my - over < s.tail then
        var won := Min(want, s.tail - (my - over));
        var tickets := Mark(Mark(s.tickets, my, won, Won(t)), my + won, want - won, Lost(t));
        Goto(s, t, if won < want then AddOver(my, want, won) else AddHead(my, won)).(tickets := tickets)
      else
        Goto(s, t, AddOver(my, want, 0)).(tickets := Mark(s.tickets, my, want, Lost(t)))
    case AddOver(my, want, won) =>
      if won <= want then
        Goto(s, t, if won > 0 then AddHead(my, won) else Idle).(
          over := s.over + (want - won), tickets := Mark(s.tickets, my + won, want - won, Counted))
      else s
    case AddHead(my, won) =>
      Goto(s, t, Read(s.head, won)).(
        head := s.head + won,
        tickets := Mark(s.tickets, my, won, Claimed),
        readers := s.readers + Repeat(won, Reading(t)))
    case Read(first, left) =>
      if left > 0 && first < |s.slots| then
        Goto(s, t, Read(first + 1, left - 1)).(
          taken := s.taken[first := s.slots[first]], readers := Mark(s.readers, first, 1, Done))
      else Goto(s, t, Idle)
  }

  function Init<T>(threads: nat): State<T> {
    State(0, 0, 0, 0, [], Repeat(threads, Idle), [], [], map[])
  }

  // ---------- Counting tickets ----------

  datatype Class = Won_ | Claimed_ | Counted_

  function Weight(k: Ticket, c: Class): int {
    match c
    case Won_ => if k.Won? || k.Claimed? then 1 else 0
    case Claimed_ => if k.Claimed? then 1 else 0
    case Counted_ => if k.Counted? then 1 else 0
  }

  function Weights(ts: seq<Ticket>, c: Class): (w: seq<int>)
    ensures |w| == |ts|
  {
    seq(|ts|, i requires 0 <= i < |ts| => Weight(ts[i], c))
  }

  function Count(ts: seq<Ticket>, c: Class): int {
    Sum(Weights(ts, c))
  }

  lemma CountAppend(ts: seq<Ticket>, k: Ticket, c: Class)
    ensures Count(ts + [k], c) == Count(ts, c) + Weight(k, c)
  {
    assert Weights(ts + [k], c) == Weights(ts, c) + [Weight(k, c)];
    SumAppend(Weights(ts, c), Weight(k, c));
  }

  lemma {:induction false} CountExtend(ts: seq<Ticket>, n: nat, k: Ticket, c: Class)
    ensures Count(ts + Repeat(n, k), c) == Count(ts, c) + n * Weight(k, c)
  {
    if n == 0 {
      assert ts + Repeat(0, k) == ts;
    } else {
      CountExtend(ts, n - 1, k, c);
      assert ts + Repeat(n, k) == (ts + Repeat(n - 1, k)) + [k];
      CountAppend(ts + Repeat(n - 1, k), k, c);
    }
  }

  lemma {:induction false} CountMark(ts: seq<Ticket>, from: nat, n: nat, was: Ticket, k: Ticket, c: Class)
    requires from + n <= |ts| && forall i :: from <= i < from + n ==> ts[i] == was
    ensures Count(Mark(ts, from, n, k), c) == Count(ts, c) + n * (Weight(k, c) - Weight(was, c))
  {
    if n == 0 {
      assert Mark(ts, from, 0, k) == ts;
    } else {
      var shorter := Mark(ts, from, n - 1, k);
      OneMore(n - 1, Weight(k, c) - Weight(was, c));
      CountMark(ts, from, n - 1, was, k, c);
      assert Mark(ts, from, n, k) == shorter[from + n - 1 := k];
      assert Weights(shorter[from + n - 1 := k], c) == Weights(shorter, c)[from + n - 1 := Weight(k, c)];
      SumUpdate(Weights(shorter, c), from + n - 1, Weight(k, c));
    }
  }

  // Pointwise comparison of two ticket sequences carries over to their counts.
  lemma {:induction false} CountMono(a: seq<Ticket>, b: seq<Ticket>, c: Class)
    requires |a| == |b| && forall i :: 0 <= i < |a| ==> Weight(a[i], c) <= Weight(b[i], c)
    ensures Count(a, c) <= Count(b, c)
  {
    if a == [] {
    } else {
      var m := |a| - 1;
      CountMono(a[..m], b[..m], c);
      assert a == a[..m] + [a[m]] && b == b[..m] + [b[m]];
      CountAppend(a[..m], a[m], c);
      CountAppend(b[..m], b[m], c);
    }
  }

  lemma {:induction false} CountPrefix(ts: seq<Ticket>, m: nat, c: Class)
    requires m <= |ts|
    ensures 0 <= Count(ts[..m], c) <= Count(ts, c)
    decreases |ts|
  {
    if m == |ts| {
      assert ts[..m] == ts;
      SumNonNeg(Weights(ts, c));
    } else {
      var p := ts[..|ts| - 1];
      assert p[..m] == ts[..m] && ts == p + [ts[|ts| - 1]];
      CountPrefix(p, m, c);
      CountAppend(p, ts[|ts| - 1], c);
    }
  }

  lemma {:induction false} WonPlusCounted(ts: seq<Ticket>)
    ensures Count(ts, Won_) + Count(ts, Counted_) <= |ts|
    ensures 0 <= Count(ts, Claimed_) <= Count(ts, Won_)
  {
    if ts != [] {
      var m := |ts| - 1;
      WonPlusCounted(ts[..m]);
      assert ts == ts[..m] + [ts[m]];
      CountAppend(ts[..m], ts[m], Won_);
      CountAppend(ts[..m], ts[m], Counted_);
      CountAppend(ts[..m], ts[m], Claimed_);
    }
  }

  // ---------- The invariant ----------

  ghost predicate All<A>(s: seq<A>, from: int, to: int, a: A) {
    0 <= from <= to <= |s| && forall i :: from <= i < to ==> s[i] == a
  }

  ghost predicate ThreadOk<T>(s: State<T>, t: Tid)
    requires t < |s.threads|
  {
    match s.threads[t]
    case LoadOver(_, tail) => tail <= s.tail
    case LoadOpt(_, tail, over) => tail <= s.tail && over <= s.over
    case FetchOpt(_, over) => over <= s.over
    case Reload(my, want, over) =>
      && All(s.tickets, my, my + want, Pending(t))
      && over <= Count(s.tickets[..my], Counted_)
    case AddOver(my, want, won) =>
      && won <= want
      && All(s.tickets, my, my + won, Won(t))
      && All(s.tickets, my + won, my + want, Lost(t))
    case AddHead(my, won) => All(s.tickets, my, my + won, Won(t))
    case Read(first, left) => All(s.readers, first, first + left, Reading(t))
    case _ => true
  }

  // The thread a ticket names is still working on it.
  ghost predicate OwnerOk<T>(s: State<T>, i: nat)
    requires i < |s.tickets|
  {
    match s.tickets[i]
    case Pending(t) =>
      t < |s.threads| && s.threads[t].Reload? && s.threads[t].my <= i < s.threads[t].my + s.threads[t].want
    case Won(t) =>
      && t < |s.threads|
      && (s.threads[t].AddOver? || s.threads[t].AddHead?)
      && s.threads[t].my <= i < s.threads[t].my + s.threads[t].won
    case Lost(t) =>
      && t < |s.threads| && s.threads[t].AddOver?
      && s.threads[t].my + s.threads[t].won <= i < s.threads[t].my + s.threads[t].want
    case _ => true
  }

  ghost predicate ReaderOk<T>(s: State<T>, i: nat)
    requires i < |s.readers|
  {
    match s.readers[i]
    case Reading(t) =>
      && i !in s.taken && t < |s.threads| && s.threads[t].Read?
      && s.threads[t].first <= i < s.threads[t].first + s.threads[t].left
    case Done => i in s.taken && i < |s.slots| && s.taken[i] == s.slots[i]
  }

  /** The ticket-ordering argument: a won ticket's position, less the losses already
      counted among the tickets up to it, is within the tail. */
  ghost predicate WonInTail<T>(s: State<T>, i: nat)
    requires i < |s.tickets|
  {
    s.tickets[i].Won? || s.tickets[i].Claimed? ==> i + 1 - Count(s.tickets[..i + 1], Counted_) <= s.tail
  }

  ghost predicate Inv<T>(s: State<T>) {
    && |s.tickets| == s.opt
    && |s.readers| == s.head
    && s.tail <= |s.slots|
    && s.over == Count(s.tickets, Counted_)
    && s.head == Count(s.tickets, Claimed_)
    && (forall i :: i in s.taken ==> i < s.head)
    && (forall t :: 0 <= t < |s.threads| ==> ThreadOk(s, t))
    && (forall i :: 0 <= i < |s.tickets| ==> OwnerOk(s, i))
    && (forall i :: 0 <= i < |s.tickets| ==> WonInTail(s, i))
    && (forall i :: 0 <= i < |s.readers| ==> ReaderOk(s, i))
  }

  /** Claims never outnumber the published elements, though every consumer tested its
      ticket against an overcommit that may have been stale. */
  lemma HeadWithinTail<T>(s: State<T>)
    requires Inv(s)
    ensures Count(s.tickets, Won_) <= s.tail
    ensures s.head <= s.tail <= |s.slots|
  {
    LastWinner(s, |s.tickets|);
    assert s.tickets[..|s.tickets|] == s.tickets;
    WonPlusCounted(s.tickets);
  }

  lemma {:induction false} LastWinner<T>(s: State<T>, m: nat)
    requires Inv(s) && m <= |s.tickets|
    ensures Count(s.tickets[..m], Won_) <= s.tail
  {
    if m > 0 {
      var k := s.tickets[m - 1];
      assert s.tickets[..m] == s.tickets[..m - 1] + [k];
      if k.Won? || k.Claimed? {
        assert WonInTail(s, m - 1);
        WonPlusCounted(s.tickets[..m]);
      } else {
        LastWinner(s, m - 1);
        CountAppend(s.tickets[..m - 1], k, Won_);
      }
    }
  }

  // ---------- One step keeps the invariant ----------

  // The counted losses among any first m tickets never shrink.
  lemma CountedPrefixGrows(a: seq<Ticket>, b: seq<Ticket>, m: nat)
    requires m <= |a| <= |b|
    requires forall i :: 0 <= i < |a| && a[i].Counted? ==> b[i].Counted?
    ensures Count(a[..m], Counted_) <= Count(b[..m], Counted_)
  {
    CountMono(a[..m], b[..m], Counted_);
  }

  // Winners stay within the tail when losses only grow and no new ticket wins.
  lemma WinnersKeep<T>(s: State<T>, s': State<T>)
    requires Inv(s) && |s.tickets| <= |s'.tickets| && s.tail <= s'.tail
    requires forall i :: 0 <= i < |s.tickets| && s.tickets[i].Counted? ==> s'.tickets[i].Counted?
    requires forall i :: 0 <= i < |s'.tickets| && (s'.tickets[i].Won? || s'.tickets[i].Claimed?) ==>
               i < |s.tickets| && (s.tickets[i].Won? || s.tickets[i].Claimed?)
    ensures forall i :: 0 <= i < |s'.tickets| ==> WonInTail(s', i)
  {
    forall i | 0 <= i < |s'.tickets| ensures WonInTail(s', i) {
      if s'.tickets[i].Won? || s'.tickets[i].Claimed? {
        assert WonInTail(s, i);
        CountedPrefixGrows(s.tickets, s'.tickets, i + 1);
      }
    }
  }

  lemma ProducerInv<T>(s: State<T>, a: Action<T>)
    requires Inv(s) && (a.Construct? || a.Publish?)
    ensures Inv(Step(s, a))
  {
    var s' := Step(s, a);
    WinnersKeep(s, s');
    forall t | 0 <= t < |s'.threads| ensures ThreadOk(s', t) {
      assert ThreadOk(s, t);
    }
    forall i | 0 <= i < |s'.tickets| ensures OwnerOk(s', i) {
      assert OwnerOk(s, i);
    }
    forall i | 0 <= i < |s'.readers| ensures ReaderOk(s', i) {
      assert ReaderOk(s, i);
    }
  }

  // Steps that change only the program counter, between counters that own no ticket.
  lemma PureInv<T>(s: State<T>, t: Tid, pc: PC)
    requires Inv(s) && t < |s.threads|
    requires s.threads[t].Idle? || s.threads[t].LoadTail? || s.threads[t].LoadOver? || s.threads[t].LoadOpt?
    requires pc.Idle? || pc.LoadTail? || (pc.LoadOver? && pc.tail <= s.tail)
             || (pc.LoadOpt? && pc.tail <= s.tail && pc.over <= s.over) || (pc.FetchOpt? && pc.over <= s.over)
    ensures Inv(Goto(s, t, pc))
  {
    var s' := Goto(s, t, pc);
    forall u | 0 <= u < |s'.threads| ensures ThreadOk(s', u) {
      assert ThreadOk(s, u);
    }
    forall i | 0 <= i < |s'.tickets| ensures OwnerOk(s', i) {
      assert OwnerOk(s, i);
    }
    forall i | 0 <= i < |s'.tickets| ensures WonInTail(s', i) {
      assert WonInTail(s, i);
    }
    forall i | 0 <= i < |s'.readers| ensures ReaderOk(s', i) {
      assert ReaderOk(s, i);
    }
  }

  lemma FetchInv<T>(s: State<T>, t: Tid)
    requires Inv(s) && t < |s.threads| && s.threads[t].FetchOpt?
    ensures Inv(Tick(s, t))
  {
    var s' := Tick(s, t);
    var want := s.threads[t].want;
    assert ThreadOk(s, t);
    CountExtend(s.tickets, want, Pending(t), Counted_);
    CountExtend(s.tickets, want, Pending(t), Claimed_);
    assert s'.tickets[..s.opt] == s.tickets;
    WinnersKeep(s, s');
    forall u | 0 <= u < |s'.threads| ensures ThreadOk(s', u) {
      assert ThreadOk(s, u);
      if u != t && s.threads[u].Reload? {
        assert s'.tickets[..s.threads[u].my] == s.tickets[..s.threads[u].my];
      }
    }
    forall i | 0 <= i < |s'.tickets| ensures OwnerOk(s', i) {
      if i < |s.tickets| {
        assert OwnerOk(s, i);
      }
    }
    forall i | 0 <= i < |s'.readers| ensures ReaderOk(s', i) {
      assert ReaderOk(s, i);
    }
  }

  predicate Mine(k: Ticket, t: Tid) {
    k in {Pending(t), Won(t), Lost(t)}
  }

  // Threads other than t, when t re-marks tickets of its own.
  lemma OtherTickets<T>(s: State<T>, s': State<T>, t: Tid)
    requires Inv(s) && t < |s.threads| && |s'.threads| == |s.threads| && |s'.tickets| == |s.tickets|
    requires s'.threads == s.threads[t := s'.threads[t]] && s.over <= s'.over && s.tail <= s'.tail
    requires |s.readers| <= |s'.readers| && s'.readers[..|s.readers|] == s.readers
    requires s.slots == s'.slots && s.taken == s'.taken
    requires !s.threads[t].Read?
    requires forall i :: 0 <= i < |s.tickets| && s'.tickets[i] != s.tickets[i] ==>
               Mine(s.tickets[i], t) && s'.tickets[i] in {Won(t), Lost(t), Claimed, Counted}
    ensures forall u :: 0 <= u < |s.threads| && u != t ==> ThreadOk(s', u)
    ensures forall i :: 0 <= i < |s.tickets| && s.tickets[i] == s'.tickets[i] && !Mine(s.tickets[i], t) ==>
              OwnerOk(s', i)
    ensures forall i :: 0 <= i < |s.readers| ==> ReaderOk(s', i)
  {
    forall u | 0 <= u < |s.threads| && u != t ensures ThreadOk(s', u) {
      assert ThreadOk(s, u);
      if s.threads[u].Reload? {
        CountedPrefixGrows(s.tickets, s'.tickets, s.threads[u].my);
      }
    }
    forall i | 0 <= i < |s.tickets| && s.tickets[i] == s'.tickets[i] && !Mine(s.tickets[i], t)
      ensures OwnerOk(s', i)
    {
      assert OwnerOk(s, i);
    }
    forall i | 0 <= i < |s.readers| ensures ReaderOk(s', i) {
      assert ReaderOk(s, i);
      assert s'.readers[i] == s'.readers[..|s.readers|][i];
    }
  }

  // The tickets after the test: the first `won` of t's range won, the rest lost.
  function Decide(ts: seq<Ticket>, t: Tid, my: nat, want: nat, won: nat): seq<Ticket>
    requires won <= want
  {
    Mark(Mark(ts, my, won, Won(t)), my + won, want - won, Lost(t))
  }

  function Fate(ts: seq<Ticket>, t: Tid, my: nat, want: nat, won: nat, i: nat): Ticket
    requires i < |ts|
  {
    if my <= i < my + won then Won(t) else if my + won <= i < my + want then Lost(t) else ts[i]
  }

  lemma DecideCounts(ts: seq<Ticket>, t: Tid, my: nat, want: nat, won: nat)
    requires won <= want && All(ts, my, my + want, Pending(t))
    ensures |Decide(ts, t, my, want, won)| == |ts|
    ensures Count(Decide(ts, t, my, want, won), Counted_) == Count(ts, Counted_)
    ensures Count(Decide(ts, t, my, want, won), Claimed_) == Count(ts, Claimed_)
    ensures forall i :: 0 <= i < |ts| ==> Decide(ts, t, my, want, won)[i] == Fate(ts, t, my, want, won, i)
  {
    var half := Mark(ts, my, won, Won(t));
    CountMark(ts, my, won, Pending(t), Won(t), Counted_);
    CountMark(ts, my, won, Pending(t), Won(t), Claimed_);
    CountMark(half, my + won, want - won, Pending(t), Lost(t), Counted_);
    CountMark(half, my + won, want - won, Pending(t), Lost(t), Claimed_);
  }

  lemma ReloadInv<T>(s: State<T>, t: Tid)
    requires Inv(s) && t < |s.threads| && s.threads[t].Reload?
    ensures Inv(Tick(s, t))
  {
    var s' := Tick(s, t);
    var my, want, over := s.threads[t].my, s.threads[t].want, s.threads[t].over;
    assert ThreadOk(s, t);
    var won := if my - over < s.tail then Min(want, s.tail - (my - over)) else 0;
    assert Mark(s.tickets, my, 0, Won(t)) == s.tickets;
    assert s' == Goto(s, t, s'.threads[t]).(tickets := Decide(s.tickets, t, my, want, won));
    DecideCounts(s.tickets, t, my, want, won);
    DecideInv(s, s', t, won);
  }

  lemma DecideInv<T>(s: State<T>, s': State<T>, t: Tid, won: nat)
    requires Inv(s) && t < |s.threads| && s.threads[t].Reload?
    requires |s'.threads| == |s.threads| && won <= s.threads[t].want
    requires won == 0 || s.threads[t].my + won - s.threads[t].over <= s.tail
    requires s'.threads[t] == AddOver(s.threads[t].my, s.threads[t].want, won)
             || (s'.threads[t] == AddHead(s.threads[t].my, won) && won == s.threads[t].want)
    requires |s'.tickets| == |s.tickets|
    requires Count(s'.tickets, Counted_) == Count(s.tickets, Counted_)
    requires Count(s'.tickets, Claimed_) == Count(s.tickets, Claimed_)
    requires forall i :: 0 <= i < |s.tickets| ==>
               s'.tickets[i] == Fate(s.tickets, t, s.threads[t].my, s.threads[t].want, won, i)
    requires s' == Goto(s, t, s'.threads[t]).(tickets := s'.tickets)
    ensures Inv(s')
  {
    assert ThreadOk(s, t);
    assert s'.readers[..|s.readers|] == s.readers;
    OtherTickets(s, s', t);
    forall i | 0 <= i < |s'.tickets| ensures OwnerOk(s', i) {
      assert OwnerOk(s, i);
    }
    forall i | 0 <= i < |s'.tickets| ensures WonInTail(s', i) {
      DecideWinner(s, s', t, won, i);
    }
  }

  lemma DecideWinner<T>(s: State<T>, s': State<T>, t: Tid, won: nat, i: nat)
    requires Inv(s) && t < |s.threads| && s.threads[t].Reload? && i < |s.tickets|
    requires won == 0 || s.threads[t].my + won - s.threads[t].over <= s.tail == s'.tail
    requires |s'.tickets| == |s.tickets| && s.tail == s'.tail
    requires forall j :: 0 <= j < |s.tickets| && s.tickets[j].Counted? ==> s'.tickets[j].Counted?
    requires s.threads[t].my <= i < s.threads[t].my + won || s'.tickets[i] == s.tickets[i] || s'.tickets[i].Lost?
    ensures WonInTail(s', i)
  {
    var my := s.threads[t].my;
    assert ThreadOk(s, t) && WonInTail(s, i);
    CountedPrefixGrows(s.tickets, s'.tickets, i + 1);
    if my <= i < my + won {
      assert s.tickets[..i + 1][..my] == s.tickets[..my];
      CountPrefix(s.tickets[..i + 1], my, Counted_);
    }
  }

  lemma AddOverInv<T>(s: State<T>, t: Tid)
    requires Inv(s) && t < |s.threads| && s.threads[t].AddOver?
    ensures Inv(Tick(s, t))
  {
    var s' := Tick(s, t);
    var my, want, won := s.threads[t].my, s.threads[t].want, s.threads[t].won;
    assert ThreadOk(s, t);
    AddOverCounts(s.tickets, my + won, want - won, t);
    assert s'.readers[..|s.readers|] == s.readers;
    OtherTickets(s, s', t);
    WinnersKeep(s, s');
    forall i | 0 <= i < |s'.tickets| ensures OwnerOk(s', i) {
      CountedOwner(s, s', t, i);
    }
    assert ThreadOk(s', t);
  }

  lemma AddOverCounts(ts: seq<Ticket>, from: nat, n: nat, t: Tid)
    requires All(ts, from, from + n, Lost(t))
    ensures Count(Mark(ts, from, n, Counted), Counted_) == Count(ts, Counted_) + n
    ensures Count(Mark(ts, from, n, Counted), Claimed_) == Count(ts, Claimed_)
  {
    CountMark(ts, from, n, Lost(t), Counted, Counted_);
    CountMark(ts, from, n, Lost(t), Counted, Claimed_);
  }

  // The lost tickets of t's range are counted, so nobody owns them any more.
  lemma CountedOwner<T>(s: State<T>, s': State<T>, t: Tid, i: nat)
    requires t < |s.threads| && s.threads[t].AddOver? && s.threads[t].won <= s.threads[t].want
    requires i < |s.tickets| == |s'.tickets| && OwnerOk(s, i)
    requires var pc := s.threads[t];
             s'.tickets[i] == if pc.my + pc.won <= i < pc.my + pc.want then Counted else s.tickets[i]
    requires |s'.threads| == |s.threads| && s'.threads == s.threads[t := s'.threads[t]]
    requires var pc := s.threads[t];
             if pc.won > 0 then s'.threads[t] == AddHead(pc.my, pc.won) else s'.threads[t] == Idle
    ensures OwnerOk(s', i)
  {
  }

  lemma AddHeadInv<T>(s: State<T>, t: Tid)
    requires Inv(s) && t < |s.threads| && s.threads[t].AddHead?
    ensures Inv(Tick(s, t))
  {
    var s' := Tick(s, t);
    var my, won := s.threads[t].my, s.threads[t].won;
    assert ThreadOk(s, t);
    CountMark(s.tickets, my, won, Won(t), Claimed, Counted_);
    CountMark(s.tickets, my, won, Won(t), Claimed, Claimed_);
    assert s'.readers[..|s.readers|] == s.readers;
    OtherTickets(s, s', t);
    WinnersKeep(s, s');
    forall i | 0 <= i < |s'.tickets| ensures OwnerOk(s', i) {
      assert OwnerOk(s, i);
    }
    forall i | 0 <= i < |s'.readers| ensures ReaderOk(s', i) {
      if i >= |s.readers| {
        assert s'.readers[i] == Reading(t) && i !in s.taken;
      }
    }
  }

  lemma ReadInv<T>(s: State<T>, t: Tid)
    requires Inv(s) && t < |s.threads| && s.threads[t].Read?
    ensures Inv(Tick(s, t))
  {
    var s' := Tick(s, t);
    assert ThreadOk(s, t);
    HeadWithinTail(s);
    ReadReaders(s, t);
    forall u | 0 <= u < |s'.threads| ensures ThreadOk(s', u) {
      ReadThreads(s, t, u);
    }
    forall i | 0 <= i < |s'.tickets| ensures OwnerOk(s', i) && WonInTail(s', i) {
      assert OwnerOk(s, i) && WonInTail(s, i);
    }
  }

  lemma ReadReaders<T>(s: State<T>, t: Tid)
    requires t < |s.threads| && s.threads[t].Read? && ThreadOk(s, t) && |s.readers| <= |s.slots|
    requires forall i :: 0 <= i < |s.readers| ==> ReaderOk(s, i)
    ensures |Tick(s, t).readers| == |s.readers|
    ensures forall i :: 0 <= i < |s.readers| ==> ReaderOk(Tick(s, t), i)
  {
    var s' := Tick(s, t);
    forall i | 0 <= i < |s.readers| ensures ReaderOk(s', i) {
      assert ReaderOk(s, i);
    }
  }

  lemma ReadThreads<T>(s: State<T>, t: Tid, u: Tid)
    requires t < |s.threads| && u < |s.threads| && s.threads[t].Read? && |s.readers| <= |s.slots|
    requires ThreadOk(s, t) && ThreadOk(s, u)
    ensures ThreadOk(Tick(s, t), u)
  {
    var s' := Tick(s, t);
    if u != t && s.threads[u].Read? {
      var first, left := s.threads[u].first, s.threads[u].left;
      assert forall i :: first <= i < first + left ==> s'.readers[i] == s.readers[i];
    }
  }

  /** Every interleaving of producer and consumer steps keeps the invariant. */
  lemma StepInv<T>(s: State<T>, a: Action<T>)
    requires Inv(s)
    ensures Inv(Step(s, a)) && |Step(s, a).threads| == |s.threads|
  {
    match a
    case Construct(_) => ProducerInv(s, a);
    case Publish => ProducerInv(s, a);
    case Begin(t, kind) =>
      if t < |s.threads| && s.threads[t] == Idle {
        PureInv(s, t, LoadTail(kind));
      }
    case Run(t) =>
      if t < |s.threads| {
        assert ThreadOk(s, t);
        match s.threads[t]
        case Idle =>
        case FetchOpt(_, _) => FetchInv(s, t);
        case Reload(_, _, _) => ReloadInv(s, t);
        case AddOver(_, _, _) => AddOverInv(s, t);
        case AddHead(_, _) => AddHeadInv(s, t);
        case Read(_, _) => ReadInv(s, t);
        case _ => PureInv(s, t, Tick(s, t).threads[t]);
      }
  }

  ghost function Started<T>(threads: nat): (s: State<T>)
    ensures Inv(s) && |s.threads| == threads
  {
    Init(threads)
  }

  /** The state after a whole schedule; its contract is safety over every run. */
  ghost function Execute<T>(s: State<T>, actions: seq<Action<T>>): (r: State<T>)
    requires Inv(s)
    ensures Inv(r) && |r.threads| == |s.threads|
    decreases |actions|
  {
    if actions == [] then s
    else
      var before := Execute(s, actions[..|actions| - 1]);
      StepInv(before, actions[|actions| - 1]);
      Step(before, actions[|actions| - 1])
  }

  ghost predicate Reachable<T(!new)>(s: State<T>) {
    exists threads: nat, actions: seq<Action<T>> :: s == Execute(Init<T>(threads), actions)
  }

  /** A consumer about to move an element out reads an index that is claimed, below the
      published tail, constructed, not yet delivered, and in no other consumer's hands. */
  lemma DeliveredOnceAfterConstruction<T(!new)>(s: State<T>, t: Tid)
    requires Reachable(s) && t < |s.threads| && s.threads[t].Read? && 0 < s.threads[t].left
    ensures s.threads[t].first < s.head <= s.tail <= |s.slots|
    ensures s.threads[t].first !in s.taken
    ensures Tick(s, t).taken == s.taken[s.threads[t].first := s.slots[s.threads[t].first]]
    ensures forall u :: 0 <= u < |s.threads| && u != t && s.threads[u].Read? ==>
              !(s.threads[u].first <= s.threads[t].first < s.threads[u].first + s.threads[u].left)
  {
    assert Inv(s) && ThreadOk(s, t);
    HeadWithinTail(s);
    assert ReaderOk(s, s.threads[t].first);
    forall u | 0 <= u < |s.threads| && u != t && s.threads[u].Read?
      ensures !(s.threads[u].first <= s.threads[t].first < s.threads[u].first + s.threads[u].left)
    {
      assert ThreadOk(s, u);
    }
  }

  /** With no dequeue in flight the corrected optimistic count is the head, and the elements
      delivered are exactly the first `head` ones the producer built, each under its index. */
  lemma QuiescentBalance<T>(s: State<T>)
    requires Inv(s) && forall t :: 0 <= t < |s.threads| ==> s.threads[t] == Idle
    ensures s.opt - s.over == s.head <= s.tail
    ensures forall i :: i in s.taken <==> 0 <= i < s.head
    ensures forall i :: i in s.taken ==> i < |s.slots| && s.taken[i] == s.slots[i]
  {
    HeadWithinTail(s);
    forall i | 0 <= i < |s.tickets| ensures s.tickets[i].Claimed? || s.tickets[i].Counted? {
      assert OwnerOk(s, i);
    }
    AllResolved(s.tickets);
    forall i | 0 <= i < s.head ensures i in s.taken && i < |s.slots| && s.taken[i] == s.slots[i] {
      assert ReaderOk(s, i);
    }
  }

  lemma {:induction false} AllResolved(ts: seq<Ticket>)
    requires forall i :: 0 <= i < |ts| ==> ts[i].Claimed? || ts[i].Counted?
    ensures Count(ts, Claimed_) + Count(ts, Counted_) == |ts|
  {
    if ts != [] {
      var m := |ts| - 1;
      AllResolved(ts[..m]);
      assert ts == ts[..m] + [ts[m]];
      CountAppend(ts[..m], ts[m], Claimed_);
      CountAppend(ts[..m], ts[m], Counted_);
    }
  }

  // n steps of thread t alone.
  function Ticks<T>(s: State<T>, t: Tid, n: nat): (r: State<T>)
    requires t < |s.threads|
    ensures |r.threads| == |s.threads|
  {
    if n == 0 then s else Tick(Ticks(s, t, n - 1), t)
  }

  // k elements were taken from the head on, and nothing else has changed.
  ghost predicate Dequeued<T>(s: State<T>, r: State<T>, k: nat) {
    && r.threads == s.threads && r.head == s.head + k && r.over == s.over && r.opt == s.opt + k
    && s.head + k <= |s.slots| && TookRange(s, r, s.head, k)
  }

  /** A dequeue that runs alone finds what the others, wherever they were stopped, left to take.
      The single form takes one element, the bulk form as many as it may and there are; they are
      the next ones from the head, moved out under their own indices, and the call is over. */
  lemma SoloDequeue<T>(s: State<T>, t: Tid, kind: Kind)
    requires Inv(s) && t < |s.threads| && s.threads[t] == Idle && s.opt - s.over < s.tail
    ensures var free := s.tail - (s.opt - s.over);
            var k := if kind.Single? then 1 else if kind.max < free then kind.max else free;
            k <= free <= s.tail - s.head && Dequeued(s, Ticks(Step(s, Begin(t, kind)), t, 7 + k), k)
  {
    FreeAreThere(s);
    SoloSteps(s, t, kind);
    var free := s.tail - (s.opt - s.over);
    var k := if kind.Single? then 1 else if kind.max < free then kind.max else free;
    SoloEnd(s, Step(s, Begin(t, kind)), t, k, 6);
  }

  lemma FreeAreThere<T>(s: State<T>)
    requires Inv(s)
    ensures s.tail - (s.opt - s.over) <= s.tail - s.head && s.tail <= |s.slots|
    ensures forall i :: i in s.taken ==> i < s.head
  {
    HeadWithinTail(s);
    WonPlusCounted(s.tickets);
  }

  lemma SoloEnd<T>(s: State<T>, s1: State<T>, t: Tid, k: nat, m: nat)
    requires t < |s.threads| == |s1.threads| && s.threads[t] == Idle && s.head + k <= |s.slots|
    requires ClaimedAlone(s, Ticks(s1, t, m), t, k)
    ensures Dequeued(s, Ticks(s1, t, m + 1 + k), k)
  {
    TicksAdd(s1, t, m, k + 1);
    SoloReads(Ticks(s1, t, m), t, s.head, k);
    assert s.threads[t := Read(s.head, k)][t := Idle] == s.threads;
  }

  /** With no other dequeue under way that is all there is, or as much as was asked for. */
  lemma SoloTakesAll<T>(s: State<T>)
    requires Inv(s) && forall u :: 0 <= u < |s.threads| ==> s.threads[u] == Idle
    ensures s.tail - (s.opt - s.over) == s.tail - s.head
  {
    QuiescentBalance(s);
  }

  /** With nothing to take it comes back at once and nothing has changed. */
  lemma SoloEmpty<T>(s: State<T>, t: Tid, kind: Kind)
    requires t < |s.threads| && s.threads[t] == Idle && s.opt - s.over >= s.tail
    ensures Ticks(Step(s, Begin(t, kind)), t, 3) == s
  {
    var s1 := Step(s, Begin(t, kind));
    assert Ticks(s1, t, 1) == Goto(s1, t, LoadOver(kind, s.tail));
    assert Ticks(s1, t, 2) == Goto(s1, t, LoadOpt(kind, s.tail, s.over));
    assert Ticks(s1, t, 3).threads == s.threads;
  }

  lemma OneMoreTick<T>(s: State<T>, t: Tid, n: nat)
    requires t < |s.threads|
    ensures Ticks(s, t, n + 1) == Tick(Ticks(s, t, n), t)
  {
  }

  lemma {:induction false} TicksAdd<T>(s: State<T>, t: Tid, m: nat, n: nat)
    requires t < |s.threads|
    ensures Ticks(s, t, m + n) == Ticks(Ticks(s, t, m), t, n)
  {
    if n > 0 {
      TicksAdd(s, t, m, n - 1);
      OneMoreTick(s, t, m + n - 1);
      OneMoreTick(Ticks(s, t, m), t, n - 1);
    }
  }

  lemma TickFirst<T>(s: State<T>, t: Tid, n: nat)
    requires t < |s.threads|
    ensures |Tick(s, t).threads| == |s.threads| && Ticks(s, t, n + 1) == Ticks(Tick(s, t), t, n)
  {
    TicksAdd(s, t, 1, n);
    OneMoreTick(s, t, 0);
  }

  // A call that is over does nothing any more.
  lemma {:induction false} IdleStays<T>(s: State<T>, t: Tid, n: nat)
    requires t < |s.threads| && s.threads[t] == Idle
    ensures Ticks(s, t, n) == s
  {
    if n > 0 {
      IdleStays(s, t, n - 1);
    }
  }

  lemma OverLater<T>(s: State<T>, t: Tid, m: nat, n: nat)
    requires t < |s.threads| && m <= n && Ticks(s, t, m).threads[t] == Idle
    ensures Ticks(s, t, n) == Ticks(s, t, m)
  {
    TicksAdd(s, t, m, n - m);
    IdleStays(Ticks(s, t, m), t, n - m);
  }

  // So two numbers of steps after which it is over lead to the same state.
  lemma OverIsOver<T>(s: State<T>, t: Tid, m: nat, n: nat)
    requires t < |s.threads| && Ticks(s, t, m).threads[t] == Idle && Ticks(s, t, n).threads[t] == Idle
    ensures Ticks(s, t, m) == Ticks(s, t, n)
  {
    if m <= n {
      OverLater(s, t, m, n);
    } else {
      OverLater(s, t, n, m);
    }
  }

  ghost predicate ClaimedAlone<T>(s: State<T>, r: State<T>, t: Tid, k: nat)
    requires t < |s.threads|
  {
    && r.threads == s.threads[t := Read(s.head, k)] && r.head == s.head + k && r.over == s.over && r.opt == s.opt + k
    && r.slots == s.slots && r.taken == s.taken
  }

  lemma SoloSteps<T>(s: State<T>, t: Tid, kind: Kind)
    requires t < |s.threads| && s.threads[t] == Idle && s.opt - s.over < s.tail
    ensures var free := s.tail - (s.opt - s.over);
            var k := if kind.Single? then 1 else if kind.max < free then kind.max else free;
            ClaimedAlone(s, Ticks(Step(s, Begin(t, kind)), t, 6), t, k)
  {
    var free := s.tail - (s.opt - s.over);
    var k := if kind.Single? then 1 else if kind.max < free then kind.max else free;
    SoloLoads(s, Step(s, Begin(t, kind)), t, kind, k, 0);
    SoloClaims(s, Step(s, Begin(t, kind)), t, k, 3);
  }

  // The three loads and the first test.
  lemma SoloLoads<T>(s: State<T>, s1: State<T>, t: Tid, kind: Kind, k: nat, m: nat)
    requires t < |s.threads| == |s1.threads| && s.opt - s.over < s.tail
    requires var free := s.tail - (s.opt - s.over);
             k == if kind.Single? then 1 else if kind.max < free then kind.max else free
    requires Ticks(s1, t, m) == Goto(s, t, LoadTail(kind))
    ensures Ticks(s1, t, m + 3) == Goto(s, t, FetchOpt(k, s.over))
  {
    LoadsTail(s, t, kind);
    OneMoreTick(s1, t, m);
    LoadsOver(s, t, kind);
    OneMoreTick(s1, t, m + 1);
    LoadsOpt(s, t, kind, k);
    OneMoreTick(s1, t, m + 2);
  }

  lemma LoadsTail<T>(s: State<T>, t: Tid, kind: Kind)
    requires t < |s.threads|
    ensures Tick(Goto(s, t, LoadTail(kind)), t) == Goto(s, t, LoadOver(kind, s.tail))
  {
    assert s.threads[t := LoadTail(kind)][t := LoadOver(kind, s.tail)] == s.threads[t := LoadOver(kind, s.tail)];
  }

  lemma LoadsOver<T>(s: State<T>, t: Tid, kind: Kind)
    requires t < |s.threads|
    ensures Tick(Goto(s, t, LoadOver(kind, s.tail)), t) == Goto(s, t, LoadOpt(kind, s.tail, s.over))
  {
    var to := LoadOpt(kind, s.tail, s.over);
    assert s.threads[t := LoadOver(kind, s.tail)][t := to] == s.threads[t := to];
  }

  lemma LoadsOpt<T>(s: State<T>, t: Tid, kind: Kind, k: nat)
    requires t < |s.threads| && s.opt - s.over < s.tail
    requires var free := s.tail - (s.opt - s.over);
             k == if kind.Single? then 1 else if kind.max < free then kind.max else free
    ensures Tick(Goto(s, t, LoadOpt(kind, s.tail, s.over)), t) == Goto(s, t, FetchOpt(k, s.over))
  {
    var to := FetchOpt(k, s.over);
    assert s.threads[t := LoadOpt(kind, s.tail, s.over)][t := to] == s.threads[t := to];
  }

  // Taking the tickets, the second test and the claim.
  lemma SoloClaims<T>(s: State<T>, s1: State<T>, t: Tid, k: nat, m: nat)
    requires t < |s.threads| == |s1.threads| && k <= s.tail - (s.opt - s.over) && s.opt - s.over < s.tail
    requires Ticks(s1, t, m) == Goto(s, t, FetchOpt(k, s.over))
    ensures ClaimedAlone(s, Ticks(s1, t, m + 3), t, k)
  {
    OneMoreTick(s1, t, m);
    var q := Ticks(s1, t, m + 1);
    assert q == Goto(s, t, Reload(s.opt, k, s.over)).(opt := s.opt + k, tickets := q.tickets);
    OneMoreTick(s1, t, m + 1);
    var r := Ticks(s1, t, m + 2);
    assert r == Goto(s, t, AddHead(s.opt, k)).(opt := s.opt + k, tickets := r.tickets);
    OneMoreTick(s1, t, m + 2);
  }

  // What reading a range from `first` on leaves.
  ghost predicate TookRange<T>(s: State<T>, r: State<T>, first: nat, left: nat)
    requires first + left <= |s.slots|
  {
    && (forall i :: i in r.taken <==> i in s.taken || first <= i < first + left)
    && (forall i :: first <= i < first + left ==> r.taken[i] == s.slots[i])
    && (forall i :: i in s.taken && !(first <= i < first + left) ==> r.taken[i] == s.taken[i])
  }

  // The state after a claimed range was moved out and the call is over.
  ghost predicate ReadAll<T>(s: State<T>, r: State<T>, t: Tid, first: nat, left: nat)
    requires t < |s.threads| && first + left <= |s.slots|
  {
    && r.threads == s.threads[t := Idle] && r.head == s.head && r.over == s.over && r.opt == s.opt
    && TookRange(s, r, first, left)
  }

  // Moving a claimed range out, one element a step.
  lemma {:induction false} SoloReads<T>(s: State<T>, t: Tid, first: nat, left: nat)
    requires t < |s.threads| && s.threads[t] == Read(first, left) && first + left <= |s.slots|
    ensures ReadAll(s, Ticks(s, t, left + 1), t, first, left)
    decreases left
  {
    TickFirst(s, t, left);
    if left == 0 {
      ReadsNone(s, t, first);
    } else {
      ReadsOne(s, t, first, left);
      SoloReads(Tick(s, t), t, first + 1, left - 1);
      ReadOneMore(s, Tick(s, t), Ticks(Tick(s, t), t, left), t, first, left);
    }
  }

  lemma ReadsNone<T>(s: State<T>, t: Tid, first: nat)
    requires t < |s.threads| && s.threads[t] == Read(first, 0) && first <= |s.slots|
    ensures ReadAll(s, Ticks(Tick(s, t), t, 0), t, first, 0)
  {
  }

  lemma ReadOneMore<T>(s: State<T>, s1: State<T>, r: State<T>, t: Tid, first: nat, left: nat)
    requires t < |s.threads| == |s1.threads| && 0 < left && first + left <= |s.slots| && s1.slots == s.slots
    requires s1.threads == s.threads[t := Read(first + 1, left - 1)]
    requires s1.head == s.head && s1.over == s.over && s1.opt == s.opt && s1.taken == s.taken[first := s.slots[first]]
    requires ReadAll(s1, r, t, first + 1, left - 1)
    ensures ReadAll(s, r, t, first, left)
  {
    assert s.threads[t := Read(first + 1, left - 1)][t := Idle] == s.threads[t := Idle];
  }

  lemma ReadsOne<T>(s: State<T>, t: Tid, first: nat, left: nat)
    requires t < |s.threads| && s.threads[t] == Read(first, left) && 0 < left && first < |s.slots|
    ensures var r := Tick(s, t);
      && r.threads == s.threads[t := Read(first + 1, left - 1)] && r.head == s.head && r.over == s.over && r.opt == s.opt
      && r.slots == s.slots && r.taken == s.taken[first := s.slots[first]]
  {
  }

  // A call that had tickets for `want` elements is over, having claimed and moved out k and
  // counted the rest of the tickets as lost.
  ghost predicate Claims<T>(s: State<T>, r: State<T>, t: Tid, want: nat, k: nat)
    requires t < |s.threads|
  {
    && k <= want && r.threads == s.threads[t := Idle] && r.opt == s.opt && r.over == s.over + (want - k)
    && r.head == s.head + k && s.head + k <= |s.slots| && TookRange(s, r, s.head, k)
  }

  ghost predicate AboutToClaim<T>(s: State<T>, q: State<T>, t: Tid, my: nat, want: nat, k: nat)
    requires t < |s.threads|
  {
    && k <= want && q.threads == s.threads[t := AddHead(my, k)] && q.opt == s.opt && q.over == s.over + (want - k)
    && q.head == s.head && q.slots == s.slots && q.taken == s.taken
  }

  /** A thread that took tickets and goes on alone, whatever happened since it read the overcommit,
      claims as many elements as it wanted, or as the tail leaves for its tickets, moves them out,
      counts the other tickets as lost, and is done. */
  lemma SoloLateClaim<T>(s: State<T>, t: Tid)
    requires Inv(s) && t < |s.threads| && s.threads[t].Reload?
    ensures var pc := s.threads[t];
            var free := s.tail - (pc.my - pc.over);
            if free <= 0 then Claims(s, Ticks(s, t, 2), t, pc.want, 0)
            else if pc.want <= free then Claims(s, Ticks(s, t, 3 + pc.want), t, pc.want, pc.want)
            else Claims(s, Ticks(s, t, 4 + free), t, pc.want, free)
  {
    var pc := s.threads[t];
    var free := s.tail - (pc.my - pc.over);
    if free <= 0 {
      LosesAll(s, t, pc.my, pc.want, pc.over);
    } else if pc.want <= free {
      WinsAll(s, t, pc.my, pc.want, pc.over, 1);
    } else {
      WinsSome(s, t, pc.my, pc.want, pc.over, free, 2);
    }
  }

  lemma LosesAll<T>(s: State<T>, t: Tid, my: nat, want: nat, over: nat)
    requires Inv(s) && t < |s.threads| && s.threads[t] == Reload(my, want, over) && my - over >= s.tail
    ensures Claims(s, Ticks(s, t, 2), t, want, 0)
  {
    HeadWithinTail(s);
    OneMoreTick(s, t, 0);
    var q := Ticks(s, t, 1);
    assert q == Goto(s, t, AddOver(my, want, 0)).(tickets := q.tickets);
    OneMoreTick(s, t, 1);
    assert s.threads[t := AddOver(my, want, 0)][t := Idle] == s.threads[t := Idle];
  }

  lemma WinsAll<T>(s: State<T>, t: Tid, my: nat, want: nat, over: nat, m: nat)
    requires Inv(s) && t < |s.threads| && s.threads[t] == Reload(my, want, over) && m == 1
    requires my - over < s.tail && want <= s.tail - (my - over)
    ensures Claims(s, Ticks(s, t, m + 2 + want), t, want, want)
  {
    OneMoreTick(s, t, 0);
    assert AboutToClaim(s, Ticks(s, t, m), t, my, want, want);
    LateReads(s, t, my, want, want, m);
  }

  lemma WinsSome<T>(s: State<T>, t: Tid, my: nat, want: nat, over: nat, k: nat, m: nat)
    requires Inv(s) && t < |s.threads| && s.threads[t] == Reload(my, want, over) && m == 2
    requires k == s.tail - (my - over) && 0 < k < want
    ensures Claims(s, Ticks(s, t, m + 2 + k), t, want, k)
  {
    TwoTicks(s, t, my, want, over, k);
    LateReads(s, t, my, want, k, m);
  }

  lemma TwoTicks<T>(s: State<T>, t: Tid, my: nat, want: nat, over: nat, k: nat)
    requires t < |s.threads| && s.threads[t] == Reload(my, want, over)
    requires k == s.tail - (my - over) && 0 < k < want
    ensures AboutToClaim(s, Ticks(s, t, 2), t, my, want, k)
  {
    OneMoreTick(s, t, 0);
    var q := Ticks(s, t, 1);
    assert q == Goto(s, t, AddOver(my, want, k)).(tickets := q.tickets);
    OneMoreTick(s, t, 1);
    assert s.threads[t := AddOver(my, want, k)][t := AddHead(my, k)] == s.threads[t := AddHead(my, k)];
  }

  lemma {:induction false} TicksInv<T>(s: State<T>, t: Tid, n: nat)
    requires Inv(s) && t < |s.threads|
    ensures Inv(Ticks(s, t, n))
  {
    if n > 0 {
      TicksInv(s, t, n - 1);
      var a: Action<T> := Run(t);
      StepInv(Ticks(s, t, n - 1), a);
    }
  }

  lemma HeadFits<T>(s: State<T>, t: Tid, n: nat)
    requires Inv(s) && t < |s.threads|
    ensures Tick(Ticks(s, t, n), t).head <= |Tick(Ticks(s, t, n), t).slots|
  {
    TicksInv(s, t, n + 1);
    OneMoreTick(s, t, n);
    HeadWithinTail(Ticks(s, t, n + 1));
  }

  // First m steps, then one, then the rest.
  lemma TicksSplit<T>(s: State<T>, t: Tid, m: nat, k: nat)
    requires t < |s.threads|
    ensures |Tick(Ticks(s, t, m), t).threads| == |s.threads|
    ensures Ticks(s, t, m + 2 + k) == Ticks(Tick(Ticks(s, t, m), t), t, k + 1)
  {
    OneMoreTick(s, t, m);
    TicksAdd(s, t, m + 1, k + 1);
  }

  lemma LateReads<T>(s: State<T>, t: Tid, my: nat, want: nat, k: nat, m: nat)
    requires Inv(s) && t < |s.threads| && AboutToClaim(s, Ticks(s, t, m), t, my, want, k)
    ensures Claims(s, Ticks(s, t, m + 2 + k), t, want, k)
  {
    HeadFits(s, t, m);
    TicksSplit(s, t, m, k);
    AddsAndReads(s, Ticks(s, t, m), t, my, want, k);
  }

  lemma AddsAndReads<T>(s: State<T>, q: State<T>, t: Tid, my: nat, want: nat, k: nat)
    requires t < |s.threads| == |q.threads| && AboutToClaim(s, q, t, my, want, k)
    requires Tick(q, t).head <= |Tick(q, t).slots|
    ensures |Tick(q, t).threads| == |q.threads| && Claims(s, Ticks(Tick(q, t), t, k + 1), t, want, k)
  {
    var to := Read(s.head, k);
    assert s.threads[t := AddHead(my, k)][t := to] == s.threads[t := to];
    SoloReads(Tick(q, t), t, s.head, k);
    assert s.threads[t := to][t := Idle] == s.threads[t := Idle];
  }

  // ---------- Tickets in flight ----------

  // The tickets a thread took and has neither claimed nor counted as lost.
  function Open(pc: PC): nat {
    match pc
    case Reload(_, want, _) => want
    case AddOver(_, want, _) => want
    case AddHead(_, won) => won
    case _ => 0
  }

  function OpenWeights(threads: seq<PC>): (w: seq<int>)
    ensures |w| == |threads|
  {
    seq(|threads|, t requires 0 <= t < |threads| => Open(threads[t]))
  }

  function InFlight(threads: seq<PC>): int {
    Sum(OpenWeights(threads))
  }

  lemma InFlightMoves(threads: seq<PC>, t: Tid, pc: PC)
    requires t < |threads|
    ensures InFlight(threads[t := pc]) == InFlight(threads) - Open(threads[t]) + Open(pc)
  {
    assert OpenWeights(threads[t := pc]) == OpenWeights(threads)[t := Open(pc)];
    SumUpdate(OpenWeights(threads), t, Open(pc));
  }

  // What was taken is claimed, counted as lost, or still in the hands of some thread.
  ghost predicate Balanced<T>(s: State<T>) {
    s.opt - s.over - s.head == InFlight(s.threads)
  }

  lemma TickOpens<T>(s: State<T>, t: Tid)
    requires t < |s.threads|
    ensures |Tick(s, t).threads| == |s.threads| && Tick(s, t).threads == s.threads[t := Tick(s, t).threads[t]]
    ensures var r := Tick(s, t);
            (r.opt - r.over - r.head) - (s.opt - s.over - s.head) == Open(r.threads[t]) - Open(s.threads[t])
  {
  }

  lemma TickBalanced<T>(s: State<T>, t: Tid)
    requires Balanced(s) && t < |s.threads|
    ensures Balanced(Tick(s, t))
  {
    TickOpens(s, t);
    InFlightMoves(s.threads, t, Tick(s, t).threads[t]);
  }

  /** In every run the optimistic count less the overcommit and the head is what the calls in
      flight hold. */
  lemma {:induction false} OpenTickets<T>(threads: nat, actions: seq<Action<T>>)
    ensures Balanced(Execute(Started<T>(threads), actions))
    decreases |actions|
  {
    if actions == [] {
      SumZero(OpenWeights(Init<T>(threads).threads));
    } else {
      var before, a := actions[..|actions| - 1], actions[|actions| - 1];
      OpenTickets<T>(threads, before);
      var s := Execute(Started<T>(threads), before);
      if a.Run? && a.t < |s.threads| {
        TickBalanced(s, a.t);
      } else if a.Begin? && a.t < |s.threads| {
        InFlightMoves(s.threads, a.t, LoadTail(a.kind));
      }
    }
  }

  // ---------- What a call asked for ----------

  // The call of t that is under way, or was the last, after these actions: how many elements it
  // may take, and how many were delivered to it.
  ghost function Asked<T>(threads: nat, actions: seq<Action<T>>, t: Tid): nat
    decreases |actions|
  {
    if actions == [] then 0
    else
      var before, a := actions[..|actions| - 1], actions[|actions| - 1];
      if Starts(Execute(Started<T>(threads), before), a, t) then (if a.kind.Single? then 1 else a.kind.max)
      else Asked(threads, before, t)
  }

  ghost function Got<T>(threads: nat, actions: seq<Action<T>>, t: Tid): nat
    decreases |actions|
  {
    if actions == [] then 0
    else
      var before, a := actions[..|actions| - 1], actions[|actions| - 1];
      var s := Execute(Started<T>(threads), before);
      if Starts(s, a, t) then 0
      else Got(threads, before, t) + if a == Run(t) && Step(s, a).taken != s.taken then 1 else 0
  }

  predicate Starts<T>(s: State<T>, a: Action<T>, t: Tid) {
    a.Begin? && a.t == t && t < |s.threads| && s.threads[t] == Idle
  }

  // The most elements a call at this point may still get.
  function StillGets(pc: PC): nat {
    match pc
    case Idle => 0
    case LoadTail(kind) => Most(kind)
    case LoadOver(kind, _) => Most(kind)
    case LoadOpt(kind, _, _) => Most(kind)
    case FetchOpt(want, _) => want
    case Reload(_, want, _) => want
    case AddOver(_, want, won) => if won <= want then want else 0
    case AddHead(_, won) => won
    case Read(_, left) => left
  }

  function Most(kind: Kind): nat {
    match kind
    case Single => 1
    case Bulk(max) => max
  }

  lemma StillGetsLess<T>(s: State<T>, t: Tid)
    requires Inv(s) && t < |s.threads|
    ensures |Tick(s, t).threads| == |s.threads|
    ensures StillGets(Tick(s, t).threads[t]) + (if Tick(s, t).taken != s.taken then 1 else 0) <= StillGets(s.threads[t])
    ensures forall u :: 0 <= u < |s.threads| && u != t ==> Tick(s, t).threads[u] == s.threads[u]
  {
    assert ThreadOk(s, t);
    TickOpens(s, t);
    if s.threads[t].Read? {
      ReadGets(s, t);
    } else {
      TakesGet(s, t);
    }
  }

  lemma ReadGets<T>(s: State<T>, t: Tid)
    requires t < |s.threads| && s.threads[t].Read?
    ensures |Tick(s, t).threads| == |s.threads|
    ensures StillGets(Tick(s, t).threads[t]) + (if Tick(s, t).taken != s.taken then 1 else 0) <= StillGets(s.threads[t])
  {
  }

  lemma TakesGet<T>(s: State<T>, t: Tid)
    requires t < |s.threads| && !s.threads[t].Read? && (s.threads[t].AddOver? ==> s.threads[t].won <= s.threads[t].want)
    ensures |Tick(s, t).threads| == |s.threads| && Tick(s, t).taken == s.taken
    ensures StillGets(Tick(s, t).threads[t]) <= StillGets(s.threads[t])
  {
  }

  ghost predicate WithinAsked<T>(threads: nat, actions: seq<Action<T>>, t: Tid)
    requires t < threads
  {
    Got(threads, actions, t) + StillGets(Execute(Started<T>(threads), actions).threads[t]) <= Asked(threads, actions, t)
  }

  lemma WithinAfter<T>(threads: nat, actions: seq<Action<T>>, t: Tid)
    requires t < threads && actions != [] && WithinAsked(threads, actions[..|actions| - 1], t)
    ensures WithinAsked(threads, actions, t)
  {
    var s, a := Execute(Started<T>(threads), actions[..|actions| - 1]), actions[|actions| - 1];
    if a.Run? && a.t < |s.threads| {
      StillGetsLess(s, a.t);
    }
  }

  lemma {:induction false} GotWithinAsked<T>(threads: nat, actions: seq<Action<T>>, t: Tid)
    requires t < threads
    ensures WithinAsked(threads, actions, t)
    decreases |actions|
  {
    if actions == [] {
      assert StillGets(Init<T>(threads).threads[t]) == 0;
    } else {
      GotWithinAsked(threads, actions[..|actions| - 1], t);
      WithinAfter(threads, actions, t);
    }
  }

  /** In every run what a call was given, together with the range it still reads, and together
      with the tickets it has in flight but for those already lost, is never more than it asked
      for: one element for the single form, max for the bulk form. */
  lemma NeverMoreThanAsked<T>(threads: nat, actions: seq<Action<T>>, t: Tid)
    requires t < threads
    ensures var pc, got, asked := Execute(Started<T>(threads), actions).threads[t],
                                  Got(threads, actions, t), Asked(threads, actions, t);
      && got <= asked && Open(pc) <= asked
      && (pc.Read? ==> got + pc.left <= asked)
      && (pc.AddHead? ==> got + pc.won <= asked)
  {
    GotWithinAsked(threads, actions, t);
    assert ThreadOk(Execute(Started<T>(threads), actions), t);
  }

  /** So at most `threads` times what one call asks for is in flight. */
  lemma InFlightAtMost(threads: seq<PC>, most: nat)
    requires forall t :: 0 <= t < |threads| ==> Open(threads[t]) <= most
    ensures InFlight(threads) <= |threads| * most
  {
    SumAtMost(OpenWeights(threads), most);
  }

  // ---------- Wrapped tests ----------

  // Of the claimed tickets at most those from position m on are missing among the first m.
  lemma {:induction false} ClaimedBefore(ts: seq<Ticket>, m: nat)
    requires m <= |ts|
    ensures Count(ts, Claimed_) <= Count(ts[..m], Claimed_) + (|ts| - m)
    decreases |ts|
  {
    if m == |ts| {
      assert ts[..m] == ts;
    } else {
      var p := ts[..|ts| - 1];
      assert p[..m] == ts[..m] && ts == p + [ts[|ts| - 1]];
      ClaimedBefore(p, m);
      CountAppend(p, ts[|ts| - 1], Claimed_);
    }
  }

  /** How far a ticket's corrected position can be from the tail: at most the tickets in flight
      and the losses counted since the overcommit was read ahead of it, and at most the
      elements in the queue and the tickets issued since behind it. */
  lemma TicketDistance<T>(s: State<T>, t: Tid)
    requires Inv(s) && t < |s.threads| && s.threads[t].Reload?
    ensures var my, over := s.threads[t].my, s.threads[t].over;
      && my <= s.opt && over <= s.over
      && my - over - s.tail <= (s.opt - s.over - s.head) + (s.over - over)
      && s.tail - (my - over) <= (s.tail - s.head) + (s.opt - my)
  {
    var my := s.threads[t].my;
    assert ThreadOk(s, t);
    HeadWithinTail(s);
    ClaimedBefore(s.tickets, my);
    WonPlusCounted(s.tickets[..my]);
    CountPrefix(s.tickets, my, Counted_);
  }

  // The same for the first test, with a tail and an overcommit read before.
  lemma CountDistance<T>(s: State<T>, t: Tid)
    requires Inv(s) && t < |s.threads| && s.threads[t].LoadOpt?
    ensures var tail, over := s.threads[t].tail, s.threads[t].over;
      && tail <= s.tail && over <= s.over
      && s.opt - over - tail <= (s.opt - s.over - s.head) + (s.over - over) + (s.tail - tail)
      && tail - (s.opt - over) <= s.tail - s.head
  {
    assert ThreadOk(s, t);
    HeadWithinTail(s);
    WonPlusCounted(s.tickets);
  }

  // The single-element test on wrapped words decides like the true one, and the bulk form,
  // which first forms the wrapped count and then tests it, passes exactly when elements are
  // left and then has their true number.
  ghost predicate WordsAgree(my: nat, over: nat, tail: nat) {
    var count := Word(Word(tail) - Word(Word(my) - Word(over)));
    && (CircularLess(Word(Word(my) - Word(over)), Word(tail)) <==> my - over < tail)
    && (CircularLess(0, count) <==> my - over < tail)
    && (my - over < tail ==> count == tail - (my - over))
  }

  // They do whenever the two sides are less than half a turn apart.
  lemma HalfATurnApart(my: nat, over: nat, tail: nat)
    requires -HALF < my - over - tail <= HALF
    ensures WordsAgree(my, over, tail)
  {
    var left := tail - (my - over);
    WordOfWords(my, over);
    CircularLessExact(my - over, tail);
    WordOfWords(tail, my - over);
    assert Word(Word(tail) - Word(Word(my) - Word(over))) == Word(left);
    CircularLessExact(0, left);
    SmallWord(left);
  }

  lemma SmallWord(x: int)
    ensures 0 <= x < WORD ==> Word(x) == x
  {
  }

  /** In every run the wrapped test after taking tickets agrees with the true one, in both the
      single and the bulk form, as long as less than half a turn of elements is in the queue or
      tickets issued since, and less than half a turn of tickets is in flight or counted as
      lost since the overcommit was read. */
  lemma SecondTestAgrees<T>(threads: nat, actions: seq<Action<T>>, t: Tid)
    requires t < threads && Execute(Started<T>(threads), actions).threads[t].Reload?
    requires var s := Execute(Started<T>(threads), actions);
      && (s.tail - s.head) + (s.opt - s.threads[t].my) < HALF
      && InFlight(s.threads) + (s.over - s.threads[t].over) < HALF
    ensures var s := Execute(Started<T>(threads), actions);
            WordsAgree(s.threads[t].my, s.threads[t].over, s.tail)
  {
    var s := Execute(Started<T>(threads), actions);
    OpenTickets<T>(threads, actions);
    TicketDistance(s, t);
    HalfATurnApart(s.threads[t].my, s.threads[t].over, s.tail);
  }

  /** So does the test before, which compares the optimistic count with a tail and an overcommit
      read earlier, counting also the elements published since. */
  lemma FirstTestAgrees<T>(threads: nat, actions: seq<Action<T>>, t: Tid)
    requires t < threads && Execute(Started<T>(threads), actions).threads[t].LoadOpt?
    requires var s := Execute(Started<T>(threads), actions);
      && s.tail - s.head < HALF
      && InFlight(s.threads) + (s.over - s.threads[t].over) + (s.tail - s.threads[t].tail) < HALF
    ensures var s := Execute(Started<T>(threads), actions);
            WordsAgree(s.opt, s.threads[t].over, s.threads[t].tail)
  {
    var s := Execute(Started<T>(threads), actions);
    OpenTickets<T>(threads, actions);
    CountDistance(s, t);
    HalfATurnApart(s.opt, s.threads[t].over, s.threads[t].tail);
  }
}
