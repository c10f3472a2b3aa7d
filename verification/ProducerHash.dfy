/** The thread-id to implicit-producer hash in the build without thread-exit tombstones:
    open addressing, chained tables of growing capacity, lazy copies to the newest table,
    and one resize lock. Thread t's id is t; its hash is arbitrary. */
module ProducerHash {
  import opened Counting
  import opened Sums

  type Tid = nat

  const INITIAL_CAPACITY := 32

  datatype Slot = Free | Key(id: Tid)

  // `at` is bookkeeping: how many probes after its hash each stored id sits.
  datatype Table = Table(keys: seq<Slot>, vals: seq<nat>, at: map<Tid, nat>)

  datatype PC =
    | Idle
    | LoadMain
    | Probe(main: nat, h: nat, k: nat)
    | CopyCas(main: nat, k: nat, p: nat)
    | CopyVal(main: nat, i: nat, p: nat)
    | AddCount(main: nat)
    | Check(main: nat, n: nat)
    | TestSet(main: nat, n: nat)
    | Locked(n: nat)
    | Grow(main: nat, n: nat)
    | Unlock(main: nat, n: nat)
    | Room(main: nat, n: nat)
    | Reload(n: nat)
    | InsertCas(main: nat, k: nat, p: nat)
    | InsertVal(main: nat, i: nat, p: nat)
    | Ret(p: nat)

  datatype Producer = Unset | Made(p: nat)

  // The last table is the published one; each table's prev is the one before it.
  // `ticket` (the thread's value of the count) and `prod` (its producer) are bookkeeping.
  datatype State = State(
    tables: seq<Table>, count: nat, locked: bool, made: nat, threads: seq<PC>,
    hash: seq<nat>, ticket: seq<nat>, prod: seq<Producer>)

  datatype Action = Call(t: Tid) | Run(t: Tid)

  /** The probe loops write `index &= capacity - 1`; capacities are powers of two. */
  function At(hash: nat, k: nat, capacity: nat): (i: nat)
    requires 0 < capacity
    ensures i < capacity
  {
    (hash + k) % capacity
  }

  function Limit(capacity: nat): nat {
    capacity / 2 + capacity / 4
  }

  // The doubling loop that sizes a new table.
  function Doubled(capacity: nat, n: nat): (c: nat)
    requires 0 < capacity
    ensures capacity <= c && n < c / 2
    decreases if 2 * n + 2 > capacity then 2 * n + 2 - capacity else 0
  {
    if n >= capacity / 2 then Doubled(2 * capacity, n) else capacity
  }

  function EmptyTable(capacity: nat): Table {
    Table(seq(capacity, _ => Free), seq(capacity, _ => 0), map[])
  }

  ghost predicate Shape(s: State) {
    && 0 < |s.tables|
    && |s.threads| == |s.hash| == |s.ticket| == |s.prod|
    && (forall j :: 0 <= j < |s.tables| ==> 4 <= |s.tables[j].keys| == |s.tables[j].vals|)
    && (forall t :: 0 <= t < |s.threads| ==> Local(s, s.threads[t]))
  }

  predicate Local(s: State, pc: PC) {
    match pc
    case Probe(main, h, _) => h <= main < |s.tables|
    case CopyCas(main, _, _) => main < |s.tables|
    case CopyVal(main, i, _) => main < |s.tables| && i < |s.tables[main].keys|
    case AddCount(main) => main < |s.tables|
    case Check(main, _) => main < |s.tables|
    case TestSet(main, _) => main < |s.tables|
    case Grow(main, _) => main < |s.tables|
    case Unlock(main, _) => main < |s.tables|
    case Room(main, _) => main < |s.tables|
    case InsertCas(main, _, _) => main < |s.tables|
    case InsertVal(main, i, _) => main < |s.tables| && i < |s.tables[main].keys|
    case _ => true
  }

  function Goto(s: State, t: Tid, pc: PC): State
    requires t < |s.threads|
  {
    s.(threads := s.threads[t := pc])
  }

  // Storing the thread's own id in a free slot, k probes after its hash.
  function Store(s: State, t: Tid, j: nat, k: nat): State
    requires j < |s.tables| && t < |s.hash| && 0 < |s.tables[j].keys|
  {
    var tab := s.tables[j];
    var i := At(s.hash[t], k, |tab.keys|);
    s.(tables := s.tables[j := tab.(keys := tab.keys[i := Key(t)], at := tab.at[t := k])])
  }

  function StoreValue(s: State, j: nat, i: nat, p: nat): State
    requires j < |s.tables| && i < |s.tables[j].vals|
  {
    s.(tables := s.tables[j := s.tables[j].(vals := s.tables[j].vals[i := p])])
  }

  ghost function Tick(s: State, t: Tid): State
    requires Shape(s) && t < |s.threads|
  {
    assert Local(s, s.threads[t]);
    match s.threads[t]
    case Idle => s
    case LoadMain => Goto(s, t, Probe(|s.tables| - 1, |s.tables| - 1, 0))
    case Probe(main, h, k) =>
      var i := At(s.hash[t], k, |s.tables[h].keys|);
      if s.tables[h].keys[i] == Key(t) then
        var p := s.tables[h].vals[i];
        Goto(s, t, if h != main then CopyCas(main, 0, p) else Ret(p))
      else if s.tables[h].keys[i] == Free then
        Goto(s, t, if h > 0 then Probe(main, h - 1, 0) else AddCount(main))
      else Goto(s, t, Probe(main, h, k + 1))
    case CopyCas(main, k, p) =>
      var i := At(s.hash[t], k, |s.tables[main].keys|);
      if s.tables[main].keys[i] == Free then Goto(Store(s, t, main, k), t, CopyVal(main, i, p))
      else Goto(s, t, CopyCas(main, k + 1, p))
    case CopyVal(main, i, p) => Goto(StoreValue(s, main, i, p), t, Ret(p))
    case AddCount(main) =>
      Goto(s, t, Check(main, s.count + 1)).(count := s.count + 1, ticket := s.ticket[t := s.count + 1])
    case Check(main, n) =>
      Goto(s, t, if n >= |s.tables[main].keys| / 2 then TestSet(main, n) else Room(main, n))
    case TestSet(main, n) =>
      if s.locked then Goto(s, t, Room(main, n)) else Goto(s, t, Locked(n)).(locked := true)
    case Locked(n) => Goto(s, t, Grow(|s.tables| - 1, n))
    case Grow(main, n) =>
      var capacity := |s.tables[main].keys|;
      if n >= capacity / 2 then
        Goto(s, t, Unlock(|s.tables|, n)).(tables := s.tables + [EmptyTable(Doubled(2 * capacity, n))])
      else Goto(s, t, Unlock(main, n))
    case Unlock(main, n) => Goto(s, t, Room(main, n)).(locked := false)
    case Room(main, n) =>
      if n < Limit(|s.tables[main].keys|) then
        Goto(s, t, InsertCas(main, 0, s.made)).(made := s.made + 1, prod := s.prod[t := Made(s.made)])
      else Goto(s, t, Reload(n))
    case Reload(n) => Goto(s, t, Check(|s.tables| - 1, n))
    case InsertCas(main, k, p) =>
      var i := At(s.hash[t], k, |s.tables[main].keys|);
      if s.tables[main].keys[i] == Free then Goto(Store(s, t, main, k), t, InsertVal(main, i, p))
      else Goto(s, t, InsertCas(main, k + 1, p))
    case InsertVal(main, i, p) => Goto(StoreValue(s, main, i, p), t, Ret(p))
    case Ret(_) => Goto(s, t, Idle)
  }

  ghost function Step(s: State, a: Action): State
    requires Shape(s)
  {
    if a.t >= |s.threads| then s
    else
      match a
      case Call(t) => if s.threads[t] == Idle then Goto(s, t, LoadMain) else s
      case Run(t) => Tick(s, t)
  }

  function Init(hash: seq<nat>): State {
    State([EmptyTable(INITIAL_CAPACITY)], 0, false, 0, seq(|hash|, _ => Idle),
          hash, seq(|hash|, _ => 0), seq(|hash|, _ => Unset))
  }

  // ---------- The invariant ----------

  // Every slot of table j at the first k probes of t holds somebody else's id.
  ghost predicate Passed(s: State, t: Tid, j: nat, k: nat)
    requires Shape(s) && t < |s.threads| && j < |s.tables|
  {
    forall q :: 0 <= q < k ==> SlotAt(s, t, j, q) != Free && SlotAt(s, t, j, q) != Key(t)
  }

  ghost function SlotAt(s: State, t: Tid, j: nat, k: nat): Slot
    requires Shape(s) && t < |s.threads| && j < |s.tables|
  {
    s.tables[j].keys[At(s.hash[t], k, |s.tables[j].keys|)]
  }

  ghost predicate Writing(pc: PC, j: nat) {
    (pc.CopyVal? || pc.InsertVal?) && pc.main == j
  }

  // Id u in table j: reachable by probing, ticketed below the fill limit, value in place.
  ghost predicate EntryOk(s: State, j: nat, u: Tid)
    requires Shape(s) && j < |s.tables| && u in s.tables[j].at
  {
    var tab := s.tables[j];
    && u < |s.threads|
    && 0 < s.ticket[u] < Limit(|tab.keys|)
    && tab.at[u] < |tab.keys|
    && SlotAt(s, u, j, tab.at[u]) == Key(u)
    && Passed(s, u, j, tab.at[u])
    && (Made(tab.vals[At(s.hash[u], tab.at[u], |tab.keys|)]) == s.prod[u] || Writing(s.threads[u], j))
  }

  ghost predicate TableOk(s: State, j: nat)
    requires Shape(s) && j < |s.tables|
  {
    var tab := s.tables[j];
    && (forall u :: u in tab.at ==> EntryOk(s, j, u))
    && (forall i :: 0 <= i < |tab.keys| && tab.keys[i].Key? ==>
          && tab.keys[i].id in tab.at && tab.keys[i].id < |s.threads|
          && i == At(s.hash[tab.keys[i].id], tab.at[tab.keys[i].id], |tab.keys|))
  }

  // The thread is stored in no table newer than h.
  ghost predicate AbsentAbove(s: State, t: Tid, h: int) {
    forall j :: 0 <= j < |s.tables| && h < j ==> t !in s.tables[j].at
  }

  ghost predicate Registered(s: State, t: Tid) {
    exists j :: 0 <= j < |s.tables| && t in s.tables[j].at
  }

  // Between its ticket and its insertion.
  predicate Joining(pc: PC) {
    pc.Check? || pc.TestSet? || pc.Locked? || pc.Grow? || pc.Unlock? || pc.Room? || pc.Reload?
  }

  predicate InLock(pc: PC) {
    pc.Locked? || pc.Grow? || pc.Unlock?
  }

  ghost predicate ThreadOk(s: State, t: Tid)
    requires Shape(s) && t < |s.threads|
  {
    Fits(s, t, s.threads[t])
  }

  // What thread t may rely on at program counter pc.
  ghost predicate Fits(s: State, t: Tid, pc: PC)
    requires Shape(s) && t < |s.threads| && Local(s, pc)
  {
    && s.ticket[t] <= s.count
    && (s.prod[t].Made? ==> s.prod[t].p < s.made)
    && (InLock(pc) ==> s.locked)
    && (if Joining(pc) then
          pc.n == s.ticket[t] && 0 < pc.n && AbsentAbove(s, t, -1) && s.prod[t] == Unset
        else if pc.InsertCas? then
          && 0 < s.ticket[t] < Limit(|s.tables[pc.main].keys|)
          && s.prod[t] == Made(pc.p) && AbsentAbove(s, t, -1)
          && pc.k <= |s.tables[pc.main].keys| && Passed(s, t, pc.main, pc.k)
        else
          if s.ticket[t] == 0 then AbsentAbove(s, t, -1) && s.prod[t] == Unset
          else Registered(s, t) && s.prod[t].Made?)
    && match pc
       case Probe(main, h, k) =>
         k <= |s.tables[h].keys| && AbsentAbove(s, t, h) && Passed(s, t, h, k)
       case AddCount(_) => s.ticket[t] == 0
       case CopyCas(main, k, p) =>
         && s.prod[t] == Made(p) && AbsentAbove(s, t, main - 1)
         && 0 < s.ticket[t] < Limit(|s.tables[main].keys|)
         && k <= |s.tables[main].keys| && Passed(s, t, main, k)
       case CopyVal(main, i, p) =>
         && s.prod[t] == Made(p) && t in s.tables[main].at
         && i == At(s.hash[t], s.tables[main].at[t], |s.tables[main].keys|)
       case InsertVal(main, i, p) =>
         && s.prod[t] == Made(p) && t in s.tables[main].at
         && i == At(s.hash[t], s.tables[main].at[t], |s.tables[main].keys|)
       case Grow(main, _) => main == |s.tables| - 1
       case Ret(p) => s.prod[t] == Made(p)
       case _ => true
  }

  ghost predicate Inv(s: State) {
    && Shape(s)
    && (forall j :: 0 <= j < |s.tables| ==> TableOk(s, j))
    && (forall t :: 0 <= t < |s.threads| ==> ThreadOk(s, t))
    && Ordered(s)
    && Distinct(s)
  }

  ghost predicate Ordered(s: State) {
    forall i, j :: 0 <= i <= j < |s.tables| ==> |s.tables[i].keys| <= |s.tables[j].keys|
  }

  ghost predicate Distinct(s: State)
    requires Shape(s)
  {
    && (forall t, u :: 0 <= t < u < |s.threads| && 0 < s.ticket[t] ==> s.ticket[t] != s.ticket[u])
    && (forall t, u :: 0 <= t < u < |s.threads| && s.prod[t].Made? ==> s.prod[t] != s.prod[u])
    && (forall t, u :: 0 <= t < u < |s.threads| && InLock(s.threads[t]) ==> !InLock(s.threads[u]))
  }

  // ---------- Probe loops end ----------

  lemma AtInjective(hash: nat, a: nat, b: nat, capacity: nat)
    requires a < b < capacity
    ensures At(hash, a, capacity) != At(hash, b, capacity)
  {
    ModDistinct(hash + b, hash + a, capacity);
  }

  /** The first k probes of a thread all hit ids of other threads, each with a ticket of its
      own below the fill limit; so k stays below that limit and a free slot lies ahead. */
  lemma ProbesStayBelowLimit(s: State, t: Tid, j: nat, k: nat)
    requires Inv(s) && t < |s.threads| && j < |s.tables|
    requires k <= |s.tables[j].keys| && forall q :: 0 <= q < k ==> SlotAt(s, t, j, q) != Free
    ensures k < Limit(|s.tables[j].keys|) < |s.tables[j].keys|
  {
    assert TableOk(s, j);
    var tab := s.tables[j];
    assert forall q {:trigger SlotAt(s, t, j, q)} :: 0 <= q < k ==>
      SlotAt(s, t, j, q).Key? && SlotAt(s, t, j, q).id in tab.at && SlotAt(s, t, j, q).id < |s.threads|;
    assert forall u :: u in tab.at ==> EntryOk(s, j, u);
    var xs := seq(k, q requires 0 <= q < k => s.ticket[SlotAt(s, t, j, q).id]);
    forall a, b | 0 <= a < b < k ensures xs[a] != xs[b] {
      AtInjective(s.hash[t], a, b, |tab.keys|);
      assert SlotAt(s, t, j, a).id != SlotAt(s, t, j, b).id;
    }
    Pigeonhole(xs, Limit(|tab.keys|), 0);
  }

  // ---------- One step keeps the invariant ----------

  // Table b is table a after thread t may have stored its own id and value.
  ghost predicate TableGrows(a: Table, b: Table, t: Tid) {
    && |b.keys| == |a.keys| == |a.vals| == |b.vals|
    && (forall i :: 0 <= i < |a.keys| ==> b.keys[i] == a.keys[i] || (a.keys[i] == Free && b.keys[i] == Key(t)))
    && (forall i :: 0 <= i < |a.keys| ==> b.vals[i] == a.vals[i] || b.keys[i] == Key(t))
    && (forall u :: u != t ==> (u in b.at <==> u in a.at))
    && (forall u :: u in a.at ==> u in b.at && b.at[u] == a.at[u])
    && (forall i :: 0 <= i < |a.keys| && b.keys[i] == Key(t) && a.keys[i] == Free ==> t !in a.at)
  }

  // Everything the move of thread t may change, as the other threads see it.
  ghost predicate Grows(s: State, s': State, t: Tid)
    requires Shape(s) && Shape(s') && t < |s.threads|
  {
    && |s'.threads| == |s.threads| && s'.hash == s.hash
    && |s.tables| <= |s'.tables|
    && s.count <= s'.count && s.made <= s'.made
    && (forall j :: 0 <= j < |s.tables| ==> TableGrows(s.tables[j], s'.tables[j], t))
    && (forall j :: |s.tables| <= j < |s'.tables| ==>
          && s'.tables[j] == EmptyTable(|s'.tables[j].keys|)
          && |s.tables[|s.tables| - 1].keys| <= |s'.tables[j].keys|)
    && |s'.tables| <= |s.tables| + 1
    && (forall u :: 0 <= u < |s.threads| && u != t ==>
          s'.threads[u] == s.threads[u] && s'.ticket[u] == s.ticket[u] && s'.prod[u] == s.prod[u])
    && (|s'.tables| > |s.tables| || s'.locked != s.locked ==>
          InLock(s.threads[t]) || (!s.locked && |s'.tables| == |s.tables|))
  }

  lemma PassedGrows(s: State, s': State, t: Tid, u: Tid, j: nat, k: nat)
    requires Shape(s) && Shape(s') && t < |s.threads| && Grows(s, s', t)
    requires u < |s.threads| && u != t && j < |s.tables| && Passed(s, u, j, k)
    ensures Passed(s', u, j, k)
  {
    assert TableGrows(s.tables[j], s'.tables[j], t);
    forall q | 0 <= q < k ensures SlotAt(s', u, j, q) != Free && SlotAt(s', u, j, q) != Key(u) {
      assert SlotAt(s, u, j, q) != Free && SlotAt(s, u, j, q) != Key(u);
    }
  }

  lemma OtherEntry(s: State, s': State, t: Tid, j: nat, u: Tid)
    requires Inv(s) && Shape(s') && t < |s.threads| && Grows(s, s', t)
    requires j < |s.tables| && u in s.tables[j].at && u != t
    ensures u in s'.tables[j].at && EntryOk(s', j, u)
  {
    assert TableOk(s, j) && EntryOk(s, j, u);
    assert TableGrows(s.tables[j], s'.tables[j], t);
    PassedGrows(s, s', t, u, j, s.tables[j].at[u]);
  }

  lemma OtherAbsent(s: State, s': State, t: Tid, u: Tid, h: int)
    requires Inv(s) && Shape(s') && t < |s.threads| && Grows(s, s', t)
    requires u < |s.threads| && u != t && AbsentAbove(s, u, h)
    ensures AbsentAbove(s', u, h)
  {
    forall j | 0 <= j < |s'.tables| && h < j ensures u !in s'.tables[j].at {
      if j < |s.tables| {
        assert TableGrows(s.tables[j], s'.tables[j], t);
      }
    }
  }

  lemma OtherThread(s: State, s': State, t: Tid, u: Tid)
    requires Inv(s) && Shape(s') && t < |s.threads| && Grows(s, s', t)
    requires u < |s.threads| && u != t
    ensures ThreadOk(s', u)
  {
    assert ThreadOk(s, u);
    var pc := s.threads[u];
    assert Local(s, pc);
    assert !(InLock(pc) && InLock(s.threads[t]));
    if AbsentAbove(s, u, -1) {
      OtherAbsent(s, s', t, u, -1);
    }
    if Registered(s, u) {
      var j :| 0 <= j < |s.tables| && u in s.tables[j].at;
      OtherEntry(s, s', t, j, u);
    }
    match pc
    case Probe(main, h, k) =>
      OtherAbsent(s, s', t, u, h);
      PassedGrows(s, s', t, u, h, k);
      assert TableGrows(s.tables[h], s'.tables[h], t);
    case CopyCas(main, k, p) =>
      OtherAbsent(s, s', t, u, main - 1);
      PassedGrows(s, s', t, u, main, k);
      assert TableGrows(s.tables[main], s'.tables[main], t);
    case InsertCas(main, k, p) =>
      PassedGrows(s, s', t, u, main, k);
      assert TableGrows(s.tables[main], s'.tables[main], t);
    case CopyVal(main, i, p) => assert TableGrows(s.tables[main], s'.tables[main], t);
    case InsertVal(main, i, p) => assert TableGrows(s.tables[main], s'.tables[main], t);
    case _ =>
  }

  // The thread's own entry in table j, and no stray copy of its id.
  ghost predicate OwnTable(s: State, t: Tid, j: nat)
    requires Shape(s) && t < |s.threads| && j < |s.tables|
  {
    var tab := s.tables[j];
    && (t in tab.at ==> EntryOk(s, j, t))
    && (forall i :: 0 <= i < |tab.keys| && tab.keys[i] == Key(t) ==>
          t in tab.at && i == At(s.hash[t], tab.at[t], |tab.keys|))
  }

  lemma TablesKeep(s: State, s': State, t: Tid, j: nat)
    requires Inv(s) && Shape(s') && t < |s.threads| && Grows(s, s', t) && j < |s'.tables|
    requires OwnTable(s', t, j)
    ensures TableOk(s', j)
  {
    var tab := s'.tables[j];
    if j < |s.tables| {
      assert TableOk(s, j) && TableGrows(s.tables[j], tab, t);
      forall u | u in tab.at ensures EntryOk(s', j, u) {
        if u != t {
          OtherEntry(s, s', t, j, u);
        }
      }
    }
  }

  // The moving thread's own side of the invariant is enough.
  ghost predicate OwnSide(s: State, s': State, t: Tid)
    requires Shape(s) && Shape(s') && t < |s.threads| && |s'.threads| == |s.threads|
  {
    && ThreadOk(s', t)
    && (forall j :: 0 <= j < |s'.tables| ==> OwnTable(s', t, j))
    && (s'.ticket[t] == s.ticket[t] || s'.ticket[t] == s'.count == s.count + 1)
    && (s'.prod[t] == s.prod[t] || s'.prod[t] == Made(s.made))
    && (InLock(s'.threads[t]) ==> InLock(s.threads[t]) || !s.locked)
  }

  lemma StepFrame(s: State, s': State, t: Tid)
    requires Inv(s) && Shape(s') && t < |s.threads| && Grows(s, s', t) && OwnSide(s, s', t)
    ensures Inv(s')
  {
    forall j | 0 <= j < |s'.tables| ensures TableOk(s', j) {
      TablesKeep(s, s', t, j);
    }
    forall u | 0 <= u < |s'.threads| ensures ThreadOk(s', u) {
      if u != t {
        OtherThread(s, s', t, u);
      }
    }
    OrderedKeeps(s, s', t);
    DistinctKeeps(s, s', t);
  }

  lemma OrderedKeeps(s: State, s': State, t: Tid)
    requires Inv(s) && Shape(s') && t < |s.threads| && Grows(s, s', t)
    ensures Ordered(s')
  {
    forall i, j | 0 <= i <= j < |s'.tables| ensures |s'.tables[i].keys| <= |s'.tables[j].keys| {
      assert i < |s.tables| ==> TableGrows(s.tables[i], s'.tables[i], t);
      assert j < |s.tables| ==> TableGrows(s.tables[j], s'.tables[j], t);
      assert i < |s.tables| ==> |s.tables[i].keys| <= |s.tables[|s.tables| - 1].keys|;
    }
  }

  lemma DistinctKeeps(s: State, s': State, t: Tid)
    requires Inv(s) && Shape(s') && t < |s.threads| && Grows(s, s', t) && OwnSide(s, s', t)
    ensures Distinct(s')
  {
    forall u | 0 <= u < |s.threads| && u != t
      ensures 0 < s.ticket[u] ==> s'.ticket[t] != s'.ticket[u]
      ensures s.prod[u].Made? ==> s'.prod[t] != s'.prod[u]
      ensures InLock(s'.threads[t]) ==> !InLock(s'.threads[u])
    {
      assert ThreadOk(s, u);
    }
  }

  // The thread's own entries when it moves without touching the tables.
  lemma OwnEntries(s: State, s': State, t: Tid)
    requires Inv(s) && Shape(s') && t < |s.threads| && Grows(s, s', t)
    requires |s'.tables| >= |s.tables| && s'.tables[..|s.tables|] == s.tables
    requires s'.ticket[t] == s.ticket[t] || s.ticket[t] == 0
    requires s'.prod[t] == s.prod[t] || s.prod[t] == Unset
    requires forall j :: 0 <= j < |s.tables| && Writing(s.threads[t], j) ==> Writing(s'.threads[t], j)
    ensures forall j :: 0 <= j < |s'.tables| ==> OwnTable(s', t, j)
  {
    forall j | 0 <= j < |s'.tables| ensures OwnTable(s', t, j) {
      if j < |s.tables| {
        assert s'.tables[j] == s'.tables[..|s.tables|][j];
        SameOwnTable(s, s', t, j);
      }
    }
  }

  lemma SameOwnTable(s: State, s': State, t: Tid, j: nat)
    requires Inv(s) && Shape(s') && t < |s.threads| == |s'.threads| && s'.hash == s.hash
    requires j < |s.tables| <= |s'.tables| && s'.tables[j] == s.tables[j]
    requires s'.ticket[t] == s.ticket[t] || s.ticket[t] == 0
    requires s'.prod[t] == s.prod[t] || s.prod[t] == Unset
    requires Writing(s.threads[t], j) ==> Writing(s'.threads[t], j)
    ensures OwnTable(s', t, j)
  {
    assert TableOk(s, j) && ThreadOk(s, t);
    if t in s.tables[j].at {
      assert EntryOk(s, j, t);
      assert forall q :: SlotAt(s', t, j, q) == SlotAt(s, t, j, q);
    }
  }

  // Program counters stay well formed when tables keep their sizes or one is added.
  lemma ShapeKeeps(s: State, s': State, t: Tid)
    requires Shape(s) && t < |s.threads| == |s'.threads|
    requires s'.threads == s.threads[t := s'.threads[t]] && s'.hash == s.hash
    requires |s'.ticket| == |s.ticket| && |s'.prod| == |s.prod|
    requires |s.tables| <= |s'.tables|
    requires forall j :: 0 <= j < |s.tables| ==>
               |s'.tables[j].keys| == |s.tables[j].keys| == |s'.tables[j].vals|
    requires forall j :: |s.tables| <= j < |s'.tables| ==> 4 <= |s'.tables[j].keys| == |s'.tables[j].vals|
    requires Local(s', s'.threads[t])
    ensures Shape(s')
  {
    forall u | 0 <= u < |s'.threads| ensures Local(s', s'.threads[u]) {
      assert Local(s, s.threads[u]);
    }
  }

  // A move that leaves the tables as they are.
  lemma TableFreeStep(s: State, s': State, t: Tid)
    requires Inv(s) && t < |s.threads| == |s'.threads|
    requires s'.tables == s.tables && s'.threads == s.threads[t := s'.threads[t]] && s'.hash == s.hash
    requires s'.ticket == s.ticket || (s'.ticket == s.ticket[t := s'.count] && s'.count == s.count + 1 && s.ticket[t] == 0)
    requires s'.prod == s.prod || (s'.prod == s.prod[t := Made(s.made)] && s.prod[t] == Unset)
    requires s.count <= s'.count && s.made <= s'.made
    requires !s.threads[t].CopyVal? && !s.threads[t].InsertVal?
    requires s'.locked != s.locked ==> InLock(s.threads[t]) || !s.locked
    requires InLock(s'.threads[t]) ==> InLock(s.threads[t]) || !s.locked
    requires Local(s', s'.threads[t])
    requires Shape(s') ==> ThreadOk(s', t)
    ensures Inv(s')
  {
    ShapeKeeps(s, s', t);
    assert s'.tables[..|s.tables|] == s.tables;
    OwnEntries(s, s', t);
    StepFrame(s, s', t);
  }

  lemma PassedSame(s: State, s': State, t: Tid, j: nat, k: nat)
    requires Shape(s) && Shape(s') && t < |s.threads| == |s'.threads|
    requires s'.tables == s.tables && s'.hash == s.hash && j < |s.tables| && Passed(s, t, j, k)
    ensures Passed(s', t, j, k)
  {
    forall q | 0 <= q < k ensures SlotAt(s', t, j, q) == SlotAt(s, t, j, q) {
    }
  }

  // A move of the program counter alone.
  lemma GotoInv(s: State, t: Tid, pc: PC)
    requires Inv(s) && t < |s.threads| && Local(s, pc) && Fits(s, t, pc)
    requires !s.threads[t].CopyVal? && !s.threads[t].InsertVal?
    requires InLock(pc) ==> InLock(s.threads[t])
    ensures Inv(Goto(s, t, pc))
  {
    var s' := Goto(s, t, pc);
    ShapeKeeps(s, s', t);
    GotoFits(s, s', t, pc);
    TableFreeStep(s, s', t);
  }

  lemma GotoFits(s: State, s': State, t: Tid, pc: PC)
    requires Shape(s) && Shape(s') && t < |s.threads| && Local(s, pc) && Local(s', pc) && Fits(s, t, pc)
    requires s' == s.(threads := s'.threads) && |s'.threads| == |s.threads|
    ensures Fits(s', t, pc)
  {
    if Registered(s, t) {
      var j :| 0 <= j < |s.tables| && t in s.tables[j].at;
      assert t in s'.tables[j].at;
    }
    match pc
    case Probe(main, h, k) => PassedSame(s, s', t, h, k);
    case CopyCas(main, k, p) => PassedSame(s, s', t, main, k);
    case InsertCas(main, k, p) => PassedSame(s, s', t, main, k);
    case _ =>
  }

  /** A probe that meets the thread's own id reads the producer it was given first. */
  lemma ProbeFinds(s: State, t: Tid)
    requires Inv(s) && t < |s.threads| && s.threads[t].Probe? && Local(s, s.threads[t])
    requires SlotAt(s, t, s.threads[t].h, s.threads[t].k) == Key(t)
    ensures Inv(Tick(s, t))
  {
    var pc := s.threads[t];
    var tab := s.tables[pc.h];
    var i := At(s.hash[t], pc.k, |tab.keys|);
    assert ThreadOk(s, t) && TableOk(s, pc.h);
    assert tab.keys[i] == Key(t);
    assert EntryOk(s, pc.h, t);
    var p := tab.vals[i];
    assert s.prod[t] == Made(p);
    if pc.h != pc.main {
      assert |tab.keys| <= |s.tables[pc.main].keys|;
      GotoInv(s, t, CopyCas(pc.main, 0, p));
    } else {
      GotoInv(s, t, Ret(p));
    }
  }

  /** A probe that meets a free slot has shown that the thread is not in this table. */
  lemma FreeSlotMeansAbsent(s: State, t: Tid, j: nat, k: nat)
    requires Inv(s) && t < |s.threads| && j < |s.tables|
    requires Passed(s, t, j, k) && SlotAt(s, t, j, k) == Free
    ensures t !in s.tables[j].at
  {
    assert TableOk(s, j);
    assert forall u :: u in s.tables[j].at ==> EntryOk(s, j, u);
  }

  lemma ProbeMisses(s: State, t: Tid)
    requires Inv(s) && t < |s.threads| && s.threads[t].Probe? && Local(s, s.threads[t])
    requires SlotAt(s, t, s.threads[t].h, s.threads[t].k) == Free
    ensures Inv(Tick(s, t))
  {
    var pc := s.threads[t];
    assert ThreadOk(s, t);
    FreeSlotMeansAbsent(s, t, pc.h, pc.k);
    FitsOlder(s, t, pc);
    GotoInv(s, t, Older(pc));
  }

  // On to the next older table, or to the count after the oldest.
  function Older(pc: PC): PC
    requires pc.Probe?
  {
    if pc.h > 0 then Probe(pc.main, pc.h - 1, 0) else AddCount(pc.main)
  }

  lemma FitsOlder(s: State, t: Tid, pc: PC)
    requires Shape(s) && t < |s.threads| && pc.Probe? && Local(s, pc) && Fits(s, t, pc)
    requires t !in s.tables[pc.h].at
    ensures Local(s, Older(pc)) && Fits(s, t, Older(pc))
  {
    assert AbsentAbove(s, t, pc.h - 1);
    if pc.h > 0 {
      assert Passed(s, t, pc.h - 1, 0);
    }
  }

  lemma ProbeGoesOn(s: State, t: Tid)
    requires Inv(s) && t < |s.threads| && s.threads[t].Probe? && Local(s, s.threads[t])
    requires SlotAt(s, t, s.threads[t].h, s.threads[t].k) !in {Free, Key(t)}
    ensures Inv(Tick(s, t))
  {
    var pc := s.threads[t];
    assert ThreadOk(s, t);
    ProbesStayBelowLimit(s, t, pc.h, pc.k);
    assert Passed(s, t, pc.h, pc.k + 1);
    GotoInv(s, t, Probe(pc.main, pc.h, pc.k + 1));
  }

  // Probing on past a slot taken by another thread.
  lemma CasFails(s: State, t: Tid)
    requires Inv(s) && t < |s.threads| && (s.threads[t].CopyCas? || s.threads[t].InsertCas?)
    requires Local(s, s.threads[t])
    requires SlotAt(s, t, s.threads[t].main, s.threads[t].k) != Free
    ensures Inv(Tick(s, t))
  {
    CasMovesOn(s, t);
    CasFailsFits(s, t);
    GotoInv(s, t, OneOn(s.threads[t]));
  }

  lemma CasMovesOn(s: State, t: Tid)
    requires Shape(s) && t < |s.threads| && (s.threads[t].CopyCas? || s.threads[t].InsertCas?)
    requires Local(s, s.threads[t])
    requires SlotAt(s, t, s.threads[t].main, s.threads[t].k) != Free
    ensures Tick(s, t) == Goto(s, t, OneOn(s.threads[t]))
  {
  }

  lemma CasFailsFits(s: State, t: Tid)
    requires Inv(s) && t < |s.threads| && (s.threads[t].CopyCas? || s.threads[t].InsertCas?)
    requires Local(s, s.threads[t])
    requires SlotAt(s, t, s.threads[t].main, s.threads[t].k) != Free
    ensures Local(s, OneOn(s.threads[t])) && Fits(s, t, OneOn(s.threads[t]))
  {
    var pc := s.threads[t];
    assert ThreadOk(s, t) && TableOk(s, pc.main);
    FitsNext(s, t, pc);
    ProbesStayBelowLimit(s, t, pc.main, pc.k);
  }

  function OneOn(pc: PC): PC
    requires pc.CopyCas? || pc.InsertCas?
  {
    if pc.CopyCas? then CopyCas(pc.main, pc.k + 1, pc.p) else InsertCas(pc.main, pc.k + 1, pc.p)
  }

  lemma FitsNext(s: State, t: Tid, pc: PC)
    requires Shape(s) && t < |s.threads| && (pc.CopyCas? || pc.InsertCas?) && Local(s, pc) && Fits(s, t, pc)
    requires TableOk(s, pc.main) && SlotAt(s, t, pc.main, pc.k) != Free
    ensures Local(s, OneOn(pc)) && (pc.k < |s.tables[pc.main].keys| ==> Fits(s, t, OneOn(pc)))
  {
    TakenByAnother(s, t, pc.main, pc.k);
  }

  lemma TakenByAnother(s: State, t: Tid, j: nat, k: nat)
    requires Shape(s) && t < |s.threads| && j < |s.tables| && TableOk(s, j)
    requires t !in s.tables[j].at && Passed(s, t, j, k) && SlotAt(s, t, j, k) != Free
    ensures Passed(s, t, j, k + 1)
  {
  }

  lemma CasStores(s: State, t: Tid)
    requires Inv(s) && t < |s.threads| && (s.threads[t].CopyCas? || s.threads[t].InsertCas?)
    requires Local(s, s.threads[t])
    requires SlotAt(s, t, s.threads[t].main, s.threads[t].k) == Free
    ensures Inv(Tick(s, t))
  {
    var pc, s' := s.threads[t], Tick(s, t);
    assert ThreadOk(s, t);
    ProbesStayBelowLimit(s, t, pc.main, pc.k);
    var i := At(s.hash[t], pc.k, |s.tables[pc.main].keys|);
    assert s' == Goto(Store(s, t, pc.main, pc.k), t,
                      if pc.CopyCas? then CopyVal(pc.main, i, pc.p) else InsertVal(pc.main, i, pc.p));
    StoreInv(s, s', t, pc.main, pc.k, pc.p);
  }

  lemma StoreInv(s: State, s': State, t: Tid, main: nat, k: nat, p: nat)
    requires Inv(s) && t < |s.threads| && main < |s.tables| && k < |s.tables[main].keys|
    requires AbsentAbove(s, t, main - 1) && Passed(s, t, main, k) && SlotAt(s, t, main, k) == Free
    requires 0 < s.ticket[t] < Limit(|s.tables[main].keys|) && s.prod[t] == Made(p)
    requires !InLock(s.threads[t]) && ThreadOk(s, t)
    requires var i := At(s.hash[t], k, |s.tables[main].keys|);
      s' == Goto(Store(s, t, main, k), t, CopyVal(main, i, p)) || s' == Goto(Store(s, t, main, k), t, InsertVal(main, i, p))
    requires forall j :: 0 <= j < |s.tables| ==> !Writing(s.threads[t], j)
    ensures Inv(s')
  {
    ShapeKeeps(s, s', t);
    StoreGrows(s, s', t, main, k);
    StoredEntry(s, s', t, main, k);
    forall j | 0 <= j < |s'.tables| ensures OwnTable(s', t, j) {
      if j != main {
        SameOwnTable(s, s', t, j);
      }
    }
    StoredThread(s, s', t, main, k, p);
    StepFrame(s, s', t);
  }

  lemma StoredThread(s: State, s': State, t: Tid, main: nat, k: nat, p: nat)
    requires Shape(s) && Shape(s') && t < |s.threads| && main < |s.tables| && k < |s.tables[main].keys|
    requires 0 < s.ticket[t] && s.prod[t] == Made(p) && !InLock(s.threads[t]) && ThreadOk(s, t)
    requires var i := At(s.hash[t], k, |s.tables[main].keys|);
      s' == Goto(Store(s, t, main, k), t, CopyVal(main, i, p)) || s' == Goto(Store(s, t, main, k), t, InsertVal(main, i, p))
    ensures ThreadOk(s', t)
  {
    assert t in s'.tables[main].at;
  }

  lemma StoreGrows(s: State, s': State, t: Tid, main: nat, k: nat)
    requires Shape(s) && Shape(s') && t < |s.threads| == |s'.threads| && main < |s.tables|
    requires t !in s.tables[main].at && SlotAt(s, t, main, k) == Free
    requires s' == s.(tables := Store(s, t, main, k).tables, threads := s.threads[t := s'.threads[t]])
    ensures Grows(s, s', t)
  {
    assert forall j :: 0 <= j < |s.tables| ==> TableGrows(s.tables[j], s'.tables[j], t);
  }

  // The entry just stored, its value still to be written.
  lemma StoredEntry(s: State, s': State, t: Tid, j: nat, k: nat)
    requires Inv(s) && Shape(s') && t < |s.threads| == |s'.threads| && j < |s.tables| == |s'.tables|
    requires s'.tables == Store(s, t, j, k).tables && s'.hash == s.hash && s'.ticket == s.ticket
    requires t !in s.tables[j].at && k < |s.tables[j].keys| && Passed(s, t, j, k)
    requires 0 < s.ticket[t] < Limit(|s.tables[j].keys|) && Writing(s'.threads[t], j)
    ensures OwnTable(s', t, j)
  {
    assert TableOk(s, j);
    forall q | 0 <= q < k ensures SlotAt(s', t, j, q) == SlotAt(s, t, j, q) {
      AtInjective(s.hash[t], q, k, |s.tables[j].keys|);
    }
    assert Passed(s', t, j, k);
  }

  lemma ValueStep(s: State, t: Tid)
    requires Inv(s) && t < |s.threads| && (s.threads[t].CopyVal? || s.threads[t].InsertVal?)
    ensures Inv(Tick(s, t))
  {
    var pc, s' := s.threads[t], Tick(s, t);
    assert Local(s, pc) && ThreadOk(s, t);
    assert s' == Goto(StoreValue(s, pc.main, pc.i, pc.p), t, Ret(pc.p));
    StoreValueInv(s, s', t, pc.main, pc.i, pc.p);
  }

  lemma StoreValueInv(s: State, s': State, t: Tid, main: nat, i: nat, p: nat)
    requires Inv(s) && t < |s.threads| && main < |s.tables| && t in s.tables[main].at
    requires i < |s.tables[main].keys| && i == At(s.hash[t], s.tables[main].at[t], |s.tables[main].keys|)
    requires s.prod[t] == Made(p) && 0 < s.ticket[t] && ThreadOk(s, t) && !InLock(s.threads[t])
    requires s' == Goto(StoreValue(s, main, i, p), t, Ret(p))
    requires forall j :: 0 <= j < |s.tables| && j != main ==> !Writing(s.threads[t], j)
    ensures Inv(s')
  {
    assert TableOk(s, main) && EntryOk(s, main, t);
    ShapeKeeps(s, s', t);
    ValueGrows(s, s', t, main, i, p);
    assert forall q :: SlotAt(s', t, main, q) == SlotAt(s, t, main, q);
    forall j | 0 <= j < |s'.tables| ensures OwnTable(s', t, j) {
      if j != main {
        SameOwnTable(s, s', t, j);
      }
    }
    assert ThreadOk(s', t) by {
      assert t in s'.tables[main].at;
    }
    StepFrame(s, s', t);
  }

  lemma ValueGrows(s: State, s': State, t: Tid, main: nat, i: nat, p: nat)
    requires Shape(s) && Shape(s') && t < |s.threads| && main < |s.tables| && i < |s.tables[main].keys|
    requires s.tables[main].keys[i] == Key(t)
    requires s' == Goto(StoreValue(s, main, i, p), t, Ret(p))
    ensures Grows(s, s', t)
  {
    assert forall j :: 0 <= j < |s.tables| ==> TableGrows(s.tables[j], s'.tables[j], t);
  }

  lemma GrowStep(s: State, t: Tid)
    requires Inv(s) && t < |s.threads| && s.threads[t].Grow?
    ensures Inv(Tick(s, t))
  {
    var pc, s' := s.threads[t], Tick(s, t);
    assert Local(s, pc) && ThreadOk(s, t);
    if pc.n >= |s.tables[pc.main].keys| / 2 {
      ShapeKeeps(s, s', t);
      assert s'.tables[..|s.tables|] == s.tables;
      OwnEntries(s, s', t);
      StepFrame(s, s', t);
    } else {
      GotoInv(s, t, Unlock(pc.main, pc.n));
    }
  }

  // Steps that move the program counter alone.
  lemma PlainStep(s: State, t: Tid)
    requires Inv(s) && t < |s.threads|
    requires var pc := s.threads[t];
      pc.LoadMain? || pc.Check? || pc.Locked? || pc.Reload? || pc.Ret?
    ensures Inv(Tick(s, t))
  {
    assert Local(s, s.threads[t]) && ThreadOk(s, t);
    GotoInv(s, t, Tick(s, t).threads[t]);
  }

  // Steps that also take the ticket or the producer.
  lemma TakingStep(s: State, t: Tid)
    requires Inv(s) && t < |s.threads| && (s.threads[t].AddCount? || s.threads[t].Room?)
    ensures Inv(Tick(s, t))
  {
    var s' := Tick(s, t);
    assert Local(s, s.threads[t]) && ThreadOk(s, t);
    ShapeKeeps(s, s', t);
    assert AbsentAbove(s', t, -1);
    TableFreeStep(s, s', t);
  }

  // Steps that take or give back the resize lock.
  lemma LockingStep(s: State, t: Tid)
    requires Inv(s) && t < |s.threads| && (s.threads[t].TestSet? || s.threads[t].Unlock?)
    ensures Inv(Tick(s, t))
  {
    var s' := Tick(s, t);
    assert Local(s, s.threads[t]) && ThreadOk(s, t);
    ShapeKeeps(s, s', t);
    assert AbsentAbove(s', t, -1);
    TableFreeStep(s, s', t);
  }

  lemma StepInv(s: State, a: Action)
    requires Inv(s)
    ensures Inv(Step(s, a)) && |Step(s, a).threads| == |s.threads|
  {
    if a.t < |s.threads| {
      if a.Call? {
        if s.threads[a.t] == Idle {
          assert ThreadOk(s, a.t);
          GotoInv(s, a.t, LoadMain);
        }
      } else {
        TickInv(s, a.t);
      }
    }
  }

  lemma TickInv(s: State, t: Tid)
    requires Inv(s) && t < |s.threads|
    ensures Inv(Tick(s, t)) && |Tick(s, t).threads| == |s.threads|
  {
    var pc := s.threads[t];
    assert Local(s, pc);
    if pc.Probe? {
      if SlotAt(s, t, pc.h, pc.k) == Key(t) {
        ProbeFinds(s, t);
      } else if SlotAt(s, t, pc.h, pc.k) == Free {
        ProbeMisses(s, t);
      } else {
        ProbeGoesOn(s, t);
      }
    } else if pc.CopyCas? || pc.InsertCas? {
      if SlotAt(s, t, pc.main, pc.k) == Free {
        CasStores(s, t);
      } else {
        CasFails(s, t);
      }
    } else if pc.CopyVal? || pc.InsertVal? {
      ValueStep(s, t);
    } else if pc.Grow? {
      GrowStep(s, t);
    } else if pc.AddCount? || pc.Room? {
      TakingStep(s, t);
    } else if pc.TestSet? || pc.Unlock? {
      LockingStep(s, t);
    } else if !pc.Idle? {
      PlainStep(s, t);
    }
  }

  lemma InitInv(hash: seq<nat>)
    ensures Inv(Init(hash))
  {
    var s := Init(hash);
    forall t | 0 <= t < |hash| ensures ThreadOk(s, t) {
      assert AbsentAbove(s, t, -1);
    }
  }

  ghost function Started(hash: seq<nat>): (s: State)
    ensures Inv(s) && |s.threads| == |hash|
  {
    InitInv(hash);
    Init(hash)
  }

  /** The state after a whole schedule; the invariant holds over every run. */
  ghost function Execute(s: State, actions: seq<Action>): (r: State)
    requires Inv(s)
    ensures Inv(r) && |r.threads| == |s.threads|
    decreases |actions|
  {
    if actions == [] then s
    else
      var before := Execute(s, actions[..|actions| - 1]);
      StepInv(before, actions[|actions| - 1]);
      Step(before, actions[|actions| - 1])
  }

  ghost predicate Reachable(s: State) {
    exists hash: seq<nat>, actions :: s == Execute(Started(hash), actions)
  }

  /** Every probe loop ends: whatever other threads insert, the number of probes a thread has
      made stays below three quarters of the table's capacity. */
  lemma ProbeLoopsEnd(s: State, t: Tid)
    requires Reachable(s) && t < |s.threads|
    requires s.threads[t].Probe? || s.threads[t].CopyCas? || s.threads[t].InsertCas?
    ensures var j := if s.threads[t].Probe? then s.threads[t].h else s.threads[t].main;
            j < |s.tables| && s.threads[t].k < |s.tables[j].keys| / 2 + |s.tables[j].keys| / 4
  {
    assert Inv(s) && ThreadOk(s, t) && Local(s, s.threads[t]);
    var j := if s.threads[t].Probe? then s.threads[t].h else s.threads[t].main;
    assert Passed(s, t, j, s.threads[t].k);
    ProbesStayBelowLimit(s, t, j, s.threads[t].k);
  }

  /** A free slot is on every thread's probe path through every table. */
  lemma FreeSlotAhead(s: State, t: Tid, j: nat)
    requires Reachable(s) && t < |s.threads| && j < |s.tables|
    ensures exists k :: 0 <= k < |s.tables[j].keys| / 2 + |s.tables[j].keys| / 4 && SlotAt(s, t, j, k) == Free
  {
    var limit := Limit(|s.tables[j].keys|);
    if forall k :: 0 <= k < limit ==> SlotAt(s, t, j, k) != Free {
      ProbesStayBelowLimit(s, t, j, limit);
      assert false;
    }
  }

  /** What a call returns is the producer made for this thread, and no other thread has it. */
  lemma OwnProducer(s: State, t: Tid)
    requires Reachable(s) && t < |s.threads| && s.threads[t].Ret?
    ensures s.prod[t] == Made(s.threads[t].p)
    ensures forall u :: 0 <= u < |s.threads| && u != t ==> s.prod[u] != s.prod[t]
  {
    assert Inv(s) && ThreadOk(s, t);
  }

  lemma StepKeepsProducer(s: State, a: Action, t: Tid)
    requires Inv(s) && t < |s.threads| && s.prod[t].Made?
    ensures t < |Step(s, a).prod| && Step(s, a).prod[t] == s.prod[t]
  {
    assert ThreadOk(s, t);
  }

  /** A thread's producer never changes once made: after any further schedule every call of
      the thread returns the same one. */
  lemma {:induction false} SameProducerForever(s: State, actions: seq<Action>, t: Tid)
    requires Inv(s) && t < |s.threads| && s.prod[t].Made?
    ensures Execute(s, actions).prod[t] == s.prod[t]
    ensures Execute(s, actions).threads[t].Ret? ==> Made(Execute(s, actions).threads[t].p) == s.prod[t]
    decreases |actions|
  {
    if actions != [] {
      var before := Execute(s, actions[..|actions| - 1]);
      SameProducerForever(s, actions[..|actions| - 1], t);
      StepKeepsProducer(before, actions[|actions| - 1], t);
    }
    assert ThreadOk(Execute(s, actions), t);
  }

  // The thread is on its way from the publication of table `main` to its own entry there.
  predicate Inserting(s: State, t: Tid, main: nat, n: nat) {
    && t < |s.threads| && main < |s.tables| && n < Limit(|s.tables[main].keys|)
    && match s.threads[t]
       case Unlock(m, k) => m == main && k == n
       case Room(m, k) => m == main && k == n
       case InsertCas(m, _, _) => m == main
       case InsertVal(m, _, _) => m == main
       case Ret(_) => true
       case Idle => true
       case _ => false
  }

  // Tables are only added, and their sizes never change.
  lemma SizesStay(s: State, t: Tid, j: nat)
    requires Shape(s) && t < |s.threads| && j < |s.tables|
    ensures j < |Tick(s, t).tables| && |Tick(s, t).tables[j].keys| == |s.tables[j].keys|
  {
    assert Local(s, s.threads[t]);
  }

  lemma OwnMoveInserts(s: State, t: Tid, main: nat, n: nat)
    requires Shape(s) && Inserting(s, t, main, n)
    ensures Inserting(Tick(s, t), t, main, n)
  {
    SizesStay(s, t, main);
    assert Local(s, s.threads[t]);
  }

  lemma OthersStay(s: State, u: Tid, t: Tid)
    requires Shape(s) && u < |s.threads| && t < |s.threads| && u != t
    ensures |Tick(s, u).threads| == |s.threads| && Tick(s, u).threads[t] == s.threads[t]
  {
    assert Local(s, s.threads[u]);
  }

  lemma InsertingGoesOn(s: State, a: Action, t: Tid, main: nat, n: nat)
    requires Shape(s) && Inserting(s, t, main, n) && a != Call(t)
    ensures Inserting(Step(s, a), t, main, n)
  {
    if a == Run(t) {
      OwnMoveInserts(s, t, main, n);
    } else if a.Run? && a.t < |s.threads| {
      SizesStay(s, a.t, main);
      OthersStay(s, a.t, t);
    }
  }

  /** A thread that has published a table of the size the doubling loop chose inserts its entry
      there, whatever the others do meanwhile, without another turn of the outer loop. */
  lemma {:induction false} RoomAfterGrowth(s: State, t: Tid, actions: seq<Action>)
    requires Inv(s) && t < |s.threads| && s.threads[t].Grow?
    requires s.threads[t].main < |s.tables| && s.threads[t].n >= |s.tables[s.threads[t].main].keys| / 2
    requires Call(t) !in actions
    ensures Inv(Tick(s, t)) && |Tick(s, t).tables| == |s.tables| + 1
    ensures Inserting(Execute(Tick(s, t), actions), t, |s.tables|, s.threads[t].n)
    decreases |actions|
  {
    TickInv(s, t);
    assert ThreadOk(s, t);
    if actions != [] {
      var before := actions[..|actions| - 1];
      RoomAfterGrowth(s, t, before);
      InsertingGoesOn(Execute(Tick(s, t), before), actions[|actions| - 1], t, |s.tables|, s.threads[t].n);
    }
  }

  // ---------- When a call ends ----------

  // The state after n moves of thread t with all others stalled.
  ghost function Alone(s: State, t: Tid, n: nat): (r: State)
    requires Inv(s) && t < |s.threads|
    ensures Inv(r) && |r.threads| == |s.threads|
    decreases n
  {
    if n == 0 then s
    else
      StepInv(s, Run(t));
      Alone(Step(s, Run(t)), t, n - 1)
  }

  // The resize lock is free, or t has it.
  predicate MayGrow(s: State, t: Tid)
    requires t < |s.threads|
  {
    !s.locked || InLock(s.threads[t])
  }

  predicate HasProducer(s: State, t: Tid)
    requires t < |s.prod|
  {
    s.prod[t].Made?
  }

  // The thread's number in the order of tickets: its own, or the one it would get now.
  function Number(s: State, t: Tid): nat
    requires t < |s.ticket|
  {
    if s.ticket[t] > 0 then s.ticket[t] else s.count + 1
  }

  // What a call waits for: a producer already there, the resize lock, or room in the newest
  // table, which takes numbers below three quarters of its size.
  predicate CanEnd(s: State, t: Tid)
    requires t < |s.threads| == |s.ticket| == |s.prod| && s.tables != []
  {
    var size := |s.tables[|s.tables| - 1].keys|;
    HasProducer(s, t) || MayGrow(s, t) || Number(s, t) < size / 2 + size / 4
  }

  // Whether the table at hand has room for the thread's number.
  predicate Fitting(s: State, main: nat, n: nat) {
    main < |s.tables| && n < Limit(|s.tables[main].keys|)
  }

  // How far the call is from its end; each move goes down.
  function Stage(s: State, t: Tid): nat
    requires t < |s.threads|
  {
    match s.threads[t]
    case Idle => 0
    case LoadMain => 14
    case Probe(_, _, _) => 13
    case CopyCas(_, _, _) => 2
    case CopyVal(_, _, _) => 1
    case AddCount(_) => 12
    case Check(main, n) => if MayGrow(s, t) then 8 else if Fitting(s, main, n) then 5 else 11
    case TestSet(main, n) => if MayGrow(s, t) then 7 else if Fitting(s, main, n) then 4 else 10
    case Locked(_) => 6
    case Grow(_, _) => 5
    case Unlock(main, n) => if Fitting(s, main, n) then 4 else 11
    case Room(main, n) => if Fitting(s, main, n) then 3 else if MayGrow(s, t) then 10 else 9
    case Reload(_) => if MayGrow(s, t) then 9 else 8
    case InsertCas(_, _, _) => 2
    case InsertVal(_, _, _) => 1
    case Ret(_) => 0
  }

  // Within a stage: the tables still to search, and the slots still to probe in one.
  function OlderTables(s: State, t: Tid): nat
    requires t < |s.threads|
  {
    if s.threads[t].Probe? then s.threads[t].h else 0
  }

  function SlotsLeft(s: State, t: Tid): nat
    requires t < |s.threads|
  {
    match s.threads[t]
    case Probe(_, h, k) => Remaining(s, h, k)
    case CopyCas(main, k, _) => Remaining(s, main, k)
    case InsertCas(main, k, _) => Remaining(s, main, k)
    case _ => 0
  }

  function Remaining(s: State, j: nat, k: nat): nat {
    if j < |s.tables| && k < |s.tables[j].keys| then |s.tables[j].keys| - k else 0
  }

  ghost predicate Nearer(s: State, s': State, t: Tid)
    requires t < |s.threads| && t < |s'.threads|
  {
    || Stage(s', t) < Stage(s, t)
    || (Stage(s', t) == Stage(s, t)
        && (OlderTables(s', t) < OlderTables(s, t)
            || (OlderTables(s', t) == OlderTables(s, t) && SlotsLeft(s', t) < SlotsLeft(s, t))))
  }

  // A call makes one producer and takes one number if the thread has none, and none otherwise.
  ghost predicate Accounted(s: State, s': State, t: Tid)
    requires t < |s.threads| == |s.ticket| == |s.prod| && t < |s'.threads| == |s'.ticket| == |s'.prod|
  {
    && s'.made + (if HasProducer(s', t) then 0 else 1) == s.made + (if HasProducer(s, t) then 0 else 1)
    && s'.count + (if s'.ticket[t] > 0 then 0 else 1) == s.count + (if s.ticket[t] > 0 then 0 else 1)
  }

  ghost predicate GoesOn(s: State, t: Tid)
    requires Inv(s) && t < |s.threads|
  {
    var s' := Tick(s, t);
    && |s'.threads| == |s.threads| == |s'.ticket| == |s'.prod| && s'.tables != []
    && CanEnd(s', t) && !s'.threads[t].Idle? && Nearer(s, s', t) && Accounted(s, s', t)
  }

  lemma LoadGoesOn(s: State, t: Tid)
    requires Inv(s) && t < |s.threads| && CanEnd(s, t) && s.threads[t].LoadMain?
    ensures GoesOn(s, t)
  {
    assert ThreadOk(s, t);
  }

  lemma SearchGoesOn(s: State, t: Tid)
    requires Inv(s) && t < |s.threads| && CanEnd(s, t) && s.threads[t].Probe?
    ensures GoesOn(s, t)
  {
    var pc := s.threads[t];
    assert ThreadOk(s, t) && Local(s, pc);
    ProbesStayBelowLimit(s, t, pc.h, pc.k);
  }

  lemma SlotGoesOn(s: State, t: Tid)
    requires Inv(s) && t < |s.threads| && CanEnd(s, t) && (s.threads[t].CopyCas? || s.threads[t].InsertCas?)
    ensures GoesOn(s, t)
  {
    var pc := s.threads[t];
    assert ThreadOk(s, t) && Local(s, pc);
    ProbesStayBelowLimit(s, t, pc.main, pc.k);
    if SlotAt(s, t, pc.main, pc.k) != Free {
      CasMovesOn(s, t);
    }
  }

  lemma ValueGoesOn(s: State, t: Tid)
    requires Inv(s) && t < |s.threads| && CanEnd(s, t) && (s.threads[t].CopyVal? || s.threads[t].InsertVal?)
    ensures GoesOn(s, t)
  {
    assert ThreadOk(s, t) && Local(s, s.threads[t]);
  }

  lemma TestGoesOn(s: State, t: Tid)
    requires Inv(s) && t < |s.threads| && CanEnd(s, t) && (s.threads[t].Check? || s.threads[t].TestSet?)
    ensures GoesOn(s, t)
  {
    assert ThreadOk(s, t) && Local(s, s.threads[t]);
  }

  lemma RoomGoesOn(s: State, t: Tid)
    requires Inv(s) && t < |s.threads| && CanEnd(s, t)
    requires s.threads[t].AddCount? || s.threads[t].Room? || s.threads[t].Reload?
    ensures GoesOn(s, t)
  {
    assert ThreadOk(s, t) && Local(s, s.threads[t]);
  }

  lemma GrowthGoesOn(s: State, t: Tid)
    requires Inv(s) && t < |s.threads| && CanEnd(s, t)
    requires var pc := s.threads[t]; pc.Locked? || pc.Grow? || pc.Unlock?
    ensures GoesOn(s, t)
  {
    assert ThreadOk(s, t) && Local(s, s.threads[t]);
  }

  lemma MoveGoesOn(s: State, t: Tid)
    requires Inv(s) && t < |s.threads| && CanEnd(s, t) && !s.threads[t].Idle? && !s.threads[t].Ret?
    ensures GoesOn(s, t)
  {
    match s.threads[t]
    case LoadMain => LoadGoesOn(s, t);
    case Probe(_, _, _) => SearchGoesOn(s, t);
    case CopyCas(_, _, _) => SlotGoesOn(s, t);
    case CopyVal(_, _, _) => ValueGoesOn(s, t);
    case InsertCas(_, _, _) => SlotGoesOn(s, t);
    case InsertVal(_, _, _) => ValueGoesOn(s, t);
    case Check(_, _) => TestGoesOn(s, t);
    case TestSet(_, _) => TestGoesOn(s, t);
    case AddCount(_) => RoomGoesOn(s, t);
    case Room(_, _) => RoomGoesOn(s, t);
    case Reload(_) => RoomGoesOn(s, t);
    case _ => GrowthGoesOn(s, t);
  }

  lemma {:induction false} LoneCallReturns(s: State, t: Tid) returns (n: nat)
    requires Inv(s) && t < |s.threads| && CanEnd(s, t) && !s.threads[t].Idle?
    ensures Alone(s, t, n).threads[t].Ret? && Accounted(s, Alone(s, t, n), t)
    decreases Stage(s, t), OlderTables(s, t), SlotsLeft(s, t)
  {
    if s.threads[t].Ret? {
      n := 0;
    } else {
      MoveGoesOn(s, t);
      TickInv(s, t);
      var m := LoneCallReturns(Tick(s, t), t);
      n := m + 1;
    }
  }

  // Without those the thread tests, finds no room, and reads the newest table again.
  ghost predicate Spins(s: State, t: Tid)
    requires Inv(s) && t < |s.threads|
  {
    && !CanEnd(s, t) && s.threads[t] != Idle && !s.threads[t].Ret?
  }

  lemma SpinsOn(s: State, t: Tid)
    requires Inv(s) && t < |s.threads| && Spins(s, t)
    ensures Inv(Tick(s, t)) && |Tick(s, t).threads| == |s.threads| && Spins(Tick(s, t), t)
  {
    TickInv(s, t);
    assert ThreadOk(s, t) && Local(s, s.threads[t]);
    NoRoomAnywhere(s, t);
    if s.threads[t].Probe? {
      assert TableOk(s, s.threads[t].h);
    }
  }

  lemma NoRoomAnywhere(s: State, t: Tid)
    requires Inv(s) && t < |s.threads| && !CanEnd(s, t)
    ensures forall j :: 0 <= j < |s.tables| ==> Limit(|s.tables[j].keys|) <= Number(s, t)
  {
    forall j | 0 <= j < |s.tables| ensures Limit(|s.tables[j].keys|) <= Number(s, t) {
      assert |s.tables[j].keys| <= |s.tables[|s.tables| - 1].keys|;
    }
  }

  lemma {:induction false} SpinsForEver(s: State, t: Tid, n: nat)
    requires Inv(s) && t < |s.threads| && Spins(s, t)
    ensures !Alone(s, t, n).threads[t].Ret?
    decreases n
  {
    if n > 0 {
      SpinsOn(s, t);
      SpinsForEver(Tick(s, t), t, n - 1);
    }
  }

  ghost predicate Returns(s: State, t: Tid)
    requires Inv(s) && t < |s.threads|
  {
    exists n: nat :: Alone(s, t, n).threads[t].Ret? && Accounted(s, Alone(s, t, n), t)
  }

  /** A call that goes on alone, wherever it and the others were when they stalled, returns if and
      only if the thread has a producer already, the resize lock is not held by another, or the
      newest table has room for the thread's number; then it has made one producer if the thread
      had none, and none otherwise. */
  lemma LoneCallEndsIff(s: State, t: Tid)
    requires Inv(s) && t < |s.threads| && s.threads[t] != Idle
    ensures Returns(s, t) <==> s.threads[t].Ret? || CanEnd(s, t)
    ensures forall n: nat :: Alone(s, t, n).threads[t].Ret? ==>
              Alone(s, t, n).prod[t] == Made(Alone(s, t, n).threads[t].p)
  {
    if s.threads[t].Ret? {
      assert Alone(s, t, 0) == s;
    } else if CanEnd(s, t) {
      var n := LoneCallReturns(s, t);
    } else {
      forall n: nat ensures !Alone(s, t, n).threads[t].Ret? {
        SpinsForEver(s, t, n);
      }
    }
    forall n: nat | Alone(s, t, n).threads[t].Ret?
      ensures Alone(s, t, n).prod[t] == Made(Alone(s, t, n).threads[t].p)
    {
      assert ThreadOk(Alone(s, t, n), t);
    }
  }

  // ---------- Sizes of the tables ----------

  // 32 doubled any number of times.
  predicate DoubledFrom32(c: nat) {
    c == 32 || (32 < c && c % 2 == 0 && DoubledFrom32(c / 2))
  }

  ghost predicate Sized(s: State) {
    && 0 < |s.tables| && |s.tables[0].keys| == 32
    && (forall j :: 0 <= j < |s.tables| ==> DoubledFrom32(|s.tables[j].keys|))
    && (forall j :: 0 < j < |s.tables| ==> 2 * |s.tables[j - 1].keys| <= |s.tables[j].keys| <= 4 * s.count)
  }

  lemma {:induction false} DoubledJustEnough(c: nat, n: nat)
    requires DoubledFrom32(c) && c <= 4 * n
    ensures DoubledFrom32(Doubled(c, n)) && c <= Doubled(c, n) <= 4 * n
    decreases if 2 * n + 2 > c then 2 * n + 2 - c else 0
  {
    if n >= c / 2 {
      assert DoubledFrom32(2 * c);
      DoubledJustEnough(2 * c, n);
    }
  }

  lemma SizedKeeps(s: State, s': State)
    requires Sized(s) && s.count <= s'.count && |s.tables| <= |s'.tables| <= |s.tables| + 1
    requires forall j :: 0 <= j < |s.tables| ==> |s'.tables[j].keys| == |s.tables[j].keys|
    requires |s.tables| < |s'.tables| ==>
               var size := |s'.tables[|s.tables|].keys|;
               DoubledFrom32(size) && 2 * |s.tables[|s.tables| - 1].keys| <= size <= 4 * s.count
    ensures Sized(s')
  {
  }

  lemma TickSized(s: State, t: Tid)
    requires Inv(s) && t < |s.threads| && Sized(s)
    ensures Sized(Tick(s, t))
  {
    CountNeverFalls(s, t);
    forall j | 0 <= j < |s.tables|
      ensures j < |Tick(s, t).tables| && |Tick(s, t).tables[j].keys| == |s.tables[j].keys|
    {
      SizesStay(s, t, j);
    }
    assert |s.tables| - 1 < |Tick(s, t).tables|;
    if |Tick(s, t).tables| != |s.tables| {
      GrownSize(s, t);
    }
    SizedKeeps(s, Tick(s, t));
  }

  lemma CountNeverFalls(s: State, t: Tid)
    requires Shape(s) && t < |s.threads|
    ensures s.count <= Tick(s, t).count
  {
    assert Local(s, s.threads[t]);
  }

  // Only the step that publishes a table changes their number.
  lemma OnlyGrowAdds(s: State, t: Tid)
    requires Shape(s) && t < |s.threads| && |Tick(s, t).tables| != |s.tables|
    ensures var pc, last := s.threads[t], |s.tables| - 1;
      && pc.Grow? && pc.main < |s.tables| && pc.n >= |s.tables[pc.main].keys| / 2
      && Tick(s, t).tables == s.tables + [EmptyTable(Doubled(2 * |s.tables[pc.main].keys|, pc.n))]
  {
    assert Local(s, s.threads[t]);
  }

  lemma GrownSize(s: State, t: Tid)
    requires Inv(s) && t < |s.threads| && Sized(s) && |Tick(s, t).tables| != |s.tables|
    ensures var last := |s.tables| - 1;
            var tables := Tick(s, t).tables;
      && |tables| == last + 2 && DoubledFrom32(|tables[last + 1].keys|)
      && 2 * |s.tables[last].keys| <= |tables[last + 1].keys| <= 4 * s.count
  {
    OnlyGrowAdds(s, t);
    assert ThreadOk(s, t);
    NextSize(|s.tables[|s.tables| - 1].keys|, s.threads[t].n);
  }

  lemma NextSize(c: nat, n: nat)
    requires DoubledFrom32(c) && n >= c / 2
    ensures DoubledFrom32(Doubled(2 * c, n)) && 2 * c <= Doubled(2 * c, n) <= 4 * n
  {
    assert DoubledFrom32(2 * c);
    DoubledJustEnough(2 * c, n);
  }

  /** In every run the tables start at 32 slots, each is a power of two, at least twice the one
      before it, and no more than four times the number of threads counted so far. */
  lemma {:induction false} TablesFollowTheCount(hash: seq<nat>, actions: seq<Action>)
    ensures Sized(Execute(Started(hash), actions))
    decreases |actions|
  {
    if actions != [] {
      var before, a := Execute(Started(hash), actions[..|actions| - 1]), actions[|actions| - 1];
      TablesFollowTheCount(hash, actions[..|actions| - 1]);
      if a.Run? && a.t < |before.threads| {
        TickSized(before, a.t);
      }
    }
  }

  // ---------- What the counters count ----------

  function Ticketed(ticket: seq<nat>): (w: seq<int>)
    ensures |w| == |ticket|
  {
    seq(|ticket|, t requires 0 <= t < |ticket| => if ticket[t] > 0 then 1 else 0)
  }

  function Producing(prod: seq<Producer>): (w: seq<int>)
    ensures |w| == |prod|
  {
    seq(|prod|, t requires 0 <= t < |prod| => if prod[t].Made? then 1 else 0)
  }

  // The count is the number of threads with a ticket; as many producers were made as threads have
  // one; and the lock is only held by a thread inside the growth.
  ghost predicate CountersOk(s: State) {
    && s.count == Sum(Ticketed(s.ticket)) && s.made == Sum(Producing(s.prod))
    && (s.locked ==> exists t :: 0 <= t < |s.threads| && InLock(s.threads[t]))
  }

  ghost predicate MovesCounters(s: State, s': State, t: Tid)
    requires Shape(s) && t < |s.threads|
  {
    && |s'.ticket| == |s.ticket| == |s.threads| == |s'.threads| == |s'.prod| == |s.prod|
    && s'.ticket == s.ticket[t := s'.ticket[t]] && s'.prod == s.prod[t := s'.prod[t]]
    && Accounted(s, s', t)
  }

  lemma TakingAccounts(s: State, t: Tid)
    requires Inv(s) && t < |s.threads| && (s.threads[t].AddCount? || s.threads[t].Room?)
    ensures MovesCounters(s, Tick(s, t), t)
  {
    assert ThreadOk(s, t) && Local(s, s.threads[t]);
  }

  lemma OtherAccounts(s: State, t: Tid)
    requires Shape(s) && t < |s.threads| && !s.threads[t].AddCount? && !s.threads[t].Room?
    ensures MovesCounters(s, Tick(s, t), t)
  {
    assert Local(s, s.threads[t]);
  }

  lemma TickAccounts(s: State, t: Tid)
    requires Inv(s) && t < |s.threads|
    ensures MovesCounters(s, Tick(s, t), t)
  {
    if s.threads[t].AddCount? || s.threads[t].Room? {
      TakingAccounts(s, t);
    } else {
      OtherAccounts(s, t);
    }
  }

  lemma TickKeepsLock(s: State, t: Tid)
    requires Inv(s) && t < |s.threads| && CountersOk(s)
    ensures |Tick(s, t).threads| == |s.threads|
    ensures Tick(s, t).locked ==> exists u :: 0 <= u < |s.threads| && InLock(Tick(s, t).threads[u])
  {
    assert Local(s, s.threads[t]);
    if s.locked {
      var u :| 0 <= u < |s.threads| && InLock(s.threads[u]);
      if u != t {
        OthersStay(s, t, u);
      } else if Tick(s, t).locked {
        assert InLock(Tick(s, t).threads[t]);
      }
    } else if Tick(s, t).locked {
      assert InLock(Tick(s, t).threads[t]);
    }
  }

  lemma TickCounts(s: State, t: Tid)
    requires Inv(s) && t < |s.threads| && CountersOk(s)
    ensures CountersOk(Tick(s, t))
  {
    var s' := Tick(s, t);
    TickAccounts(s, t);
    TickKeepsLock(s, t);
    SumsMove(s, s', t);
  }

  lemma SumsMove(s: State, s': State, t: Tid)
    requires t < |s.threads| == |s.ticket| == |s.prod| == |s'.threads| == |s'.ticket| == |s'.prod|
    requires s.count == Sum(Ticketed(s.ticket)) && s.made == Sum(Producing(s.prod))
    requires s'.ticket == s.ticket[t := s'.ticket[t]] && s'.prod == s.prod[t := s'.prod[t]] && Accounted(s, s', t)
    ensures s'.count == Sum(Ticketed(s'.ticket)) && s'.made == Sum(Producing(s'.prod))
  {
    var i, p := if s'.ticket[t] > 0 then 1 else 0, if s'.prod[t].Made? then 1 else 0;
    assert Ticketed(s'.ticket) == Ticketed(s.ticket)[t := i];
    SumUpdate(Ticketed(s.ticket), t, i);
    assert Producing(s'.prod) == Producing(s.prod)[t := p];
    SumUpdate(Producing(s.prod), t, p);
  }

  /** In every run the count is the number of threads that have a ticket, the producers made are the
      number of threads that have one, and somebody is inside the growth while the lock is held. */
  lemma {:induction false} CountersCount(hash: seq<nat>, actions: seq<Action>)
    ensures CountersOk(Execute(Started(hash), actions))
    decreases |actions|
  {
    if actions == [] {
      SumZero(Ticketed(Init(hash).ticket));
      SumZero(Producing(Init(hash).prod));
    } else {
      var before, a := Execute(Started(hash), actions[..|actions| - 1]), actions[|actions| - 1];
      CountersCount(hash, actions[..|actions| - 1]);
      if a.Run? && a.t < |before.threads| {
        TickCounts(before, a.t);
      } else if a.Call? && a.t < |before.threads| {
        CallKeepsLock(before, a.t);
      }
    }
  }

  lemma CallKeepsLock(s: State, t: Tid)
    requires Inv(s) && t < |s.threads| && CountersOk(s)
    ensures CountersOk(Step(s, Call(t)))
  {
    if s.locked {
      var u :| 0 <= u < |s.threads| && InLock(s.threads[u]);
      assert u < |Step(s, Call(t)).threads| && InLock(Step(s, Call(t)).threads[u]);
    }
  }

  ghost predicate Serves(s: State, s1: State, t: Tid)
    requires t < |s.threads| == |s.ticket| == |s.prod|
    requires Inv(s1) && |s1.threads| == |s.threads|
  {
    exists n: nat :: Served(s, Alone(s1, t, n), t)
  }

  ghost predicate Served(s: State, r: State, t: Tid)
    requires t < |s.threads| == |s.ticket| == |s.prod|
    requires Inv(r) && |r.threads| == |s.threads|
  {
    r.threads[t].Ret? && r.prod[t] == Made(r.threads[t].p) && Accounted(s, r, t) && Step(r, Run(t)) == Goto(r, t, Idle)
  }

  /** So in every run, as long as nobody else stands still inside the growth, a call that goes on
      alone returns the thread's own producer, and the thread can call again. */
  lemma LoneCall(hash: seq<nat>, actions: seq<Action>, t: Tid)
    requires t < |hash|
    requires var s := Execute(Started(hash), actions);
             s.threads[t] == Idle && forall u :: 0 <= u < |s.threads| ==> !InLock(s.threads[u])
    ensures var s := Execute(Started(hash), actions);
            Inv(Step(s, Call(t))) && |Step(s, Call(t)).threads| == |s.threads| && Serves(s, Step(s, Call(t)), t)
  {
    CountersCount(hash, actions);
    FreeLockServes(Execute(Started(hash), actions), t);
  }

  lemma FreeLockServes(s: State, t: Tid)
    requires Inv(s) && t < |s.threads| && s.threads[t] == Idle && !s.locked
    ensures Inv(Step(s, Call(t))) && |Step(s, Call(t)).threads| == |s.threads| && Serves(s, Step(s, Call(t)), t)
  {
    var s1 := Step(s, Call(t));
    StepInv(s, Call(t));
    var n := LoneCallReturns(s1, t);
    ServedAtReturn(s, s1, Alone(s1, t, n), t);
  }

  lemma ServedAtReturn(s: State, s1: State, r: State, t: Tid)
    requires Inv(s) && t < |s.threads| && s1 == Goto(s, t, LoadMain) && Inv(r) && |r.threads| == |s.threads|
    requires r.threads[t].Ret? && Accounted(s1, r, t)
    ensures Served(s, r, t)
  {
    assert ThreadOk(r, t);
  }
}
