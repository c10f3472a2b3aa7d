/** One explicit producer and any number of consumers over the block ring. Blocks are reused as
    soon as all their elements have been moved out. The producer takes a block, writes the base
    and the block of an index entry and publishes the front in four separate steps, builds an
    element and publishes the tail in two, and may replace the whole index. A consumer that
    claimed a range of indices reads the index pointer, the front, the front's base and the
    first entry in four separate steps, with anything in between, and then walks on from entry
    to entry of the same index for as many blocks as its range covers. */
module BlockReuse {
  import opened Circular
  import opened Counting
  import opened BlockIndex

  type Tid = nat

  // Each block takes at least 64 bytes, so fewer than 2^58 of them exist at once.
  const MAX_BLOCKS: nat := 0x400_0000_0000_0000

  // `hi` counts the blocks entered while this header was current (bookkeeping).
  datatype Header = Header(ring: Ring, hi: nat)

  // `f` is the number of the block whose slot was read as the front (bookkeeping).
  // A consumer's range is the n indices from `first`; `out` is what it moved out so far, `start`
  // the first of its indices in the block at hand.
  datatype PC<T> =
    | Idle
    | Claimed(first: nat, n: nat)
    | HasHeader(first: nat, n: nat, h: nat)
    | HasFront(first: nat, n: nat, h: nat, front: nat, f: nat)
    | HasBase(first: nat, n: nat, h: nat, front: nat, f: nat, base: int)
    | AtSlot(first: nat, n: nat, out: seq<T>, h: nat, slot: nat)
    | InBlock(first: nat, n: nat, out: seq<T>, h: nat, slot: nat, start: nat, block: nat)

  // The block being entered at the tail, and how much of its index entry is written.
  datatype Pending = NoBlock | Taken(block: nat) | Based(block: nat) | Written(block: nat)

  // While a block is pending it counts neither for the chain nor for the ring's used slots:
  // on reuse the code overwrites the oldest entry without uncounting it first.
  datatype State<T> = State(
    tail: nat, head: nat,
    headers: seq<Header>,              // the last one is published
    pending: Pending,
    chain: seq<nat>,                   // circular block list, from tailBlock->next to tailBlock
    flags: map<nat, set<nat>>,         // empty flags of each block
    memory: map<(nat, nat), T>,        // element slots: block and offset
    blocks: nat,                       // blocks handed out so far
    consumers: seq<PC<T>>,
    numbers: seq<nat>, items: seq<T>, done: set<nat>)   // bookkeeping, by number or true index

  datatype Action<T> =
    | Grow(junk: seq<Entry>)
    | Take
    | Write                            // the base, then the block, then the front
    | Build(x: T)                      // the next element, in the tail block
    | Publish                          // ... and those built, by the tail
    | Claim(t: Tid, n: nat)
    | Run(t: Tid)

  function Range(a: nat, b: nat): (r: set<nat>)
    ensures forall o :: o in r <==> a <= o < b
  {
    if a >= b then {} else Range(a, b - 1) + {b - 1}
  }

  function Offsets(): (r: set<nat>)
    ensures forall o :: o in r <==> 0 <= o < BLOCK_SIZE
  {
    Range(0, BLOCK_SIZE)
  }

  // The first index a consumer has not yet given back, the next one it moves out, and the end
  // of its range.
  function Start<T>(pc: PC<T>): nat
    requires !pc.Idle?
  {
    if pc.InBlock? then pc.start else Next(pc)
  }

  function Next<T>(pc: PC<T>): nat
    requires !pc.Idle?
  {
    if pc.AtSlot? || pc.InBlock? then pc.first + |pc.out| else pc.first
  }

  function End<T>(pc: PC<T>): nat
    requires !pc.Idle?
  {
    pc.first + pc.n
  }

  // Where the part of the range in the block of index `start` ends.
  function PartEnd(start: nat, end: nat): nat {
    var blockEnd := (start / BLOCK_SIZE + 1) * BLOCK_SIZE;
    if end < blockEnd then end else blockEnd
  }

  // Everything of the range in the block at hand has been moved out.
  predicate AtPartEnd<T>(pc: PC<T>) {
    pc.InBlock? && Next(pc) >= PartEnd(pc.start, End(pc))
  }

  ghost predicate Shape<T>(s: State<T>) {
    && 0 < |s.headers|
    && (forall h :: 0 <= h < |s.headers| ==> Good(s.headers[h].ring) && s.headers[h].ring.used <= s.headers[h].hi)
  }

  ghost function Current<T>(s: State<T>): Header
    requires Shape(s)
  {
    s.headers[|s.headers| - 1]
  }

  // The block ahead of the tail block can be taken over.
  predicate Reusable<T>(s: State<T>) {
    s.chain != [] && s.chain[0] in s.flags && s.flags[s.chain[0]] == Offsets()
  }

  // What a requisition needs: the code's test of the head, and room for one more block in memory.
  predicate Leeway<T>(s: State<T>) {
    CircularLess(Word(s.head), Word(s.tail + BLOCK_SIZE)) && |s.chain| < MAX_BLOCKS
  }

  // The tail block has a free place.
  ghost predicate HasRoom<T>(s: State<T>)
    requires Shape(s)
  {
    |s.items| < Current(s).hi * BLOCK_SIZE && s.chain != []
  }

  ghost function Step<T>(s: State<T>, a: Action<T>): State<T>
    requires Shape(s)
  {
    var cur := Current(s);
    match a
    case Grow(junk) =>
      if s.pending == NoBlock && s.tail == cur.hi * BLOCK_SIZE && !Reusable(s) && Leeway(s)
         && 0 < cur.ring.used == |cur.ring.entries| < Pow2(60) && |junk| == cur.ring.used then
        s.(headers := s.headers + [Header(Grown(cur.ring, junk), cur.hi)])
      else s
    case Take =>
      if s.pending != NoBlock || s.tail != cur.hi * BLOCK_SIZE then s
      else if Reusable(s) && 0 < cur.ring.used then
        SetRing(s, cur.ring.(used := cur.ring.used - 1)).(
          pending := Taken(s.chain[0]), chain := s.chain[1..], flags := s.flags[s.chain[0] := {}])
      else if !Reusable(s) && Leeway(s) && cur.ring.used < |cur.ring.entries| then
        s.(pending := Taken(s.blocks), blocks := s.blocks + 1, flags := s.flags[s.blocks := {}])
      else s
    case Write =>
      (match s.pending
       case NoBlock => s
       case Taken(b) => WriteEntry(s, Entry(Word(s.tail), cur.ring.entries[cur.ring.next].block)).(pending := Based(b))
       case Based(b) => WriteEntry(s, Entry(cur.ring.entries[cur.ring.next].base, b)).(pending := Written(b))
       case Written(b) =>
         s.(headers := s.headers[|s.headers| - 1 := Header(Published(cur.ring), cur.hi + 1)],
            pending := NoBlock, chain := s.chain + [b], numbers := s.numbers + [b]))
    case Build(x) =>
      if HasRoom(s) then
        s.(items := s.items + [x],
           memory := s.memory[(s.chain[|s.chain| - 1], |s.items| % BLOCK_SIZE) := x])
      else s
    case Publish => s.(tail := |s.items|)
    case Claim(t, n) =>
      if t < |s.consumers| && s.consumers[t] == Idle && 0 < n && s.head + n <= s.tail then
        s.(head := s.head + n, consumers := s.consumers[t := Claimed(s.head, n)])
      else s
    case Run(t) => if t < |s.consumers| then Consume(s, t) else s
  }

  ghost function SetRing<T>(s: State<T>, ring: Ring): State<T>
    requires Shape(s)
  {
    s.(headers := s.headers[|s.headers| - 1 := Header(ring, Current(s).hi)])
  }

  // Overwriting the slot after the front.
  ghost function WriteEntry<T>(s: State<T>, e: Entry): State<T>
    requires Shape(s)
  {
    var ring := Current(s).ring;
    SetRing(s, ring.(entries := ring.entries[ring.next := e]))
  }

  // The slot just written becomes the front.
  function Published(r: Ring): Ring
    requires 0 < |r.entries|
  {
    Ring(r.entries, r.used + 1, (r.next + 1) % |r.entries|, r.next)
  }

  function Goto<T>(s: State<T>, t: Tid, pc: PC<T>): State<T>
    requires t < |s.consumers|
  {
    s.(consumers := s.consumers[t := pc])
  }

  ghost function Consume<T>(s: State<T>, t: Tid): State<T>
    requires Shape(s) && t < |s.consumers|
  {
    match s.consumers[t]
    case Idle => s
    case Claimed(first, n) => Goto(s, t, HasHeader(first, n, |s.headers| - 1))
    case HasHeader(first, n, h) =>
      if h < |s.headers| && 0 <= s.headers[h].ring.front && 0 < s.headers[h].hi then
        Goto(s, t, HasFront(first, n, h, s.headers[h].ring.front, s.headers[h].hi - 1))
      else s
    case HasFront(first, n, h, front, f) =>
      if h < |s.headers| && front < |s.headers[h].ring.entries| then
        Goto(s, t, HasBase(first, n, h, front, f, s.headers[h].ring.entries[front].base))
      else s
    case HasBase(first, n, h, front, f, base) =>
      if h < |s.headers| then
        Goto(s, t, AtSlot(first, n, [], h, LookupSlot(front, base, Word(first), |s.headers[h].ring.entries|)))
      else s
    case AtSlot(first, n, out, h, slot) =>
      if h < |s.headers| && slot < |s.headers[h].ring.entries| then
        Goto(s, t, InBlock(first, n, out, h, slot, first + |out|, s.headers[h].ring.entries[slot].block))
      else s
    case InBlock(_, _, _, _, _, _, _) => if AtPartEnd(s.consumers[t]) then LeaveBlock(s, t) else MoveOne(s, t)
  }

  function WithOne<T>(pc: PC<T>, x: T): PC<T>
    requires pc.InBlock?
  {
    InBlock(pc.first, pc.n, pc.out + [x], pc.h, pc.slot, pc.start, pc.block)
  }

  function MoveOne<T>(s: State<T>, t: Tid): State<T>
    requires t < |s.consumers| && s.consumers[t].InBlock?
  {
    var pc := s.consumers[t];
    var at := (pc.block, Next(pc) % BLOCK_SIZE);
    if at in s.memory then Goto(s, t, WithOne(pc, s.memory[at])) else s
  }

  // Sets the flags of the whole part and goes on to the next entry, if the range does.
  ghost function LeaveBlock<T>(s: State<T>, t: Tid): State<T>
    requires Shape(s) && t < |s.consumers| && s.consumers[t].InBlock?
  {
    var pc := s.consumers[t];
    if pc.block in s.flags && pc.h < |s.headers| && pc.start <= Next(pc) then
      Goto(s, t, AfterPart(pc, |s.headers[pc.h].ring.entries|)).(
        flags := s.flags[pc.block := s.flags[pc.block] + PartOffsets(pc)],
        done := s.done + Range(pc.start, Next(pc)))
    else s
  }

  function PartOffsets<T>(pc: PC<T>): set<nat>
    requires pc.InBlock? && pc.start <= Next(pc)
  {
    Range(pc.start % BLOCK_SIZE, pc.start % BLOCK_SIZE + (Next(pc) - pc.start))
  }

  function AfterPart<T>(pc: PC<T>, size: nat): PC<T>
    requires pc.InBlock? && 0 < size
  {
    if Next(pc) < End(pc) then AtSlot(pc.first, pc.n, pc.out, pc.h, (pc.slot + 1) % size) else Idle
  }

  // ---------- The invariant ----------

  ghost function Low<T>(s: State<T>): nat
    requires Shape(s)
  {
    Current(s).hi - Current(s).ring.used
  }

  // The slot of block number n in header h, whenever n is live there.
  function SlotOf(h: Header, n: int): nat
    requires 0 < |h.ring.entries|
  {
    Slot(h.ring, n - (h.hi - h.ring.used))
  }

  ghost predicate HeaderOk<T>(s: State<T>, h: nat)
    requires Shape(s) && h < |s.headers|
  {
    var hd := s.headers[h];
    && hd.hi <= |s.numbers|
    && hd.hi - hd.ring.used <= Low(s)
    && hd.ring.used <= MAX_BLOCKS
    && forall n :: hd.hi - hd.ring.used <= n < hd.hi ==>
         hd.ring.entries[SlotOf(hd, n)] == Entry(Word(n * BLOCK_SIZE), s.numbers[n])
  }

  ghost predicate ChainOk<T>(s: State<T>)
    requires Shape(s)
  {
    && Current(s).hi == |s.numbers|
    && s.chain == s.numbers[Low(s)..]
    && (forall a, b :: 0 <= a < b < |s.chain| ==> s.chain[a] != s.chain[b])
    && (forall a :: 0 <= a < |s.chain| ==> s.chain[a] < s.blocks && s.chain[a] in s.flags)
  }

  ghost predicate CountsOk<T>(s: State<T>)
    requires Shape(s)
  {
    && s.head <= s.tail <= |s.items| <= |s.numbers| * BLOCK_SIZE
    && (|s.numbers| - 1) * BLOCK_SIZE <= s.tail
    && (forall i :: i in s.done ==> i < s.head)
    && (forall i :: 0 <= i < Low(s) * BLOCK_SIZE ==> i in s.done)
  }

  // The flags of a live block are those of its elements already moved out.
  ghost predicate FlagsOk<T>(s: State<T>, n: nat)
    requires n < |s.numbers|
  {
    && s.numbers[n] in s.flags
    && forall o :: o in s.flags[s.numbers[n]] <==> 0 <= o < BLOCK_SIZE && n * BLOCK_SIZE + o in s.done
  }

  // An element not yet moved out is where its index says.
  ghost predicate StoredOk<T>(s: State<T>, i: nat)
    requires i < |s.items| && i / BLOCK_SIZE < |s.numbers|
  {
    var at := (s.numbers[i / BLOCK_SIZE], i % BLOCK_SIZE);
    at in s.memory && s.memory[at] == s.items[i]
  }

  // What a consumer has read so far is still right, for every block of its range. `last` is the
  // number of the last of them.
  ghost predicate PlaceOk<T>(s: State<T>, pc: PC<T>)
    requires Shape(s) && !pc.Idle?
  {
    var last := (End(pc) - 1) / BLOCK_SIZE;
    match pc
    case Idle => true
    case Claimed(_, _) => true
    case HasHeader(_, _, h) => h < |s.headers| && last < s.headers[h].hi
    case HasFront(_, _, h, front, f) =>
      h < |s.headers| && last <= f < s.headers[h].hi && front == SlotOf(s.headers[h], f)
    case HasBase(_, _, h, front, f, base) =>
      && h < |s.headers| && last <= f < s.headers[h].hi
      && front == SlotOf(s.headers[h], f) && base == Word(f * BLOCK_SIZE)
    case AtSlot(_, _, _, h, slot) =>
      h < |s.headers| && last < s.headers[h].hi && slot == SlotOf(s.headers[h], Next(pc) / BLOCK_SIZE)
    case InBlock(_, _, _, h, slot, start, block) =>
      && h < |s.headers| && last < s.headers[h].hi && slot == SlotOf(s.headers[h], start / BLOCK_SIZE)
      && pc.first <= start <= Next(pc) <= PartEnd(start, End(pc))
      && start / BLOCK_SIZE < |s.numbers| && block == s.numbers[start / BLOCK_SIZE]
  }

  // What a consumer moved out are the elements of its indices.
  ghost predicate OutOk<T>(s: State<T>, pc: PC<T>) {
    pc.AtSlot? || pc.InBlock? ==>
      && pc.first + |pc.out| <= |s.items|
      && forall k :: 0 <= k < |pc.out| ==> pc.out[k] == s.items[pc.first + k]
  }

  // A consumer's indices are claimed and not given back.
  ghost predicate OwnsRange<T>(s: State<T>, pc: PC<T>)
    requires !pc.Idle?
  {
    Start(pc) < End(pc) <= s.head && forall i :: Start(pc) <= i < End(pc) ==> i !in s.done
  }

  ghost predicate ConsumerOk<T>(s: State<T>, pc: PC<T>)
    requires Shape(s)
  {
    pc.Idle? || (OwnsRange(s, pc) && PlaceOk(s, pc) && OutOk(s, pc))
  }

  predicate Apart<T>(a: PC<T>, b: PC<T>) {
    a.Idle? || b.Idle? || End(a) <= Start(b) || End(b) <= Start(a)
  }

  predicate Holds<T>(pc: PC<T>, i: nat) {
    !pc.Idle? && Start(pc) <= i < End(pc)
  }

  ghost predicate HeldBySome<T>(consumers: seq<PC<T>>, i: nat) {
    exists t :: 0 <= t < |consumers| && Holds(consumers[t], i)
  }

  // Every claimed index has been given back or is in exactly one consumer's range.
  ghost predicate ClaimsOk<T>(consumers: seq<PC<T>>, head: nat, done: set<nat>) {
    && (forall t, u :: 0 <= t < u < |consumers| ==> Apart(consumers[t], consumers[u]))
    && (forall i :: 0 <= i < head && i !in done ==> HeldBySome(consumers, i))
  }

  // The pending block is in no live position; the slot it will take holds what was written.
  ghost predicate PendingOk<T>(s: State<T>)
    requires Shape(s)
  {
    s.pending != NoBlock ==>
      var b, cur := s.pending.block, Current(s);
      && s.tail == cur.hi * BLOCK_SIZE && cur.ring.used < |cur.ring.entries| && cur.ring.used < MAX_BLOCKS
      && b < s.blocks && b !in s.chain && b in s.flags && s.flags[b] == {}
      && (!s.pending.Taken? ==> cur.ring.entries[cur.ring.next].base == Word(s.tail))
      && (s.pending.Written? ==> cur.ring.entries[cur.ring.next].block == b)
  }

  ghost predicate Inv<T>(s: State<T>) {
    && Shape(s)
    && ChainOk(s)
    && PendingOk(s)
    && CountsOk(s)
    && (forall h :: 0 <= h < |s.headers| ==> HeaderOk(s, h))
    && (forall n :: Low(s) <= n < |s.numbers| ==> FlagsOk(s, n))
    && (forall i :: 0 <= i < |s.items| && i !in s.done ==> StoredOk(s, i))
    && (forall t :: 0 <= t < |s.consumers| ==> ConsumerOk(s, s.consumers[t]))
    && ClaimsOk(s.consumers, s.head, s.done)
  }

  // ---------- What a held index means ----------

  /** The block of an index that is claimed but not moved out is still live: it has not been
      reused, and every header published since the claim still lists it. */
  lemma HeldBlockIsLive<T>(s: State<T>, i: nat)
    requires Inv(s) && i < |s.items| && i !in s.done
    ensures Low(s) <= i / BLOCK_SIZE < |s.numbers|
  {
    var low := Low(s);
    assert i / BLOCK_SIZE < low ==> i < low * BLOCK_SIZE;
  }

  // The slot of a live number in a header whose window reaches past it names the storing block.
  lemma EntryIsBlock<T>(s: State<T>, h: nat, i: nat)
    requires Inv(s) && h < |s.headers| && i < |s.items| && i !in s.done && i / BLOCK_SIZE < s.headers[h].hi
    ensures i / BLOCK_SIZE < |s.numbers| && 0 < s.headers[h].ring.used
    ensures s.headers[h].ring.entries[SlotOf(s.headers[h], i / BLOCK_SIZE)].block == s.numbers[i / BLOCK_SIZE]
  {
    HeldBlockIsLive(s, i);
    assert HeaderOk(s, h);
  }

  // From the front that was read, the wrapped lookup lands on the slot of the index's own number.
  lemma LandsOnSlot<T>(s: State<T>, pc: PC<T>)
    requires Inv(s) && pc.HasBase? && ConsumerOk(s, pc)
    ensures var hd := s.headers[pc.h];
            LookupSlot(pc.front, pc.base, Word(pc.first), |hd.ring.entries|) == SlotOf(hd, pc.first / BLOCK_SIZE)
  {
    HeldBlockIsLive(s, pc.first);
    assert HeaderOk(s, pc.h);
    BackFromFront(s.headers[pc.h].ring, s.headers[pc.h].hi, pc.front, pc.f, pc.first);
  }

  /** The lookup from whatever header and front the consumer happened to see, long ago perhaps,
      arrives at the entry of exactly the block in which the producer stored its first index. */
  lemma SnapshotLookup<T>(s: State<T>, t: Tid)
    requires Inv(s) && t < |s.consumers| && s.consumers[t].HasBase?
    ensures var pc, pc' := s.consumers[t], Consume(s, t).consumers[t];
      && pc'.AtSlot? && pc'.slot == SlotOf(s.headers[pc.h], pc.first / BLOCK_SIZE)
      && pc.first / BLOCK_SIZE < |s.numbers|
      && s.headers[pc.h].ring.entries[pc'.slot].block == s.numbers[pc.first / BLOCK_SIZE]
  {
    var pc := s.consumers[t];
    assert ConsumerOk(s, pc);
    LandsOnSlot(s, pc);
    EntryIsBlock(s, pc.h, pc.first);
  }

  // ---------- A consumer's own steps ----------

  // An upper bound on the steps a consumer still has to make.
  function StepsLeft<T>(pc: PC<T>): int {
    match pc
    case Idle => 0
    case Claimed(_, n) => 3 * n + 5
    case HasHeader(_, n, _) => 3 * n + 4
    case HasFront(_, n, _, _, _) => 3 * n + 3
    case HasBase(_, n, _, _, _, _) => 3 * n + 2
    case AtSlot(_, _, _, _, _) => 3 * (End(pc) - Next(pc)) + 1
    case InBlock(_, _, _, _, _, start, _) => 2 * (End(pc) - start) + (End(pc) - Next(pc))
  }

  // The consumer alone moves, it keeps its range, and what it knows then is right.
  ghost predicate GoesOn<T>(s: State<T>, s': State<T>, t: Tid)
    requires Shape(s) && t < |s.consumers| && !s.consumers[t].Idle?
  {
    && |s'.consumers| == |s.consumers| && s' == Goto(s, t, s'.consumers[t])
    && !s'.consumers[t].Idle? && ConsumerOk(s, s'.consumers[t])
    && Start(s'.consumers[t]) == Start(s.consumers[t]) && End(s'.consumers[t]) == End(s.consumers[t])
    && StepsLeft(s'.consumers[t]) < StepsLeft(s.consumers[t])
  }

  lemma ReadsHeader<T>(s: State<T>, t: Tid)
    requires Inv(s) && t < |s.consumers| && s.consumers[t].Claimed?
    ensures GoesOn(s, Consume(s, t), t)
  {
    assert ConsumerOk(s, s.consumers[t]);
  }

  lemma ReadsFront<T>(s: State<T>, t: Tid)
    requires Inv(s) && t < |s.consumers| && s.consumers[t].HasHeader?
    ensures GoesOn(s, Consume(s, t), t)
  {
    var pc := s.consumers[t];
    assert ConsumerOk(s, pc);
    EntryIsBlock(s, pc.h, pc.first);
    FrontSlot(s.headers[pc.h].ring);
  }

  lemma ReadsBase<T>(s: State<T>, t: Tid)
    requires Inv(s) && t < |s.consumers| && s.consumers[t].HasFront?
    ensures GoesOn(s, Consume(s, t), t)
  {
    var pc := s.consumers[t];
    assert ConsumerOk(s, pc) && HeaderOk(s, pc.h);
    HeldBlockIsLive(s, pc.first);
  }

  lemma FindsSlot<T>(s: State<T>, t: Tid)
    requires Inv(s) && t < |s.consumers| && s.consumers[t].HasBase?
    ensures GoesOn(s, Consume(s, t), t)
  {
    assert ConsumerOk(s, s.consumers[t]);
    SnapshotLookup(s, t);
  }

  lemma ReadsEntry<T>(s: State<T>, t: Tid)
    requires Inv(s) && t < |s.consumers| && s.consumers[t].AtSlot?
    ensures GoesOn(s, Consume(s, t), t)
  {
    var pc := s.consumers[t];
    assert ConsumerOk(s, pc);
    EntryIsBlock(s, pc.h, Next(pc));
  }

  // The next element of the range is in the block at hand.
  lemma NextInBlock<T>(s: State<T>, pc: PC<T>)
    requires Inv(s) && pc.InBlock? && ConsumerOk(s, pc) && !AtPartEnd(pc)
    ensures Next(pc) < |s.items|
    ensures var at := (pc.block, Next(pc) % BLOCK_SIZE); at in s.memory && s.memory[at] == s.items[Next(pc)]
  {
    HeldBlockIsLive(s, Next(pc));
    assert StoredOk(s, Next(pc));
    assert Next(pc) / BLOCK_SIZE == pc.start / BLOCK_SIZE;
  }

  lemma OneMoreOut<T>(s: State<T>, pc: PC<T>)
    requires Shape(s) && pc.InBlock? && ConsumerOk(s, pc) && !AtPartEnd(pc) && Next(pc) < |s.items|
    ensures ConsumerOk(s, WithOne(pc, s.items[Next(pc)]))
  {
  }

  lemma MovesOne<T>(s: State<T>, t: Tid)
    requires Inv(s) && t < |s.consumers| && s.consumers[t].InBlock? && !AtPartEnd(s.consumers[t])
    ensures GoesOn(s, Consume(s, t), t)
    ensures Next(s.consumers[t]) < |s.items|
    ensures Consume(s, t).consumers[t].out == s.consumers[t].out + [s.items[Next(s.consumers[t])]]
  {
    var pc := s.consumers[t];
    assert ConsumerOk(s, pc);
    NextInBlock(s, pc);
    OneMoreOut(s, pc);
    assert Consume(s, t) == Goto(s, t, WithOne(pc, s.items[Next(pc)]));
  }

  lemma KeepsGoing<T>(s: State<T>, t: Tid)
    requires Inv(s) && t < |s.consumers| && !s.consumers[t].Idle? && !AtPartEnd(s.consumers[t])
    ensures GoesOn(s, Consume(s, t), t)
  {
    match s.consumers[t]
    case Claimed(_, _) => ReadsHeader(s, t);
    case HasHeader(_, _, _) => ReadsFront(s, t);
    case HasFront(_, _, _, _, _) => ReadsBase(s, t);
    case HasBase(_, _, _, _, _, _) => FindsSlot(s, t);
    case AtSlot(_, _, _, _, _) => ReadsEntry(s, t);
    case InBlock(_, _, _, _, _, _, _) => MovesOne(s, t);
  }

  // ---------- One step keeps the invariant ----------

  lemma ConsumeInv<T>(s: State<T>, t: Tid)
    requires Inv(s) && t < |s.consumers| && !AtPartEnd(s.consumers[t])
    ensures Inv(Consume(s, t)) && |Consume(s, t).consumers| == |s.consumers|
  {
    if !s.consumers[t].Idle? {
      KeepsGoing(s, t);
      MoveConsumer(s, t, Consume(s, t).consumers[t]);
    }
  }

  // Steps that leave the index, the chain and the numbering alone.
  ghost predicate SameIndex<T>(s: State<T>, s': State<T>) {
    && s'.headers == s.headers && s'.chain == s.chain && s'.numbers == s.numbers && s'.blocks == s.blocks
    && s.flags.Keys <= s'.flags.Keys
    && s'.pending == s.pending
    && (s.pending != NoBlock ==>
          s'.tail == s.tail && s.pending.block in s'.flags && s.pending.block in s.flags
          && s'.flags[s.pending.block] == s.flags[s.pending.block])
  }

  lemma IndexKeeps<T>(s: State<T>, s': State<T>)
    requires Inv(s) && SameIndex(s, s')
    ensures Shape(s') && Low(s') == Low(s) && ChainOk(s') && PendingOk(s')
    ensures forall h :: 0 <= h < |s'.headers| ==> HeaderOk(s', h)
  {
    forall h | 0 <= h < |s'.headers| ensures HeaderOk(s', h) {
      assert HeaderOk(s, h);
    }
    forall a | 0 <= a < |s'.chain| ensures s'.chain[a] in s'.flags {
      assert s.chain[a] in s.flags.Keys;
    }
  }

  lemma ConsumerKeeps<T>(s: State<T>, s': State<T>, pc: PC<T>)
    requires Shape(s) && SameIndex(s, s') && ConsumerOk(s, pc)
    requires s.head <= s'.head && |s.items| <= |s'.items| && s'.items[..|s.items|] == s.items
    requires pc.Idle? || OwnsRange(s', pc)
    ensures Shape(s') && ConsumerOk(s', pc)
  {
    if pc.AtSlot? || pc.InBlock? {
      forall k | 0 <= k < |pc.out| ensures pc.out[k] == s'.items[pc.first + k] {
        assert s'.items[pc.first + k] == s'.items[..|s.items|][pc.first + k];
      }
    }
  }

  lemma MoveConsumer<T>(s: State<T>, t: Tid, pc: PC<T>)
    requires Inv(s) && t < |s.consumers| && ConsumerOk(s, pc)
    requires !pc.Idle? && !s.consumers[t].Idle?
    requires Start(pc) == Start(s.consumers[t]) && End(pc) == End(s.consumers[t])
    ensures Inv(Goto(s, t, pc))
  {
    var s' := Goto(s, t, pc);
    IndexKeeps(s, s');
    forall u | 0 <= u < |s'.consumers| ensures ConsumerOk(s', s'.consumers[u]) {
      ConsumerKeeps(s, s', s'.consumers[u]);
    }
    StoresKeep(s, s');
    ClaimsMove(s.consumers, t, pc, s.head, s.done, s.done);
  }

  // A consumer that gives part of its range back, or nothing, leaves the claims in order.
  lemma ClaimsMove<T>(consumers: seq<PC<T>>, t: Tid, pc: PC<T>, head: nat, done: set<nat>, done': set<nat>)
    requires ClaimsOk(consumers, head, done) && t < |consumers| && !consumers[t].Idle?
    requires pc.Idle? || (Start(consumers[t]) <= Start(pc) && End(pc) == End(consumers[t]))
    requires done <= done'
    requires forall i :: Start(consumers[t]) <= i < End(consumers[t]) && (pc.Idle? || i < Start(pc)) ==> i in done'
    ensures ClaimsOk(consumers[t := pc], head, done')
  {
    var after := consumers[t := pc];
    forall u, v | 0 <= u < v < |after| ensures Apart(after[u], after[v]) {
      assert Apart(consumers[u], consumers[v]);
    }
    forall i | 0 <= i < head && i !in done' ensures HeldBySome(after, i) {
      assert HeldBySome(consumers, i);
      var u :| 0 <= u < |consumers| && Holds(consumers[u], i);
      assert Holds(after[u], i);
    }
  }

  // Neither flags, numbering, elements nor what is done change.
  lemma StoresKeep<T>(s: State<T>, s': State<T>)
    requires Inv(s) && SameIndex(s, s') && Shape(s')
    requires s'.flags == s.flags && s'.memory == s.memory && s'.items == s.items
    requires s'.done == s.done
    ensures forall n :: Low(s') <= n < |s'.numbers| ==> FlagsOk(s', n)
    ensures forall i :: 0 <= i < |s'.items| && i !in s'.done ==> StoredOk(s', i)
  {
    forall n | Low(s') <= n < |s'.numbers| ensures FlagsOk(s', n) {
      assert FlagsOk(s, n);
    }
    forall i | 0 <= i < |s'.items| && i !in s'.done ensures StoredOk(s', i) {
      assert StoredOk(s, i);
    }
  }

  // Blocks of different live numbers are different.
  lemma LiveBlocksDiffer<T>(s: State<T>, m: nat, n: nat)
    requires Inv(s) && Low(s) <= m < |s.numbers| && Low(s) <= n < |s.numbers| && m != n
    ensures s.numbers[m] != s.numbers[n]
  {
    assert s.chain[m - Low(s)] == s.numbers[m] && s.chain[n - Low(s)] == s.numbers[n];
  }

  // Where the walk goes after a block: the slot of the next number in the same header.
  lemma NextPlace<T>(s: State<T>, pc: PC<T>)
    requires Inv(s) && pc.InBlock? && ConsumerOk(s, pc) && AtPartEnd(pc) && Next(pc) < End(pc)
    ensures var pc' := AfterPart(pc, |s.headers[pc.h].ring.entries|);
            Next(pc') == Next(pc) && PlaceOk(s, pc') && OutOk(s, pc')
  {
    var hd := s.headers[pc.h];
    assert Next(pc) / BLOCK_SIZE == pc.start / BLOCK_SIZE + 1;
    ModAdd(hd.ring.next - hd.ring.used + (pc.start / BLOCK_SIZE - (hd.hi - hd.ring.used)), 1, |hd.ring.entries|);
  }

  // Leaving a block gives back exactly the part of the range in it.
  ghost predicate Leaves<T>(s: State<T>, s': State<T>, pc: PC<T>)
    requires Shape(s) && pc.InBlock? && pc.start <= Next(pc) && pc.h < |s.headers|
  {
    && pc.block in s.flags
    && s'.flags == s.flags[pc.block := s.flags[pc.block] + PartOffsets(pc)]
    && s'.done == s.done + Range(pc.start, Next(pc))
  }

  lemma LeaveBlockIs<T>(s: State<T>, t: Tid)
    requires Inv(s) && t < |s.consumers| && AtPartEnd(s.consumers[t])
    ensures var pc, s' := s.consumers[t], Consume(s, t);
      && pc.start < Next(pc) && pc.h < |s.headers| && Low(s) <= pc.start / BLOCK_SIZE < |s.numbers|
      && pc.block == s.chain[pc.start / BLOCK_SIZE - Low(s)]
      && Leaves(s, s', pc)
      && s' == Goto(s, t, AfterPart(pc, |s.headers[pc.h].ring.entries|)).(flags := s'.flags, done := s'.done)
  {
    var pc := s.consumers[t];
    assert ConsumerOk(s, pc);
    HeldBlockIsLive(s, pc.start);
    assert FlagsOk(s, pc.start / BLOCK_SIZE);
  }

  lemma LeaveInv<T>(s: State<T>, t: Tid)
    requires Inv(s) && t < |s.consumers| && AtPartEnd(s.consumers[t])
    ensures Inv(Consume(s, t)) && |Consume(s, t).consumers| == |s.consumers|
  {
    var pc := s.consumers[t];
    LeaveBlockIs(s, t);
    assert ConsumerOk(s, pc);
    LeaveKeeps(s, Consume(s, t), t);
  }

  lemma LeaveSameIndex<T>(s: State<T>, s': State<T>, pc: PC<T>)
    requires Inv(s) && pc.InBlock? && pc.start <= Next(pc) && pc.h < |s.headers| && Leaves(s, s', pc)
    requires pc.block in s.chain
    requires s' == s.(consumers := s'.consumers, flags := s'.flags, done := s'.done)
    ensures SameIndex(s, s')
  {
  }

  lemma LeaveKeeps<T>(s: State<T>, s': State<T>, t: Tid)
    requires Inv(s) && t < |s.consumers| && AtPartEnd(s.consumers[t]) && ConsumerOk(s, s.consumers[t])
    requires var pc := s.consumers[t];
      && pc.start < Next(pc) && pc.h < |s.headers| && Low(s) <= pc.start / BLOCK_SIZE < |s.numbers|
      && pc.block == s.chain[pc.start / BLOCK_SIZE - Low(s)] && Leaves(s, s', pc)
      && s' == Goto(s, t, AfterPart(pc, |s.headers[pc.h].ring.entries|)).(flags := s'.flags, done := s'.done)
    ensures Inv(s')
  {
    var pc := s.consumers[t];
    LeaveSameIndex(s, s', pc);
    IndexKeeps(s, s');
    forall n | Low(s') <= n < |s'.numbers| ensures FlagsOk(s', n) {
      LeaveFlags(s, s', pc, n);
    }
    forall u | 0 <= u < |s'.consumers| ensures ConsumerOk(s', s'.consumers[u]) {
      LeaveConsumer(s, s', t, u);
    }
    forall i | 0 <= i < |s'.items| && i !in s'.done ensures StoredOk(s', i) {
      assert StoredOk(s, i);
    }
    ClaimsMove(s.consumers, t, s'.consumers[t], s.head, s.done, s'.done);
  }

  lemma LeaveConsumer<T>(s: State<T>, s': State<T>, t: Tid, u: Tid)
    requires Inv(s) && t < |s.consumers| && AtPartEnd(s.consumers[t]) && u < |s.consumers|
    requires var pc := s.consumers[t];
      && pc.start < Next(pc) && pc.h < |s.headers| && Leaves(s, s', pc)
      && s' == Goto(s, t, AfterPart(pc, |s.headers[pc.h].ring.entries|)).(flags := s'.flags, done := s'.done)
    requires SameIndex(s, s')
    ensures Shape(s') && ConsumerOk(s', s'.consumers[u])
  {
    var pc := s.consumers[t];
    assert ConsumerOk(s, s.consumers[u]) && ConsumerOk(s, pc);
    if u != t {
      assert Apart(s.consumers[u], pc) by {
        assert u < t ==> Apart(s.consumers[u], s.consumers[t]);
        assert t < u ==> Apart(s.consumers[t], s.consumers[u]);
      }
      ConsumerKeeps(s, s', s.consumers[u]);
    } else if Next(pc) < End(pc) {
      NextPlace(s, pc);
      ConsumerKeeps(s, s', s'.consumers[t]);
    }
  }

  lemma LeaveFlags<T>(s: State<T>, s': State<T>, pc: PC<T>, n: nat)
    requires Inv(s) && Low(s) <= n < |s.numbers| && pc.InBlock? && pc.h < |s.headers|
    requires pc.start <= Next(pc) <= (pc.start / BLOCK_SIZE + 1) * BLOCK_SIZE
    requires Low(s) <= pc.start / BLOCK_SIZE < |s.numbers| && pc.block == s.numbers[pc.start / BLOCK_SIZE]
    requires s'.numbers == s.numbers && Leaves(s, s', pc)
    ensures FlagsOk(s', n)
  {
    var m := pc.start / BLOCK_SIZE;
    assert FlagsOk(s, n);
    if n != m {
      LiveBlocksDiffer(s, n, m);
    }
    forall o: nat ensures o in s'.flags[s'.numbers[n]] <==> 0 <= o < BLOCK_SIZE && n * BLOCK_SIZE + o in s'.done {
      assert o in s.flags[s.numbers[n]] <==> 0 <= o < BLOCK_SIZE && n * BLOCK_SIZE + o in s.done;
      OffsetInPart(n, o, pc.start, Next(pc));
    }
  }

  // The offsets of a part belong to the indices of its own block.
  lemma OffsetInPart(n: nat, o: nat, start: nat, end: nat)
    requires start <= end <= (start / BLOCK_SIZE + 1) * BLOCK_SIZE
    ensures o < BLOCK_SIZE && start <= n * BLOCK_SIZE + o < end <==>
              n == start / BLOCK_SIZE && start % BLOCK_SIZE <= o < start % BLOCK_SIZE + (end - start)
  {
    var m := start / BLOCK_SIZE;
    assert start == m * BLOCK_SIZE + start % BLOCK_SIZE;
  }

  lemma ClaimInv<T>(s: State<T>, t: Tid, n: nat)
    requires Inv(s)
    ensures Inv(Step(s, Claim(t, n)))
  {
    var s' := Step(s, Claim(t, n));
    if t < |s.consumers| && s.consumers[t] == Idle && 0 < n && s.head + n <= s.tail {
      IndexKeeps(s, s');
      StoresKeep(s, s');
      forall u | 0 <= u < |s'.consumers| ensures ConsumerOk(s', s'.consumers[u]) {
        assert ConsumerOk(s, s.consumers[u]);
        if u != t {
          ConsumerKeeps(s, s', s'.consumers[u]);
        }
      }
      ClaimedApart(s, t, n);
    }
  }

  // The new range begins where all the others end.
  lemma ClaimedApart<T>(s: State<T>, t: Tid, n: nat)
    requires Inv(s) && t < |s.consumers| && s.consumers[t] == Idle && 0 < n
    ensures ClaimsOk(s.consumers[t := Claimed(s.head, n)], s.head + n, s.done)
  {
    var after := s.consumers[t := Claimed(s.head, n)];
    forall u, v | 0 <= u < v < |after| ensures Apart(after[u], after[v]) {
      assert Apart(s.consumers[u], s.consumers[v]);
      assert ConsumerOk(s, s.consumers[u]) && ConsumerOk(s, s.consumers[v]);
    }
    forall i | 0 <= i < s.head + n && i !in s.done ensures HeldBySome(after, i) {
      if i < s.head {
        assert HeldBySome(s.consumers, i);
        var u :| 0 <= u < |s.consumers| && Holds(s.consumers[u], i);
        assert Holds(after[u], i);
      } else {
        assert Holds(after[t], i);
      }
    }
  }

  lemma BuildInv<T>(s: State<T>, x: T)
    requires Inv(s)
    ensures Inv(Step(s, Build(x)))
  {
    var s' := Step(s, Build(x));
    if HasRoom(s) {
      assert s.chain[|s.chain| - 1] == s.numbers[|s.numbers| - 1];
      IndexKeeps(s, s');
      forall i | 0 <= i < |s'.items| && i !in s'.done ensures StoredOk(s', i) {
        BuiltStored(s, s', x, i);
      }
      forall u | 0 <= u < |s'.consumers| ensures ConsumerOk(s', s'.consumers[u]) {
        ConsumerKeeps(s, s', s.consumers[u]);
      }
      forall n | Low(s') <= n < |s'.numbers| ensures FlagsOk(s', n) {
        assert FlagsOk(s, n);
      }
    }
  }

  lemma BuiltStored<T>(s: State<T>, s': State<T>, x: T, i: nat)
    requires Inv(s) && i <= |s.items| && i !in s.done
    requires 0 < |s.numbers| && |s.items| / BLOCK_SIZE == |s.numbers| - 1
    requires s'.numbers == s.numbers && s'.items == s.items + [x]
    requires s'.memory == s.memory[(s.numbers[|s.numbers| - 1], |s.items| % BLOCK_SIZE) := x]
    ensures i / BLOCK_SIZE < |s.numbers| && StoredOk(s', i)
  {
    if i < |s.items| {
      assert StoredOk(s, i);
      HeldBlockIsLive(s, i);
      if i / BLOCK_SIZE != |s.numbers| - 1 {
        LiveBlocksDiffer(s, i / BLOCK_SIZE, |s.numbers| - 1);
      }
    }
  }

  lemma PublishTailInv<T>(s: State<T>)
    requires Inv(s)
    ensures Inv(Step(s, Publish))
  {
    var s' := Step(s, Publish);
    IndexKeeps(s, s');
    StoresKeep(s, s');
    forall u | 0 <= u < |s'.consumers| ensures ConsumerOk(s', s'.consumers[u]) {
      ConsumerKeeps(s, s', s.consumers[u]);
    }
  }

  lemma GrowInv<T>(s: State<T>, junk: seq<Entry>)
    requires Inv(s)
    ensures Inv(Step(s, Grow(junk)))
  {
    var s' := Step(s, Grow(junk));
    var cur := Current(s);
    if s' != s {
      GrownKeepsWindow(cur.ring, junk);
      NewHeaderInv(s, s', Header(Grown(cur.ring, junk), cur.hi));
    }
  }

  // Publishing a header with the same live entries.
  lemma NewHeaderInv<T>(s: State<T>, s': State<T>, header: Header)
    requires Inv(s) && s.pending == NoBlock && s' == s.(headers := s.headers + [header])
    requires Good(header.ring) && header.hi == Current(s).hi && header.ring.used == Current(s).ring.used
    requires Window(header.ring) == Window(Current(s).ring)
    ensures Inv(s')
  {
    assert Current(s') == header;
    forall h | 0 <= h < |s'.headers| ensures HeaderOk(s', h) {
      if h < |s.headers| {
        assert HeaderOk(s, h) && s'.headers[h] == s.headers[h];
      } else {
        SameWindowHeader(s, s', header);
      }
    }
    ConsumersStay(s, s');
    forall n | Low(s') <= n < |s'.numbers| ensures FlagsOk(s', n) {
      assert FlagsOk(s, n);
    }
    forall i | 0 <= i < |s'.items| && i !in s'.done ensures StoredOk(s', i) {
      assert StoredOk(s, i);
    }
  }

  lemma SameWindowHeader<T>(s: State<T>, s': State<T>, header: Header)
    requires Inv(s) && Shape(s') && s'.headers == s.headers + [header] && s'.numbers == s.numbers
    requires Good(header.ring) && header.hi == Current(s).hi && header.ring.used == Current(s).ring.used
    requires Window(header.ring) == Window(Current(s).ring)
    ensures HeaderOk(s', |s.headers|)
  {
    var cur := Current(s);
    assert HeaderOk(s, |s.headers| - 1) && Current(s') == header;
    forall n | Low(s) <= n < cur.hi
      ensures header.ring.entries[SlotOf(header, n)] == cur.ring.entries[SlotOf(cur, n)]
    {
      assert Window(header.ring)[n - Low(s)] == Window(cur.ring)[n - Low(s)];
    }
  }

  // ---------- Entering a block, step by step ----------

  // A block whose flags are all set holds no element any more.
  lemma AllFlagsSet<T>(s: State<T>, n: nat, i: nat)
    requires n < |s.numbers| && FlagsOk(s, n) && s.flags[s.numbers[n]] == Offsets()
    requires n * BLOCK_SIZE <= i < (n + 1) * BLOCK_SIZE
    ensures i in s.done
  {
    var o: nat := i - n * BLOCK_SIZE;
    assert o in Offsets();
    assert o in s.flags[s.numbers[n]];
  }

  // The oldest block is reused only once every element of its number has been moved out.
  lemma ReusableIsDone<T>(s: State<T>)
    requires Inv(s) && Reusable(s)
    ensures 0 < Current(s).ring.used && s.chain[0] == s.numbers[Low(s)]
    ensures forall i :: 0 <= i < (Low(s) + 1) * BLOCK_SIZE ==> i in s.done
  {
    var low := Low(s);
    assert FlagsOk(s, low);
    forall i | 0 <= i < (low + 1) * BLOCK_SIZE ensures i in s.done {
      if i >= low * BLOCK_SIZE {
        AllFlagsSet(s, low, i);
      }
    }
  }

  // The slot about to be written is not live.
  lemma LiveSlotIsNotNext(h: Header, n: nat)
    requires Good(h.ring) && h.ring.used <= h.hi && h.ring.used < |h.ring.entries|
    requires h.hi - h.ring.used <= n < h.hi
    ensures SlotOf(h, n) != h.ring.next
  {
    ModUnique(h.ring.next, 0, h.ring.next, |h.ring.entries|);
    ModDistinct(h.ring.next, h.ring.next - h.hi + n, |h.ring.entries|);
  }

  // Publishing moves no live slot, and the newly live one is the slot written.
  lemma PublishedSlot(h: Header, n: nat)
    requires Good(h.ring) && h.ring.used <= h.hi && h.ring.used < |h.ring.entries|
    requires h.hi - h.ring.used <= n <= h.hi
    ensures SlotOf(Header(Published(h.ring), h.hi + 1), n) == if n == h.hi then h.ring.next else SlotOf(h, n)
  {
    var size := |h.ring.entries|;
    ModAdd(h.ring.next + 1, n - h.hi - 1, size);
    ModUnique(h.ring.next, 0, h.ring.next, size);
  }

  // What the other parts of the invariant need when only the last header and the chain change.
  ghost predicate SameStores<T>(s: State<T>, s': State<T>) {
    && s'.tail == s.tail && s'.head == s.head && s'.items == s.items && s'.done == s.done
    && s'.memory == s.memory && s'.consumers == s.consumers
  }

  // The slots a consumer relies on stay where they are.
  ghost predicate SlotStays<T>(s: State<T>, s': State<T>, pc: PC<T>)
    requires Shape(s) && Shape(s')
  {
    && |s.headers| <= |s'.headers| && s.numbers <= s'.numbers
    && (pc.Idle? || pc.Claimed? || pc.h >= |s.headers| || HeaderStays(s.headers[pc.h], s'.headers[pc.h], pc))
  }

  ghost predicate HeaderStays<T>(h: Header, h': Header, pc: PC<T>)
    requires 0 < |h.ring.entries| && 0 < |h'.ring.entries| && !pc.Idle?
  {
    && h.hi <= h'.hi
    && (pc.HasFront? || pc.HasBase? ==> SlotOf(h', pc.f) == SlotOf(h, pc.f))
    && (pc.AtSlot? || pc.InBlock? ==> SlotOf(h', Start(pc) / BLOCK_SIZE) == SlotOf(h, Start(pc) / BLOCK_SIZE))
  }

  lemma ConsumerStays<T>(s: State<T>, s': State<T>, pc: PC<T>)
    requires Shape(s) && Shape(s') && ConsumerOk(s, pc) && SameStores(s, s') && SlotStays(s, s', pc)
    ensures ConsumerOk(s', pc)
  {
  }

  // Nothing that locates a slot changes in any header.
  lemma ConsumersStay<T>(s: State<T>, s': State<T>)
    requires Inv(s) && Shape(s') && SameStores(s, s') && |s.headers| <= |s'.headers| && s.numbers <= s'.numbers
    requires forall h :: 0 <= h < |s.headers| ==>
      var r, r' := s.headers[h].ring, s'.headers[h].ring;
      s'.headers[h].hi == s.headers[h].hi && |r'.entries| == |r.entries| && r'.next == r.next && r'.used == r.used
    ensures forall u :: 0 <= u < |s'.consumers| ==> ConsumerOk(s', s'.consumers[u])
  {
    forall u | 0 <= u < |s'.consumers| ensures ConsumerOk(s', s'.consumers[u]) {
      assert ConsumerOk(s, s.consumers[u]);
      ConsumerStays(s, s', s.consumers[u]);
    }
  }

  /** The three writes of an entry together are the one-step AddBlock of the block index, both
      for a fresh block and, after the oldest was dropped, for a reused one. */
  lemma ThreeWritesAreAddBlock(r: Ring, base: int, block: nat)
    requires r.next < |r.entries|
    ensures var first := r.entries[r.next := Entry(base, r.entries[r.next].block)];
            var both := first[r.next := Entry(first[r.next].base, block)];
            && Published(r.(entries := both)) == Added(r, base, block, true)
            && (0 < r.used ==> Published(r.(used := r.used - 1, entries := both)) == Added(r, base, block, false))
  {
    var first := r.entries[r.next := Entry(base, r.entries[r.next].block)];
    assert first[r.next := Entry(first[r.next].base, block)] == r.entries[r.next := Entry(base, block)];
  }

  // The last header without its oldest live slot; the other slots stay where they are.
  ghost predicate DroppedOldest<T>(s: State<T>, s': State<T>)
    requires Shape(s)
  {
    && 0 < Current(s).ring.used
    && s'.headers == SetRing(s, Current(s).ring.(used := Current(s).ring.used - 1)).headers
    && s'.numbers == s.numbers
  }

  lemma DropKeepsHeaders<T>(s: State<T>, s': State<T>)
    requires Inv(s) && DroppedOldest(s, s')
    ensures Shape(s') && Low(s') == Low(s) + 1
    ensures forall h :: 0 <= h < |s'.headers| ==> HeaderOk(s', h)
  {
    var last := |s.headers| - 1;
    assert Good(s'.headers[last].ring);
    forall h | 0 <= h < |s'.headers| ensures HeaderOk(s', h) {
      assert HeaderOk(s, h);
      if h == last {
        forall n: nat | n < Current(s).hi ensures SlotOf(s'.headers[last], n) == SlotOf(s.headers[last], n) {
          SlotIgnoresUsed(s.headers[last], n);
        }
      }
    }
  }

  // Where a number's slot is depends on the next slot and the count of blocks alone.
  lemma SlotIgnoresUsed(h: Header, n: int)
    requires 0 < h.ring.used && 0 < |h.ring.entries|
    ensures SlotOf(Header(h.ring.(used := h.ring.used - 1), h.hi), n) == SlotOf(h, n)
  {
    assert h.ring.next - h.ring.used + (n - (h.hi - h.ring.used)) == h.ring.next + n - h.hi;
  }

  lemma DropKeepsConsumer<T>(s: State<T>, s': State<T>, pc: PC<T>)
    requires Shape(s) && Shape(s') && ConsumerOk(s, pc) && SameStores(s, s') && DroppedOldest(s, s')
    ensures ConsumerOk(s', pc)
  {
    if pc.HasFront? || pc.HasBase? {
      SlotIgnoresUsed(Current(s), pc.f);
    } else if pc.AtSlot? || pc.InBlock? {
      SlotIgnoresUsed(Current(s), Start(pc) / BLOCK_SIZE);
    }
    assert SlotStays(s, s', pc);
    ConsumerStays(s, s', pc);
  }

  lemma DropKeepsFlags<T>(s: State<T>, s': State<T>)
    requires Inv(s) && s.chain != [] && s'.numbers == s.numbers && s'.done == s.done
    requires s'.flags == s.flags[s.chain[0] := {}]
    ensures s.chain[0] == s.numbers[Low(s)]
    ensures forall n :: Low(s) < n < |s'.numbers| ==> FlagsOk(s', n)
  {
    forall n | Low(s) < n < |s'.numbers| ensures FlagsOk(s', n) {
      LiveBlocksDiffer(s, n, Low(s));
      assert FlagsOk(s, n);
    }
  }

  // Dropping the oldest block, all of whose elements are gone.
  lemma TakeReusedInv<T>(s: State<T>)
    requires Inv(s) && s.pending == NoBlock && s.tail == Current(s).hi * BLOCK_SIZE && Reusable(s)
    ensures Inv(Step(s, Take))
  {
    var s' := Step(s, Take);
    ReusableIsDone(s);
    DropKeepsHeaders(s, s');
    DropKeepsFlags(s, s');
    assert s'.chain == s'.numbers[Low(s')..];
    assert HeaderOk(s, |s.headers| - 1);
    forall u | 0 <= u < |s'.consumers| ensures ConsumerOk(s', s'.consumers[u]) {
      DropKeepsConsumer(s, s', s.consumers[u]);
    }
    forall i | 0 <= i < |s'.items| && i !in s'.done ensures StoredOk(s', i) {
      assert StoredOk(s, i);
    }
  }

  lemma FreshKeepsFlags<T>(s: State<T>, s': State<T>)
    requires Inv(s) && s'.numbers == s.numbers && s'.done == s.done && s'.flags == s.flags[s.blocks := {}]
    ensures forall n :: Low(s) <= n < |s'.numbers| ==> FlagsOk(s', n)
  {
    forall n | Low(s) <= n < |s'.numbers| ensures FlagsOk(s', n) {
      assert s.chain[n - Low(s)] == s.numbers[n];
      assert FlagsOk(s, n);
    }
  }

  lemma HeadersStay<T>(s: State<T>, s': State<T>)
    requires Inv(s) && s'.headers == s.headers && s'.numbers == s.numbers && SameStores(s, s')
    ensures Shape(s') && forall h :: 0 <= h < |s'.headers| ==> HeaderOk(s', h)
    ensures forall u :: 0 <= u < |s'.consumers| ==> ConsumerOk(s', s'.consumers[u])
    ensures forall i :: 0 <= i < |s'.items| && i !in s'.done ==> StoredOk(s', i)
  {
    forall h | 0 <= h < |s'.headers| ensures HeaderOk(s', h) {
      assert HeaderOk(s, h);
    }
    forall u | 0 <= u < |s'.consumers| ensures ConsumerOk(s', s'.consumers[u]) {
      assert ConsumerOk(s, s.consumers[u]);
    }
    forall i | 0 <= i < |s'.items| && i !in s'.done ensures StoredOk(s', i) {
      assert StoredOk(s, i);
    }
  }

  // A block never handed out before.
  lemma TakeFreshInv<T>(s: State<T>)
    requires Inv(s) && s.pending == NoBlock && s.tail == Current(s).hi * BLOCK_SIZE && !Reusable(s)
    requires Leeway(s) && Current(s).ring.used < |Current(s).ring.entries|
    ensures Inv(Step(s, Take))
  {
    var s' := Step(s, Take);
    HeadersStay(s, s');
    FreshKeepsFlags(s, s');
    assert |s.chain| == Current(s).ring.used;
    assert s.blocks !in s.chain;
  }

  // A live slot holds what it held before.
  lemma WriteKeepsEntry<T>(s: State<T>, e: Entry, n: nat)
    requires Inv(s) && Current(s).ring.used < |Current(s).ring.entries|
    requires Low(s) <= n < Current(s).hi
    ensures var h := Header(Current(s).ring.(entries := Current(s).ring.entries[Current(s).ring.next := e]), Current(s).hi);
            SlotOf(h, n) == SlotOf(Current(s), n) && h.ring.entries[SlotOf(h, n)] == Current(s).ring.entries[SlotOf(h, n)]
  {
    LiveSlotIsNotNext(Current(s), n);
  }

  lemma WriteKeepsHeaders<T>(s: State<T>, s': State<T>, e: Entry)
    requires Inv(s) && Current(s).ring.used < |Current(s).ring.entries|
    requires s'.headers == WriteEntry(s, e).headers && s'.numbers == s.numbers
    ensures Shape(s') && Low(s') == Low(s)
    ensures forall h :: 0 <= h < |s'.headers| ==> HeaderOk(s', h)
  {
    var last := |s.headers| - 1;
    assert Good(s'.headers[last].ring);
    forall h | 0 <= h < |s'.headers| ensures HeaderOk(s', h) {
      assert HeaderOk(s, h);
      if h == last {
        forall n: nat | Low(s) <= n < Current(s).hi
          ensures s'.headers[last].ring.entries[SlotOf(s'.headers[last], n)] == Entry(Word(n * BLOCK_SIZE), s'.numbers[n])
        {
          WriteKeepsEntry(s, e, n);
        }
      }
    }
  }

  // Overwriting the slot after the front, in whatever state the consumers are, is invisible.
  lemma WriteEntryInv<T>(s: State<T>, e: Entry, pending: Pending)
    requires Inv(s) && s.pending != NoBlock && pending != NoBlock && pending.block == s.pending.block
    requires pending.Taken? || e.base == Word(s.tail)
    requires pending.Written? ==> e.block == s.pending.block
    ensures Inv(WriteEntry(s, e).(pending := pending))
  {
    var s' := WriteEntry(s, e).(pending := pending);
    WriteKeepsHeaders(s, s', e);
    forall n | Low(s) <= n < |s'.numbers| ensures FlagsOk(s', n) {
      assert FlagsOk(s, n);
    }
    ConsumersStay(s, s');
    forall i | 0 <= i < |s'.items| && i !in s'.done ensures StoredOk(s', i) {
      assert StoredOk(s, i);
    }
  }

  lemma PublishHeaders<T>(s: State<T>, s': State<T>)
    requires Inv(s) && s.pending.Written?
    requires s'.headers == s.headers[|s.headers| - 1 := Header(Published(Current(s).ring), Current(s).hi + 1)]
    requires s'.numbers == s.numbers + [s.pending.block]
    ensures Shape(s') && Low(s') == Low(s)
    ensures forall h :: 0 <= h < |s'.headers| ==> HeaderOk(s', h)
  {
    var cur := Current(s);
    ModAdd(cur.ring.next + 1, -1, |cur.ring.entries|);
    ModUnique(cur.ring.next, 0, cur.ring.next, |cur.ring.entries|);
    forall h | 0 <= h < |s'.headers| ensures HeaderOk(s', h) {
      assert HeaderOk(s, h);
      if h == |s.headers| - 1 {
        forall n | Low(s') <= n < Current(s').hi
          ensures s'.headers[h].ring.entries[SlotOf(s'.headers[h], n)] == Entry(Word(n * BLOCK_SIZE), s'.numbers[n])
        {
          PublishedSlot(cur, n);
        }
      }
    }
  }

  lemma PublishStays<T>(s: State<T>, s': State<T>, pc: PC<T>)
    requires Inv(s) && s.pending.Written? && ConsumerOk(s, pc) && Shape(s')
    requires s'.headers == s.headers[|s.headers| - 1 := Header(Published(Current(s).ring), Current(s).hi + 1)]
    requires s'.numbers == s.numbers + [s.pending.block]
    ensures SlotStays(s, s', pc)
  {
    if !pc.Idle? {
      HeldBlockIsLive(s, Start(pc));
      if (pc.HasFront? || pc.HasBase?) && pc.h == |s.headers| - 1 {
        PublishedSlot(Current(s), pc.f);
      } else if (pc.AtSlot? || pc.InBlock?) && pc.h == |s.headers| - 1 {
        PublishedSlot(Current(s), Start(pc) / BLOCK_SIZE);
      }
    }
  }

  // Consumers keep their place: the slots they hold are live, so they did not move.
  lemma PublishConsumer<T>(s: State<T>, s': State<T>, pc: PC<T>)
    requires Inv(s) && s.pending.Written? && ConsumerOk(s, pc) && Shape(s') && SameStores(s, s')
    requires s'.headers == s.headers[|s.headers| - 1 := Header(Published(Current(s).ring), Current(s).hi + 1)]
    requires s'.numbers == s.numbers + [s.pending.block]
    ensures ConsumerOk(s', pc)
  {
    PublishStays(s, s', pc);
    ConsumerStays(s, s', pc);
  }

  // The pending block starts as the newest one, with no element moved out yet.
  lemma PublishChain<T>(s: State<T>, s': State<T>)
    requires Inv(s) && s.pending.Written? && Shape(s') && SameStores(s, s')
    requires s'.chain == s.chain + [s.pending.block] && s'.numbers == s.numbers + [s.pending.block]
    requires s'.flags == s.flags && s'.blocks == s.blocks
    requires Low(s') == Low(s) && Current(s').hi == Current(s).hi + 1
    ensures ChainOk(s')
    ensures forall n :: Low(s') <= n < |s'.numbers| ==> FlagsOk(s', n)
  {
    assert s'.chain == s'.numbers[Low(s')..];
    forall n | Low(s') <= n < |s'.numbers| ensures FlagsOk(s', n) {
      if n < |s.numbers| {
        assert FlagsOk(s, n);
      }
    }
  }

  lemma PublishInv<T>(s: State<T>)
    requires Inv(s) && s.pending.Written?
    ensures Inv(Step(s, Write))
  {
    var s' := Step(s, Write);
    PublishHeaders(s, s');
    PublishChain(s, s');
    forall u | 0 <= u < |s'.consumers| ensures ConsumerOk(s', s'.consumers[u]) {
      PublishConsumer(s, s', s.consumers[u]);
    }
    forall i | 0 <= i < |s'.items| && i !in s'.done ensures StoredOk(s', i) {
      HeldBlockIsLive(s, i);
      assert StoredOk(s, i);
    }
  }

  lemma WriteInv<T>(s: State<T>)
    requires Inv(s)
    ensures Inv(Step(s, Write))
  {
    var ring := Current(s).ring;
    match s.pending
    case NoBlock =>
    case Taken(b) => WriteEntryInv(s, Entry(Word(s.tail), ring.entries[ring.next].block), Based(b));
    case Based(b) => WriteEntryInv(s, Entry(ring.entries[ring.next].base, b), Written(b));
    case Written(_) => PublishInv(s);
  }

  lemma TakeInv<T>(s: State<T>)
    requires Inv(s)
    ensures Inv(Step(s, Take))
  {
    if s.pending == NoBlock && s.tail == Current(s).hi * BLOCK_SIZE {
      if Reusable(s) {
        TakeReusedInv(s);
      } else if Leeway(s) && Current(s).ring.used < |Current(s).ring.entries| {
        TakeFreshInv(s);
      }
    }
  }

  lemma ProducerInv<T>(s: State<T>, a: Action<T>)
    requires Inv(s) && !a.Claim? && !a.Run?
    ensures Inv(Step(s, a)) && Step(s, a).consumers == s.consumers && Step(s, a).head == s.head
  {
    match a
    case Grow(junk) => GrowInv(s, junk);
    case Take => TakeInv(s);
    case Write => WriteInv(s);
    case Build(x) => BuildInv(s, x);
    case Publish => PublishTailInv(s);
  }

  lemma StepInv<T>(s: State<T>, a: Action<T>)
    requires Inv(s)
    ensures Inv(Step(s, a)) && |Step(s, a).consumers| == |s.consumers|
  {
    if a.Claim? {
      ClaimInv(s, a.t, a.n);
    } else if !a.Run? {
      ProducerInv(s, a);
    } else if a.t < |s.consumers| {
      RunInv(s, a.t);
    }
  }

  lemma RunInv<T>(s: State<T>, t: Tid)
    requires Inv(s) && t < |s.consumers|
    ensures Inv(Consume(s, t)) && |Consume(s, t).consumers| == |s.consumers|
  {
    if AtPartEnd(s.consumers[t]) {
      LeaveInv(s, t);
    } else {
      ConsumeInv(s, t);
    }
  }

  /** A producer whose index starts with 2^k empty slots (at least the default 32). */
  function Init<T>(k: nat, junk: seq<Entry>, consumers: nat): State<T> {
    State(0, 0, [Header(Ring(junk, 0, 0, -1), 0)], NoBlock, [], map[], map[], 0,
          seq(consumers, _ => Idle), [], [], {})
  }

  lemma InitInv<T>(k: nat, junk: seq<Entry>, consumers: nat)
    requires 5 <= k <= 60 && |junk| == Pow2(k)
    ensures Inv(Init<T>(k, junk, consumers))
  {
    var s := Init<T>(k, junk, consumers);
    assert IsSize(|junk|);
    assert Good(s.headers[0].ring);
    assert Shape(s) && Current(s) == s.headers[0] && Low(s) == 0;
    assert HeaderOk(s, 0);
    assert s.chain == s.numbers[0..];
  }

  ghost function Started<T>(k: nat, junk: seq<Entry>, consumers: nat): (s: State<T>)
    requires 5 <= k <= 60 && |junk| == Pow2(k)
    ensures Inv(s)
  {
    InitInv<T>(k, junk, consumers);
    Init(k, junk, consumers)
  }

  /** The state after a whole schedule; the invariant holds over every run. */
  ghost function Execute<T>(s: State<T>, actions: seq<Action<T>>): (r: State<T>)
    requires Inv(s)
    ensures Inv(r) && |r.consumers| == |s.consumers|
    decreases |actions|
  {
    if actions == [] then s
    else
      var before := Execute(s, actions[..|actions| - 1]);
      StepInv(before, actions[|actions| - 1]);
      Step(before, actions[|actions| - 1])
  }

  // The state after a schedule of a producer whose index starts with 2^k slots.
  ghost function After<T>(k: nat, junk: seq<Entry>, consumers: nat, actions: seq<Action<T>>): (s: State<T>)
    requires 5 <= k <= 60 && |junk| == Pow2(k)
    ensures Inv(s)
  {
    Execute(Started<T>(k, junk, consumers), actions)
  }

  // The next step of the consumer takes it to the block that stores the next part of its range.
  ghost predicate FindsItsBlock<T>(s: State<T>, t: Tid)
    requires Inv(s) && t < |s.consumers| && s.consumers[t].AtSlot?
  {
    var i, pc := Next(s.consumers[t]), Consume(s, t).consumers[t];
    && pc.InBlock? && i / BLOCK_SIZE < |s.numbers| && pc.block == s.numbers[i / BLOCK_SIZE]
    && forall j :: i <= j < PartEnd(i, End(pc)) ==> StoredIn(s, pc.block, j)
  }

  // Element j is in that block, under its offset.
  ghost predicate StoredIn<T>(s: State<T>, block: nat, j: nat) {
    j < |s.items| && (block, j % BLOCK_SIZE) in s.memory && s.memory[(block, j % BLOCK_SIZE)] == s.items[j]
  }

  /** Over every run of enqueues, block reuse and index growth, every consumer that looked a slot
      up, in however old an index, or walked on to the next one, finds the block in which the
      indices of its range were stored, and they are still there. */
  lemma LookupFindsStoringBlock<T>(k: nat, junk: seq<Entry>, consumers: nat, actions: seq<Action<T>>)
    requires 5 <= k <= 60 && |junk| == Pow2(k)
    ensures var s := After(k, junk, consumers, actions);
            forall t: Tid :: t < |s.consumers| && s.consumers[t].AtSlot? ==> FindsItsBlock(s, t)
  {
    var s := After(k, junk, consumers, actions);
    forall t: Tid | t < |s.consumers| && s.consumers[t].AtSlot? ensures FindsItsBlock(s, t) {
      AtItsBlock(s, t);
    }
  }

  lemma AtItsBlock<T>(s: State<T>, t: Tid)
    requires Inv(s) && t < |s.consumers| && s.consumers[t].AtSlot?
    ensures FindsItsBlock(s, t)
  {
    var pc := s.consumers[t];
    var i := Next(pc);
    assert ConsumerOk(s, pc);
    EntryIsBlock(s, pc.h, i);
    forall j | i <= j < PartEnd(i, End(pc)) ensures StoredIn(s, s.numbers[i / BLOCK_SIZE], j) {
      assert StoredOk(s, j);
      assert j / BLOCK_SIZE == i / BLOCK_SIZE;
    }
  }

  // What the consumer moved out so far are the elements of its range in order, and nobody else
  // holds an index of the rest of it.
  ghost predicate HasItsElements<T>(s: State<T>, t: Tid)
    requires t < |s.consumers| && s.consumers[t].InBlock?
  {
    var pc := s.consumers[t];
    && Next(pc) <= End(pc) <= |s.items| && pc.out == s.items[pc.first..Next(pc)]
    && (forall i :: Start(pc) <= i < End(pc) ==> i !in s.done)
    && forall u :: 0 <= u < |s.consumers| && u != t ==> Apart(s.consumers[u], pc)
  }

  /** What a consumer has moved out, over however many blocks, are the elements enqueued at its
      indices, and no other consumer holds one of them. */
  lemma MovedOutIsEnqueued<T>(k: nat, junk: seq<Entry>, consumers: nat, actions: seq<Action<T>>)
    requires 5 <= k <= 60 && |junk| == Pow2(k)
    ensures var s := After(k, junk, consumers, actions);
            forall t: Tid :: t < |s.consumers| && s.consumers[t].InBlock? ==> HasItsElements(s, t)
  {
    var s := After(k, junk, consumers, actions);
    forall t: Tid | t < |s.consumers| && s.consumers[t].InBlock? ensures HasItsElements(s, t) {
      OwnElements(s, t);
    }
  }

  lemma OwnElements<T>(s: State<T>, t: Tid)
    requires Inv(s) && t < |s.consumers| && s.consumers[t].InBlock?
    ensures HasItsElements(s, t)
  {
    var pc := s.consumers[t];
    assert ConsumerOk(s, pc);
    assert Next(pc) <= PartEnd(pc.start, End(pc)) <= End(pc);
    forall u | 0 <= u < |s.consumers| && u != t ensures Apart(s.consumers[u], pc) {
      assert u < t ==> Apart(s.consumers[u], s.consumers[t]);
      assert t < u ==> Apart(s.consumers[t], s.consumers[u]);
    }
  }

  /** Once every consumer is idle, exactly the claimed indices have been given back. */
  lemma NothingLost<T>(k: nat, junk: seq<Entry>, consumers: nat, actions: seq<Action<T>>)
    requires 5 <= k <= 60 && |junk| == Pow2(k)
    ensures var s := After(k, junk, consumers, actions);
            (forall t :: 0 <= t < |s.consumers| ==> s.consumers[t] == Idle) ==> s.done == Range(0, s.head)
  {
    var s := After(k, junk, consumers, actions);
    if forall t :: 0 <= t < |s.consumers| ==> s.consumers[t] == Idle {
      AllGivenBack(s);
    }
  }

  lemma AllGivenBack<T>(s: State<T>)
    requires Inv(s) && forall t :: 0 <= t < |s.consumers| ==> s.consumers[t] == Idle
    ensures s.done == Range(0, s.head)
  {
    forall i | 0 <= i < s.head ensures i in s.done {
      NobodyHolds(s.consumers, i);
    }
  }

  lemma NobodyHolds<T>(consumers: seq<PC<T>>, i: nat)
    requires forall t :: 0 <= t < |consumers| ==> consumers[t] == Idle
    ensures !HeldBySome(consumers, i)
  {
  }

  // How often thread t itself moves.
  function OwnMoves<T>(t: Tid, actions: seq<Action<T>>): nat {
    if actions == [] then 0
    else
      var a := actions[|actions| - 1];
      OwnMoves(t, actions[..|actions| - 1]) + if a.Run? && a.t == t then 1 else 0
  }

  // Every step of the consumer itself brings it nearer to the end of its range.
  lemma OwnStepFalls<T>(s: State<T>, t: Tid)
    requires Inv(s) && t < |s.consumers| && !s.consumers[t].Idle?
    ensures |Consume(s, t).consumers| == |s.consumers|
    ensures StepsLeft(Consume(s, t).consumers[t]) < StepsLeft(s.consumers[t])
  {
    if AtPartEnd(s.consumers[t]) {
      LeaveBlockIs(s, t);
    } else {
      KeepsGoing(s, t);
    }
  }

  // No other step moves it.
  lemma OthersDoNotMove<T>(s: State<T>, a: Action<T>, t: Tid)
    requires Inv(s) && t < |s.consumers| && (a.Run? || a.Claim? ==> a.t != t)
    ensures |Step(s, a).consumers| == |s.consumers| && Step(s, a).consumers[t] == s.consumers[t]
  {
    if a.Run? && a.t < |s.consumers| && !s.consumers[a.t].Idle? {
      if AtPartEnd(s.consumers[a.t]) {
        LeaveBlockIs(s, a.t);
      } else {
        KeepsGoing(s, a.t);
      }
    }
  }

  lemma StepFalls<T>(s: State<T>, a: Action<T>, t: Tid)
    requires Inv(s) && t < |s.consumers| && (a.Claim? ==> a.t != t)
    ensures |Step(s, a).consumers| == |s.consumers|
    ensures StepsLeft(Step(s, a).consumers[t]) <= Less(StepsLeft(s.consumers[t]), if a == Run(t) then 1 else 0)
  {
    BusyHasSteps(s, t);
    if a != Run(t) {
      OthersDoNotMove(s, a, t);
    } else if !s.consumers[t].Idle? {
      OwnStepFalls(s, t);
    }
  }

  // What is left of a after b steps that each take at least one.
  function Less(a: int, b: int): int {
    if b < a then a - b else 0
  }

  lemma {:induction false} LeftFalls<T>(s: State<T>, t: Tid, actions: seq<Action<T>>)
    requires Inv(s) && t < |s.consumers|
    requires forall i :: 0 <= i < |actions| && actions[i].Claim? ==> actions[i].t != t
    ensures StepsLeft(Execute(s, actions).consumers[t]) <= Less(StepsLeft(s.consumers[t]), OwnMoves(t, actions))
    decreases |actions|
  {
    if actions == [] {
      BusyHasSteps(s, t);
    } else {
      var before, a := actions[..|actions| - 1], actions[|actions| - 1];
      LeftFalls(s, t, before);
      StepFalls(Execute(s, before), a, t);
      assert OwnMoves(t, actions) == OwnMoves(t, before) + if a == Run(t) then 1 else 0;
    }
  }

  /** A consumer is never blocked: whatever everybody else does meanwhile, a dequeue of n claimed
      elements is over after at most 3n + 5 steps of its own. */
  lemma EndsOnItsOwn<T>(s: State<T>, t: Tid, actions: seq<Action<T>>)
    requires Inv(s) && t < |s.consumers| && !s.consumers[t].Idle?
    requires forall i :: 0 <= i < |actions| && actions[i].Claim? ==> actions[i].t != t
    requires 3 * s.consumers[t].n + 5 <= OwnMoves(t, actions)
    ensures Execute(s, actions).consumers[t] == Idle
  {
    LeftFalls(s, t, actions);
    BusyHasSteps(Execute(s, actions), t);
    StepsBounded(s, t);
  }

  lemma StepsBounded<T>(s: State<T>, t: Tid)
    requires Inv(s) && t < |s.consumers| && !s.consumers[t].Idle?
    ensures StepsLeft(s.consumers[t]) <= 3 * s.consumers[t].n + 5
  {
    assert ConsumerOk(s, s.consumers[t]);
  }

  lemma BusyHasSteps<T>(s: State<T>, t: Tid)
    requires Inv(s) && t < |s.consumers|
    ensures StepsLeft(s.consumers[t]) >= if s.consumers[t] == Idle then 0 else 1
  {
    assert ConsumerOk(s, s.consumers[t]);
  }

  // Every element of block number n has been moved out.
  ghost predicate BlockIsDone<T>(s: State<T>, n: nat) {
    forall i :: n * BLOCK_SIZE <= i < (n + 1) * BLOCK_SIZE ==> i in s.done
  }

  /** The live blocks are pairwise different, so a block is never in the ring twice and a
      reused block's elements have all been moved out before. */
  lemma ReuseIsSafe<T>(k: nat, junk: seq<Entry>, consumers: nat, actions: seq<Action<T>>)
    requires 5 <= k <= 60 && |junk| == Pow2(k)
    ensures var s := After(k, junk, consumers, actions);
            && (forall a, b :: 0 <= a < b < |s.chain| ==> s.chain[a] != s.chain[b])
            && (Reusable(s) ==>
                  Low(s) < |s.numbers| && s.chain[0] == s.numbers[Low(s)] && BlockIsDone(s, Low(s)))
  {
    var s := After(k, junk, consumers, actions);
    if Reusable(s) {
      ReusableIsDone(s);
    }
  }

  // ---------- What an enqueue does alone ----------

  // The actions of the producer in turn; those a state does not allow leave it as it is.
  ghost function Perform<T>(s: State<T>, actions: seq<Action<T>>): (r: State<T>)
    requires Inv(s)
    ensures Inv(r)
    decreases |actions|
  {
    if actions == [] then s
    else
      StepInv(s, actions[0]);
      Perform(Step(s, actions[0]), actions[1..])
  }

  lemma PerformFirst<T>(s: State<T>, a: Action<T>, rest: seq<Action<T>>)
    requires Inv(s)
    ensures Inv(Step(s, a)) && Perform(s, [a] + rest) == Perform(Step(s, a), rest)
  {
    StepInv(s, a);
    assert ([a] + rest)[1..] == rest;
  }

  // The whole of an enqueue: what does not apply is skipped.
  function EnqueueOf<T>(x: T, junk: seq<Entry>): (r: seq<Action<T>>) {
    [Grow(junk)] + ([Take] + ([Write] + ([Write] + ([Write] + ([Build(x)] + ([Publish] + []))))))
  }

  // All elements of the oldest block have been moved out.
  ghost predicate OldestIsDone<T>(s: State<T>)
    requires Shape(s)
  {
    0 < Current(s).ring.used && BlockIsDone(s, Low(s))
  }

  // There may be one more block of 32: the tail would stay within half a turn of the head.
  predicate MoreBlocks<T>(s: State<T>) {
    s.tail + 32 - s.head < 0x8000_0000_0000_0000 && |s.chain| < 0x400_0000_0000_0000
  }

  // r is s with x at the tail, in the last of these blocks, and nothing else changed.
  ghost predicate Enqueued<T>(s: State<T>, r: State<T>, x: T, chain: seq<nat>, blocks: nat) {
    && r.tail == s.tail + 1 && r.items == s.items + [x] && r.head == s.head && r.pending == NoBlock
    && r.consumers == s.consumers && r.done == s.done && r.chain == chain && r.blocks == blocks
    && chain != [] && (chain[|chain| - 1], s.tail % 32) in r.memory && r.memory[(chain[|chain| - 1], s.tail % 32)] == x
    && forall at :: at in s.memory && at != (chain[|chain| - 1], s.tail % 32) ==> at in r.memory && r.memory[at] == s.memory[at]
  }

  lemma BuildsOne<T>(s: State<T>, x: T)
    requires Inv(s) && s.tail == |s.items| && HasRoom(s)
    ensures Step(s, Build(x)) ==
            s.(items := s.items + [x], memory := s.memory[(s.chain[|s.chain| - 1], s.tail % BLOCK_SIZE) := x])
  {
  }

  lemma Finishes<T>(s: State<T>, x: T)
    requires Inv(s) && s.pending == NoBlock && s.tail == |s.items| && HasRoom(s)
    ensures Enqueued(s, Perform(s, [Build(x)] + ([Publish] + [])), x, s.chain, s.blocks)
  {
    PerformFirst(s, Build(x), [Publish] + []);
    BuildsOne(s, x);
    Publishes(Step(s, Build(x)));
  }

  lemma Publishes<T>(s: State<T>)
    requires Inv(s)
    ensures Perform(s, [Publish] + []) == s.(tail := |s.items|)
  {
    PerformFirst(s, Publish, []);
  }

  lemma WritesBase<T>(s: State<T>, b: nat)
    requires Inv(s) && s.pending == Taken(b)
    ensures var r := Step(s, Write);
      && Inv(r) && SameStores(s, r) && r.pending == Based(b) && r.chain == s.chain && r.blocks == s.blocks
      && r.numbers == s.numbers
  {
    WriteInv(s);
  }

  lemma WritesBlock<T>(s: State<T>, b: nat)
    requires Inv(s) && s.pending == Based(b)
    ensures var r := Step(s, Write);
      && Inv(r) && SameStores(s, r) && r.pending == Written(b) && r.chain == s.chain && r.blocks == s.blocks
      && r.numbers == s.numbers
  {
    WriteInv(s);
  }

  lemma WritesFront<T>(s: State<T>, b: nat)
    requires Inv(s) && s.pending == Written(b)
    ensures var r := Step(s, Write);
      && Inv(r) && SameStores(s, r) && r.pending == NoBlock && r.chain == s.chain + [b] && r.blocks == s.blocks
      && r.numbers == s.numbers + [b]
  {
    WriteInv(s);
  }

  lemma Enters<T>(s: State<T>, b: nat, x: T)
    requires Inv(s) && s.pending == Taken(b) && s.tail == |s.items|
    ensures var rest := [Write] + ([Write] + ([Write] + ([Build(x)] + ([Publish] + []))));
            Enqueued(s, Perform(s, rest), x, s.chain + [b], s.blocks)
  {
    var end := [Build(x)] + ([Publish] + []);
    PerformFirst(s, Write, [Write] + ([Write] + end));
    WritesBase(s, b);
    var s1 := Step(s, Write);
    PerformFirst(s1, Write, [Write] + end);
    WritesBlock(s1, b);
    var s2 := Step(s1, Write);
    PerformFirst(s2, Write, end);
    WritesFront(s2, b);
    var s3 := Step(s2, Write);
    assert HasRoom(s3);
    Finishes(s3, x);
  }

  lemma SkipsWrites<T>(s: State<T>, rest: seq<Action<T>>)
    requires Inv(s) && s.pending == NoBlock
    ensures Perform(s, [Write] + ([Write] + ([Write] + rest))) == Perform(s, rest)
  {
    PerformFirst(s, Write, [Write] + ([Write] + rest));
    PerformFirst(s, Write, [Write] + rest);
    PerformFirst(s, Write, rest);
  }

  // Full blocks: the producer needs another one.
  lemma AtBlockEnd<T>(s: State<T>)
    requires Inv(s) && s.tail == |s.items|
    ensures Current(s).hi == |s.numbers| && |s.chain| == Current(s).ring.used
    ensures s.tail < 32 * |s.numbers| ==> HasRoom(s)
    ensures s.tail < 32 * |s.numbers| || s.tail == Current(s).hi * BLOCK_SIZE
    ensures Reusable(s) <==> OldestIsDone(s)
    ensures Leeway(s) <==> MoreBlocks(s)
  {
    assert s.tail !in s.done;
    ReusableIffDone(s);
    LeewayIff(s);
  }

  lemma ReusableIffDone<T>(s: State<T>)
    requires Inv(s)
    ensures Reusable(s) <==> OldestIsDone(s)
  {
    if Reusable(s) {
      ReusableIsDone(s);
    }
    if OldestIsDone(s) {
      AllFlags(s, Low(s));
    }
  }

  lemma AllFlags<T>(s: State<T>, n: nat)
    requires n < |s.numbers| && FlagsOk(s, n) && BlockIsDone(s, n)
    ensures s.flags[s.numbers[n]] == Offsets()
  {
    var flags := s.flags[s.numbers[n]];
    forall o: nat | o in Offsets() ensures o in flags {
      assert n * BLOCK_SIZE + o in s.done;
    }
    assert flags <= Offsets() && Offsets() <= flags;
  }

  lemma LeewayIff<T>(s: State<T>)
    requires Inv(s)
    ensures Leeway(s) <==> MoreBlocks(s)
  {
    if |s.chain| < MAX_BLOCKS {
      HeadPastDropped(s);
      CircularLessExact(s.head, s.tail + BLOCK_SIZE);
    }
  }

  lemma HeadPastDropped<T>(s: State<T>)
    requires Inv(s)
    ensures s.tail - s.head <= 32 * |s.chain|
  {
    assert s.head !in s.done;
  }

  // With no room in the index for one more block a larger one is published first.
  lemma MakesRoom<T>(s: State<T>, junk: seq<Entry>)
    requires Inv(s) && s.pending == NoBlock && |junk| == Current(s).ring.used
    requires s.tail == Current(s).hi * BLOCK_SIZE && !Reusable(s) && Leeway(s)
    ensures var r := Step(s, Grow(junk));
      && Inv(r) && SameStores(s, r) && r.pending == NoBlock && r.chain == s.chain && r.blocks == s.blocks
      && r.flags == s.flags && Current(r).hi == Current(s).hi && Current(r).ring.used < |Current(r).ring.entries|
  {
    GrowInv(s, junk);
    assert 0 < |Current(s).ring.entries| && Current(s).ring.used <= |Current(s).ring.entries|;
    assert |s.chain| == Current(s).ring.used;
    Pow2Sixty();
  }

  lemma AfterGrowth<T>(s: State<T>, junk: seq<Entry>, rest: seq<Action<T>>) returns (g: State<T>)
    requires Resting(s, junk) && s.tail == Current(s).hi * BLOCK_SIZE && !Reusable(s) && Leeway(s)
    ensures Inv(g) && SameStores(s, g) && g.pending == NoBlock && g.chain == s.chain && g.blocks == s.blocks
    ensures g.tail == Current(g).hi * BLOCK_SIZE && !Reusable(g) && Leeway(g)
    ensures Current(g).ring.used < |Current(g).ring.entries|
    ensures Perform(s, [Grow(junk)] + rest) == Perform(g, rest)
  {
    PerformFirst(s, Grow(junk), rest);
    MakesRoom(s, junk);
    g := Step(s, Grow(junk));
    SameTests(s, g);
  }

  lemma SameTests<T>(s: State<T>, g: State<T>)
    requires s.chain == g.chain && s.flags == g.flags && s.head == g.head && s.tail == g.tail
    ensures Reusable(g) == Reusable(s) && Leeway(g) == Leeway(s)
  {
  }

  lemma Pow2Sixty()
    ensures MAX_BLOCKS < Pow2(60)
  {
    WordIsPow2();
    Pow2Add(60, 4);
    assert Pow2(4) == 16;
  }

  lemma NothingToGrow<T>(s: State<T>, junk: seq<Entry>)
    requires Inv(s) && (s.tail != Current(s).hi * BLOCK_SIZE || Reusable(s) || !Leeway(s))
    ensures Step(s, Grow(junk)) == s
  {
  }

  lemma TakesReused<T>(s: State<T>)
    requires Inv(s) && s.pending == NoBlock && s.tail == Current(s).hi * BLOCK_SIZE && Reusable(s)
    ensures var r := Step(s, Take);
      && Inv(r) && SameStores(s, r) && r.pending == Taken(s.chain[0]) && r.chain == s.chain[1..] && r.blocks == s.blocks
  {
    TakeInv(s);
    ReusableIsDone(s);
  }

  lemma TakesFresh<T>(s: State<T>)
    requires Inv(s) && s.pending == NoBlock && s.tail == Current(s).hi * BLOCK_SIZE && !Reusable(s)
    requires Leeway(s) && Current(s).ring.used < |Current(s).ring.entries|
    ensures var r := Step(s, Take);
      && Inv(r) && SameStores(s, r) && r.pending == Taken(s.blocks) && r.chain == s.chain && r.blocks == s.blocks + 1
  {
    TakeInv(s);
  }

  lemma TakesNone<T>(s: State<T>)
    requires Inv(s) && (s.tail != Current(s).hi * BLOCK_SIZE || (!Reusable(s) && !Leeway(s)))
    ensures Step(s, Take) == s
  {
  }

  // An enqueue between two enqueues of the producer, with what a larger index would hold in its
  // unused slots.
  ghost predicate Resting<T>(s: State<T>, junk: seq<Entry>) {
    Inv(s) && s.pending == NoBlock && s.tail == |s.items| && |junk| == Current(s).ring.used
  }

  lemma ReusesOldest<T>(s: State<T>, x: T, junk: seq<Entry>)
    requires Resting(s, junk) && s.tail == Current(s).hi * BLOCK_SIZE && Reusable(s)
    ensures Enqueued(s, Perform(s, EnqueueOf(x, junk)), x, s.chain[1..] + [s.chain[0]], s.blocks)
  {
    var writes := [Write] + ([Write] + ([Write] + ([Build(x)] + ([Publish] + []))));
    NothingToGrow(s, junk);
    PerformFirst(s, Grow(junk), [Take] + writes);
    PerformFirst(s, Take, writes);
    TakesReused(s);
    Enters(Step(s, Take), s.chain[0], x);
  }

  lemma EntersFresh<T>(s: State<T>, x: T)
    requires Inv(s) && s.pending == NoBlock && s.tail == |s.items| && s.tail == Current(s).hi * BLOCK_SIZE
    requires !Reusable(s) && Leeway(s) && Current(s).ring.used < |Current(s).ring.entries|
    ensures var writes := [Write] + ([Write] + ([Write] + ([Build(x)] + ([Publish] + []))));
            Enqueued(s, Perform(s, [Take] + writes), x, s.chain + [s.blocks], s.blocks + 1)
  {
    var writes := [Write] + ([Write] + ([Write] + ([Build(x)] + ([Publish] + []))));
    PerformFirst(s, Take, writes);
    TakesFresh(s);
    Enters(Step(s, Take), s.blocks, x);
  }

  lemma AddsFresh<T>(s: State<T>, x: T, junk: seq<Entry>)
    requires Resting(s, junk) && s.tail == Current(s).hi * BLOCK_SIZE && !Reusable(s) && Leeway(s)
    ensures Enqueued(s, Perform(s, EnqueueOf(x, junk)), x, s.chain + [s.blocks], s.blocks + 1)
  {
    var g := AfterGrowth(s, junk, [Take] + ([Write] + ([Write] + ([Write] + ([Build(x)] + ([Publish] + []))))));
    EntersFresh(g, x);
    SameStart(s, g, Perform(s, EnqueueOf(x, junk)), x, s.chain + [s.blocks], s.blocks + 1);
  }

  lemma SameStart<T>(s: State<T>, g: State<T>, r: State<T>, x: T, chain: seq<nat>, blocks: nat)
    requires SameStores(s, g) && Enqueued(g, r, x, chain, blocks)
    ensures Enqueued(s, r, x, chain, blocks)
  {
  }

  lemma SkipsBlock<T>(s: State<T>, junk: seq<Entry>, rest: seq<Action<T>>)
    requires Resting(s, junk) && (s.tail != Current(s).hi * BLOCK_SIZE || (!Reusable(s) && !Leeway(s)))
    ensures Perform(s, [Grow(junk)] + ([Take] + ([Write] + ([Write] + ([Write] + rest))))) == Perform(s, rest)
  {
    NothingToGrow(s, junk);
    PerformFirst(s, Grow(junk), [Take] + ([Write] + ([Write] + ([Write] + rest))));
    TakesNone(s);
    PerformFirst(s, Take, [Write] + ([Write] + ([Write] + rest)));
    SkipsWrites(s, rest);
  }

  lemma FillsTail<T>(s: State<T>, x: T, junk: seq<Entry>)
    requires Resting(s, junk) && s.tail != Current(s).hi * BLOCK_SIZE && HasRoom(s)
    ensures Enqueued(s, Perform(s, EnqueueOf(x, junk)), x, s.chain, s.blocks)
  {
    SkipsBlock(s, junk, [Build(x)] + ([Publish] + []));
    Finishes(s, x);
  }

  lemma Refuses<T>(s: State<T>, x: T, junk: seq<Entry>)
    requires Resting(s, junk) && s.tail == Current(s).hi * BLOCK_SIZE && !Reusable(s) && !Leeway(s)
    ensures Perform(s, EnqueueOf(x, junk)) == s
  {
    SkipsBlock(s, junk, [Build(x)] + ([Publish] + []));
    PerformFirst(s, Build(x), [Publish] + []);
    PerformFirst(s, Publish, []);
  }

  /** An enqueue while the consumers stand still, wherever they are. While the tail block has room
      x goes there. When all its 32 places are used, the oldest block is taken over exactly if
      all its elements have been moved out; else a fresh one is added, in a larger index if need
      be; and only if the tail would run half a turn ahead of the head, or memory out of blocks,
      is x refused and nothing changed. */
  lemma SoloEnqueue<T>(s: State<T>, x: T, junk: seq<Entry>)
    requires Resting(s, junk)
    ensures var r := Perform(s, EnqueueOf(x, junk));
            if s.tail < 32 * |s.numbers| then Enqueued(s, r, x, s.chain, s.blocks)
            else if OldestIsDone(s) then s.chain != [] && Enqueued(s, r, x, s.chain[1..] + [s.chain[0]], s.blocks)
            else if MoreBlocks(s) then Enqueued(s, r, x, s.chain + [s.blocks], s.blocks + 1)
            else r == s
  {
    AtBlockEnd(s);
    if s.tail < 32 * |s.numbers| {
      FillsTail(s, x, junk);
    } else if Reusable(s) {
      ReusesOldest(s, x, junk);
    } else if Leeway(s) {
      AddsFresh(s, x, junk);
    } else {
      Refuses(s, x, junk);
    }
  }
}
