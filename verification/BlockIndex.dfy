/** The explicit producer's circular block index: a ring of (base, block) entries that the
    producer overwrites in place and replaces by a copy of twice the size when full, and
    the wrapped arithmetic by which a consumer finds the entry of an index. */
module BlockIndex {
  import opened Circular
  import opened Counting

  const BLOCK_SIZE: nat := 32

  datatype Entry = Entry(base: int, block: nat)

  function Pow2(k: nat): (p: nat)
    ensures 0 < p
  {
    if k == 0 then 1 else 2 * Pow2(k - 1)
  }

  // Index sizes are powers of two well below the word.
  ghost predicate IsSize(size: nat) {
    exists k: nat :: k <= 60 && size == Pow2(k)
  }

  // ---------- Arithmetic of the lookup ----------

  // A word read as a two's-complement number.
  function Signed(w: int): int {
    if w >= HALF then w - WORD else w
  }

  // C++ division truncates toward zero.
  function Truncate(a: int, b: int): int
    requires 0 < b
  {
    if a >= 0 then a / b else -((-a) / b)
  }

  /** The slot the code looks in: the index's block base less the base of the front entry,
      divided as a signed number, added to the front and masked. */
  function LookupSlot(front: int, headBase: int, index: int, size: nat): (slot: nat)
    requires 0 < size
    ensures slot < size
  {
    Masked(front, Word(BlockOffset(headBase, index)), size)
  }

  function BlockOffset(headBase: int, index: int): int {
    var blockBase := index - index % BLOCK_SIZE;
    Truncate(Signed(Word(blockBase - headBase)), BLOCK_SIZE)
  }

  function Masked(front: int, offset: int, size: nat): (slot: nat)
    requires 0 < size
    ensures slot < size
  {
    Word(front + offset) % size
  }

  lemma {:induction false} Pow2Add(a: nat, b: nat)
    ensures Pow2(a + b) == Pow2(a) * Pow2(b)
  {
    if a > 0 {
      Pow2Add(a - 1, b);
      assert Pow2(a + b) == 2 * Pow2(a + b - 1);
    }
  }

  lemma WordIsPow2()
    ensures Pow2(64) == WORD
  {
    assert Pow2(4) == 16;
    Pow2Add(4, 4);
    assert Pow2(8) == 256;
    Pow2Add(8, 8);
    assert Pow2(16) == 0x1_0000;
    Pow2Add(16, 16);
    assert Pow2(32) == 0x1_0000_0000;
    Pow2Add(32, 32);
  }

  lemma SizeDividesWord(size: nat)
    requires IsSize(size)
    ensures 0 < size && exists m: nat :: WORD == m * size
  {
    var k: nat :| k <= 60 && size == Pow2(k);
    WordIsPow2();
    Pow2Add(64 - k, k);
    assert WORD == Pow2(64 - k) * size;
  }

  // Reducing by the word first does not disturb a remainder by a divisor of the word.
  lemma WordThenSize(x: int, size: nat)
    requires IsSize(size)
    ensures Word(x) % size == x % size
  {
    SizeDividesWord(size);
    var m: nat :| WORD == m * size;
    var q := x / WORD;
    assert x == q * WORD + Word(x);
    Associate(q, m, size);
    ModShift(Word(x), q * m, size);
  }

  lemma Associate(q: int, m: int, size: int)
    ensures q * (m * size) == (q * m) * size
  {
  }

  lemma SignedWord(x: int)
    requires -HALF <= x < HALF
    ensures Signed(Word(x)) == x
  {
    if x < 0 {
      WordShift(x, 1);
    }
  }

  // The block base of a wrapped index is the wrapped block base.
  lemma BlockBase(i: nat)
    ensures Word(i) - Word(i) % BLOCK_SIZE == Word((i / BLOCK_SIZE) * BLOCK_SIZE)
  {
    var n, w := i / BLOCK_SIZE, Word(i);
    var c := i / WORD;
    assert i == c * WORD + w;
    assert w % BLOCK_SIZE == i % BLOCK_SIZE;
    assert n * BLOCK_SIZE == c * WORD + (w - w % BLOCK_SIZE);
    WordShift(w - w % BLOCK_SIZE, c);
  }

  // The offset the code computes is the distance of the block numbers, as a word.
  lemma OffsetIsDistance(f: nat, i: nat)
    requires -HALF <= (i / BLOCK_SIZE - f) * BLOCK_SIZE < HALF
    ensures BlockOffset(Word(f * BLOCK_SIZE), Word(i)) == i / BLOCK_SIZE - f
  {
    var n := i / BLOCK_SIZE;
    BlockBase(i);
    WordOfWords(n * BLOCK_SIZE, f * BLOCK_SIZE);
    assert n * BLOCK_SIZE - f * BLOCK_SIZE == (n - f) * BLOCK_SIZE;
    SignedWord((n - f) * BLOCK_SIZE);
  }

  // Adding a distance as a word and masking is adding it in the ring.
  lemma SlotOfDistance(front: nat, d: int, size: nat)
    requires IsSize(size)
    ensures 0 < size && Masked(front, Word(d), size) == (front + d) % size
  {
    SizeDividesWord(size);
    WordThenSize(front + Word(d), size);
    WordThenSize(d, size);
    ModAdd(Word(d), front, size);
    ModAdd(d, front, size);
  }

  /** For a front entry of block number f and an index of block number n whose bases are
      within half a turn, the wrapped lookup lands n - f slots from the front, in the
      ring's arithmetic, however often the indices have wrapped. */
  lemma LookupIsExact(front: nat, f: nat, i: nat, size: nat)
    requires IsSize(size) && front < size
    requires -HALF <= (i / BLOCK_SIZE - f) * BLOCK_SIZE < HALF
    ensures LookupSlot(front, Word(f * BLOCK_SIZE), Word(i), size) == (front + (i / BLOCK_SIZE - f)) % size
  {
    OffsetIsDistance(f, i);
    SlotOfDistance(front, i / BLOCK_SIZE - f, size);
  }

  // ---------- The ring as a value ----------

  // `next` is the slot the producer writes next, `front` the slot last published, `used`
  // how many slots hold live entries.
  datatype Ring = Ring(entries: seq<Entry>, used: nat, next: nat, front: int)

  ghost predicate Good(r: Ring) {
    && IsSize(|r.entries|)
    && r.used <= |r.entries| && r.next < |r.entries|
    && (0 < r.used ==> r.front == (r.next - 1) % |r.entries|)
  }

  // The slot of the j-th live entry, oldest first.
  function Slot(r: Ring, j: int): (slot: nat)
    requires 0 < |r.entries|
    ensures slot < |r.entries|
  {
    (r.next - r.used + j) % |r.entries|
  }

  ghost function Window(r: Ring): (w: seq<Entry>)
    requires 0 < |r.entries|
    ensures |w| == r.used
  {
    seq(r.used, j => r.entries[Slot(r, j)])
  }

  /** new_block_index: the live entries copied to the start of an array of twice the size,
      whose other slots hold whatever the allocator left there. */
  ghost function Grown(r: Ring, junk: seq<Entry>): Ring
    requires 0 < |r.entries|
  {
    Ring(Window(r) + junk, r.used, r.used, r.used - 1)
  }

  /** Entering a block: a fresh block takes one more slot, a reused one the oldest slot's turn. */
  function Added(r: Ring, base: int, block: nat, isFresh: bool): Ring
    requires r.next < |r.entries|
  {
    Ring(r.entries[r.next := Entry(base, block)], if isFresh then r.used + 1 else r.used,
         (r.next + 1) % |r.entries|, r.next)
  }

  lemma DoubledSize(size: nat)
    requires IsSize(size) && size < Pow2(60)
    ensures IsSize(2 * size)
  {
    var k: nat :| k <= 60 && size == Pow2(k);
    assert 2 * size == Pow2(k + 1);
  }

  /** Growing loses no live entry and keeps their order. */
  lemma GrownKeepsWindow(r: Ring, junk: seq<Entry>)
    requires Good(r) && |r.entries| < Pow2(60) && r.used + |junk| == 2 * |r.entries|
    ensures Good(Grown(r, junk)) && Window(Grown(r, junk)) == Window(r)
  {
    DoubledSize(|r.entries|);
    var g := Grown(r, junk);
    if 0 < r.used {
      ModUnique(r.used - 1, 0, r.used - 1, |g.entries|);
    }
    forall j | 0 <= j < r.used ensures g.entries[Slot(g, j)] == Window(r)[j] {
      ModUnique(j, 0, j, |g.entries|);
    }
  }

  // An array of twice the size that begins with the live entries.
  lemma GrownFrom(r: Ring, all: seq<Entry>)
    requires Good(r) && |r.entries| < Pow2(60)
    requires |all| == 2 * |r.entries| && all[..r.used] == Window(r)
    ensures Grown(r, all[r.used..]) == Ring(all, r.used, r.used, r.used - 1)
    ensures Good(Grown(r, all[r.used..])) && Window(Grown(r, all[r.used..])) == Window(r)
  {
    GrownKeepsWindow(r, all[r.used..]);
    assert all == all[..r.used] + all[r.used..];
  }

  /** Entering a block appends its entry to the live ones, dropping the oldest on reuse. */
  lemma AddedExtendsWindow(r: Ring, base: int, block: nat, isFresh: bool)
    requires Good(r) && (if isFresh then r.used < |r.entries| else 0 < r.used)
    ensures Good(Added(r, base, block, isFresh))
    ensures Window(Added(r, base, block, isFresh))
         == (if isFresh then Window(r) else Window(r)[1..]) + [Entry(base, block)]
  {
    var a := Added(r, base, block, isFresh);
    var size := |r.entries|;
    var shift := if isFresh then 0 else 1;
    ModAdd(r.next + 1, -1, size);
    ModUnique(r.next, 0, r.next, size);
    forall j | 0 <= j < a.used - 1 ensures a.entries[Slot(a, j)] == r.entries[Slot(r, j + shift)] {
      ModAdd(r.next + 1, j - a.used, size);
      ModDistinct(r.next, r.next - r.used + j + shift, size);
    }
    ModAdd(r.next + 1, -1, size);
  }

  lemma NextSlot(r: Ring, j: nat)
    requires 0 < |r.entries|
    ensures Slot(r, j + 1) == (Slot(r, j) + 1) % |r.entries|
  {
    ModAdd(r.next - r.used + j, 1, |r.entries|);
  }

  // Walking from the oldest slot meets `next` again only after all live entries.
  lemma WalkEnds(r: Ring, j: nat)
    requires Good(r) && 0 < j <= r.used
    ensures Slot(r, j) == r.next <==> j == r.used
  {
    ModUnique(r.next, 0, r.next, |r.entries|);
    if j < r.used {
      ModDistinct(r.next, r.next - r.used + j, |r.entries|);
    }
  }

  // The published slot is that of the newest live entry.
  lemma FrontSlot(r: Ring)
    requires Good(r) && 0 < r.used
    ensures 0 <= r.front < |r.entries| && r.front == Slot(r, r.used - 1)
    ensures r.entries[r.front] == Window(r)[r.used - 1]
  {
  }

  // The live entries belong to consecutive block numbers from `first`.
  ghost predicate Consecutive(r: Ring, first: nat)
    requires 0 < |r.entries|
  {
    forall j :: 0 <= j < r.used ==> Window(r)[j].base == Word((first + j) * BLOCK_SIZE)
  }

  /** The lookup of the wrapped index of true value i finds the entry of i's own block. */
  lemma LookupFinds(r: Ring, i: nat, first: nat)
    requires Good(r) && r.used * BLOCK_SIZE <= HALF
    requires first <= i / BLOCK_SIZE < first + r.used && Consecutive(r, first)
    ensures 0 <= r.front < |r.entries|
    ensures r.entries[LookupSlot(r.front, r.entries[r.front].base, Word(i), |r.entries|)]
         == Window(r)[i / BLOCK_SIZE - first]
  {
    FrontSlot(r);
    BackFromFront(r, first + r.used, r.front, first + r.used - 1, i);
    assert r.entries[r.front].base == Word((first + r.used - 1) * BLOCK_SIZE);
  }

  // In a ring whose newest block has number hi - 1: from the slot of live block f to the slot
  // of an index of an older live block.
  lemma BackFromFront(r: Ring, hi: nat, front: nat, f: nat, i: nat)
    requires Good(r) && r.used <= hi && r.used * BLOCK_SIZE <= HALF
    requires hi - r.used <= i / BLOCK_SIZE <= f < hi && front == Slot(r, f - (hi - r.used))
    ensures LookupSlot(front, Word(f * BLOCK_SIZE), Word(i), |r.entries|) == Slot(r, i / BLOCK_SIZE - (hi - r.used))
  {
    var n, size := i / BLOCK_SIZE, |r.entries|;
    StepsBack(front, f, i, size, r.used);
    ModAdd(r.next - hi + f, n - f, size);
  }

  // The lookup of an index fewer than `used` blocks behind block number f at the front.
  lemma StepsBack(front: nat, f: nat, i: nat, size: nat, used: nat)
    requires IsSize(size) && front < size && used * BLOCK_SIZE <= HALF
    requires f - used < i / BLOCK_SIZE <= f
    ensures LookupSlot(front, Word(f * BLOCK_SIZE), Word(i), size) == (front + (i / BLOCK_SIZE - f)) % size
  {
    LookupIsExact(front, f, i, size);
  }

  // ---------- The ring in place ----------

  class Index {
    var entries: array<Entry>
    var used: nat
    var next: nat
    var front: int

    ghost function View(): Ring
      reads this, entries
    {
      Ring(entries[..], used, next, front)
    }

    ghost predicate Valid()
      reads this, entries
    {
      Good(View())
    }

    // Made from the size half as large, with nothing to copy.
    constructor (half: nat)
      requires IsSize(half) && half < Pow2(60)
      ensures Valid() && used == 0 && front == -1 && entries.Length == 2 * half && fresh(entries)
    {
      entries := new Entry[half];
      used, next, front := 0, 0, -1;
      new;
      NewBlockIndex();
    }

    method NewBlockIndex()
      requires Valid() && entries.Length < Pow2(60)
      modifies this
      ensures Valid() && fresh(entries) && entries.Length == 2 * old(entries.Length)
      ensures View() == Grown(old(View()), entries[used..])
      ensures Window(View()) == old(Window(View()))
    {
      var bigger := new Entry[2 * entries.Length];
      var copied: int := CopyLive(bigger);
      GrownInPlace(bigger);
      front := copied - 1;
      next, entries := copied, bigger;
    }

    lemma GrownInPlace(bigger: array<Entry>)
      requires Valid() && entries.Length < Pow2(60)
      requires bigger.Length == 2 * entries.Length && bigger[..used] == Window(View())
      ensures Grown(View(), bigger[used..]) == Ring(bigger[..], used, used, used - 1)
      ensures Good(Grown(View(), bigger[used..])) && Window(Grown(View(), bigger[used..])) == Window(View())
    {
      assert bigger[..][..used] == bigger[..used] && bigger[..][used..] == bigger[used..];
      GrownFrom(View(), bigger[..]);
    }

    // The copying loop, if there is anything to copy: from the oldest live slot round to the
    // next free one.
    method CopyLive(bigger: array<Entry>) returns (j: nat)
      requires Valid() && bigger != entries && used <= bigger.Length
      modifies bigger
      ensures j == used && bigger[..used] == Window(View())
    {
      var size := entries.Length;
      ghost var r := View();
      ghost var w := Window(r);
      j := 0;
      if used == 0 {
        return;
      }
      var i := (next - used) % size;
      while j == 0 || i != next
        invariant 0 <= j <= used && View() == r
        invariant i == Slot(r, j) && 0 <= i < size
        invariant bigger[..j] == w[..j]
        decreases used - j
      {
        if 0 < j {
          WalkEnds(r, j);
        }
        assert entries[i] == w[j];
        bigger[j] := entries[i];
        assert bigger[..j + 1] == w[..j] + [w[j]];
        NextSlot(r, j);
        i := (i + 1) % size;
        j := j + 1;
      }
      WalkEnds(r, j);
    }

    method AddBlock(base: int, block: nat, isFresh: bool)
      requires Valid() && (if isFresh then used < entries.Length else 0 < used)
      modifies this, entries
      ensures Valid() && entries == old(entries)
      ensures View() == Added(old(View()), base, block, isFresh)
      ensures Window(View()) == (if isFresh then old(Window(View())) else old(Window(View()))[1..]) + [Entry(base, block)]
    {
      AddedExtendsWindow(View(), base, block, isFresh);
      if isFresh {
        used := used + 1;
      }
      entries[next] := Entry(base, block);
      front := next;
      next := (next + 1) % entries.Length;
    }

    /** The block of the wrapped index of true value i, when the live entries are those of the
        consecutive block numbers from `first`. */
    method Lookup(index: int, ghost i: nat, ghost first: nat) returns (block: nat)
      requires Valid() && index == Word(i) && used * BLOCK_SIZE <= HALF
      requires first <= i / BLOCK_SIZE < first + used && Consecutive(View(), first)
      ensures block == Window(View())[i / BLOCK_SIZE - first].block
    {
      LookupFinds(View(), i, first);
      block := entries[LookupSlot(front, entries[front].base, index, entries.Length)].block;
    }
  }
}
