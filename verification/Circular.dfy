/** Unsigned 64-bit index arithmetic and the queue's wrap-around comparison. */
module Circular {
  const WORD: int := 0x1_0000_0000_0000_0000
  const HALF: int := 0x8000_0000_0000_0000

  /** The word a true integer is stored as. */
  function Word(x: int): (w: int)
    ensures 0 <= w < WORD
  {
    x % WORD
  }

  function CircularLess(a: int, b: int): bool {
    Word(a - b) > HALF
  }

  lemma WordShift(x: int, k: int)
    ensures Word(x + k * WORD) == Word(x)
  {
    assert (x + k * WORD) % WORD == x % WORD;
  }

  lemma WordOfWords(x: int, y: int)
    ensures Word(Word(x) - Word(y)) == Word(x - y)
    ensures Word(Word(x) + Word(y)) == Word(x + y)
    ensures Word(Word(x) + y) == Word(x + y)
    ensures Word(Word(x) - y) == Word(x - y)
  {
    var p, q := x / WORD, y / WORD;
    assert x == p * WORD + Word(x) && y == q * WORD + Word(y);
    WordShift(Word(x) - Word(y), p - q);
    WordShift(Word(x) + Word(y), p + q);
    WordShift(Word(x) + y, p);
    WordShift(Word(x) - y, p);
  }

  /** On words of true values less than one turn apart, the comparison means `<` exactly
      when the difference lies in (-2^63, 2^63]. */
  lemma CircularLessExact(x: int, y: int)
    requires -WORD < x - y < WORD
    ensures (CircularLess(Word(x), Word(y)) <==> x < y) <==> -HALF < x - y <= HALF
  {
    WordOfWords(x, y);
    if x < y {
      WordShift(x - y, 1);
    }
  }
}
