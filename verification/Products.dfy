/** Products and quotients of variables, each fact on its own: the solver is then spared them
    in larger proofs. */
module Products {
  lemma {:induction false} NonNegative(a: nat, b: nat)
    ensures 0 <= a * b
    decreases a
  {
    if a > 0 {
      NonNegative(a - 1, b);
      Distribute(a - 1, 1, b);
    }
  }

  lemma Distribute(a: int, b: int, c: int)
    ensures (a + b) * c == a * c + b * c
  {
  }

  lemma OneMore(a: int, c: int)
    ensures (a + 1) * c == a * c + c
  {
  }

  lemma Associates(a: int, b: int, c: int)
    ensures (a * b) * c == a * (b * c)
  {
  }

  lemma Grows(a: int, b: int, c: nat)
    requires a <= b
    ensures a * c <= b * c
  {
    NonNegative(b - a, c);
    Distribute(b - a, a, c);
  }

  lemma Smaller(a: int, b: int, c: nat)
    requires a * c < b * c
    ensures a < b
  {
    if b <= a {
      Grows(b, a, c);
    }
  }

  lemma QuotientBounds(x: int, y: nat)
    requires 0 < y
    ensures (x / y) * y <= x < (x / y) * y + y
    ensures (x / y) * y == x <==> x % y == 0
  {
    assert x == (x / y) * y + x % y;
  }

  /** A quotient is not below e exactly when the dividend is not below e times the divisor. */
  lemma QuotientNotBelow(x: nat, y: nat, e: nat)
    requires 0 < y
    ensures e <= x / y <==> e * y <= x
  {
    var q := x / y;
    QuotientBounds(x, y);
    if e <= q {
      Grows(e, q, y);
    } else {
      OneMore(q, y);
      Grows(q + 1, e, y);
    }
  }
}
