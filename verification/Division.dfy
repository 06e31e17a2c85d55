/** Quotients and remainders of offset arithmetic. */
module Division {

  lemma MulGrows(x: int, b: int)
    requires x >= 1 && b >= 0
    ensures x * b >= b
  {
    assert x * b == (x - 1) * b + b;
    MulNat(x - 1, b);
  }

  lemma MulNat(x: int, b: int)
    requires x >= 0 && b >= 0
    ensures x * b >= 0
  {
  }

  lemma MulMonotone(x: int, y: int, b: int)
    requires x <= y && b >= 0
    ensures x * b <= y * b
  {
    assert (y - x) * b == y * b - x * b;
    MulNat(y - x, b);
  }

  lemma Scale(a: int, b: int, c: nat)
    requires a <= b
    ensures c * a <= c * b && a * c <= b * c
  {
    MulMonotone(a, b, c);
    assert a * c == c * a && b * c == c * b;
  }

  /** A number is written as quotient and remainder in one way only. */
  lemma DivUnique(a: int, b: int, q: int, r: int)
    requires b > 0 && a == q * b + r && 0 <= r < b
    ensures a / b == q && a % b == r
  {
    var p := a / b;
    assert a == p * b + a % b;
    assert (q - p) * b == q * b - p * b;
    if q > p { MulGrows(q - p, b); }
    assert (p - q) * b == p * b - q * b;
    if p > q { MulGrows(p - q, b); }
  }

  lemma ModStep(a: int, b: int)
    requires b > 0
    ensures (a + b) / b == a / b + 1 && (a + b) % b == a % b
  {
    DivUnique(a + b, b, a / b + 1, a % b);
  }

  /** Two numbers with one remainder lie at least one divisor apart. */
  lemma SameRemainder(b: int, x: int, y: int)
    requires b > 0 && x < y && x % b == y % b
    ensures x <= y - b && (y - b) % b == x % b
  {
    var p, q := x / b, y / b;
    assert x == p * b + x % b && y == q * b + y % b;
    assert (q - p) * b == q * b - p * b;
    if q <= p { MulMonotone(q, p, b); } else { MulGrows(q - p, b); }
    DivUnique(y - b, b, q - 1, y % b);
  }
}
