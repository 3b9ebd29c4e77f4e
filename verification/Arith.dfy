/** The little non-linear arithmetic the byte-level proofs lean on. */
module Arith {

  lemma Scale(a: int, b: int, p: int)
    requires a <= b && p >= 0
    ensures a * p <= b * p
  {
  }

  lemma Distribute(a: int, b: int, p: int)
    ensures (a + b) * p == a * p + b * p && p * (a + b) == p * a + p * b
    ensures (a - b) * p == a * p - b * p && p * (a - b) == p * a - p * b
  {
  }

  lemma Associate(a: int, b: int, c: int)
    ensures (a * b) * c == a * (b * c)
  {
  }

  lemma Exchange(a: int, b: int, c: int)
    ensures a * (b * c) == b * (a * c)
  {
  }

  lemma Cancel(g: int, a: int, b: int)
    requires g > 0 && g * a == g * b
    ensures a == b
  {
  }

  lemma Signs(g: int, u: int, a: int)
    requires g > 0 && g * u == a
    ensures a > 0 <==> u > 0
  {
  }

  lemma SmallMultiple(m: int, d: int)
    requires m > 0 && -m < m * d < m
    ensures d == 0
  {
    if d > 0 { Scale(1, d, m); }
    if d < 0 { Scale(d, -1, m); }
  }

  /** A quotient and a remainder in range are the quotient and the remainder. */
  lemma DivUnique(w: int, m: int, q: int, r: int)
    requires m > 0 && w == m * q + r && 0 <= r < m
    ensures w / m == q && w % m == r
  {
    Distribute(q, w / m, m);
    SmallMultiple(m, q - w / m);
  }

  lemma DivDiv(w: int, p: int, q: int)
    requires p > 0 && q > 0
    ensures p * q > 0 && w / p / q == w / (p * q)
  {
    var a := w / p;
    var b := a / q;
    var s, r := a - q * b, w - p * a;
    Distribute(q * b, s, p);
    Associate(p, q, b);
    Scale(s, q - 1, p);
    Scale(0, s, p);
    Scale(1, q, p);
    Distribute(q, 1, p);
    DivUnique(w, p * q, b, p * s + r);
  }

  lemma ModSplit(y: int, m: int)
    requires m > 0
    ensures y % (2 * m) == 2 * (y / 2 % m) + y % 2
  {
    var z := y / 2;
    Associate(2, m, z / m);
    DivUnique(y, 2 * m, z / m, 2 * (z % m) + y % 2);
  }

  lemma ModShift(x: int, t: int, m: int)
    requires m > 0
    ensures (x + t) % m == (x % m + t) % m
  {
    var y := x % m + t;
    Distribute(x / m, y / m, m);
    DivUnique(x + t, m, x / m + y / m, y % m);
  }

  /** Adding whole multiples of the modulus changes nothing. */
  lemma ModMultiple(a: int, k: int, m: int)
    requires m > 0
    ensures (a + m * k) % m == a % m
  {
    Distribute(a / m, k, m);
    DivUnique(a + m * k, m, a / m + k, a % m);
  }
}
