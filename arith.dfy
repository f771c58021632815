/** Facts about multiplication and floor division on naturals that the
    solver does not find on its own. Each division fact is reduced, through
    `DivBounds`, to a fact about products of plain numbers. */
module Arith {

  lemma MulLe(x: int, y: int, z: nat)
    requires x <= y
    ensures x * z <= y * z
  {
  }

  lemma MulLeLeft(x: nat, y: nat, z: nat)
    requires x <= y
    ensures z * x <= z * y
  {
  }

  lemma MulAdd(x: int, y: int, d: int)
    ensures (x + y) * d == x * d + y * d
  {
  }

  lemma MulCancel(a: int, b: int, d: nat)
    requires d > 0 && a * d < b * d
    ensures a < b
  {
    if b <= a {
      MulLe(b, a, d);
    }
  }

  /** Floor division brackets its dividend. */
  lemma DivBounds(x: int, d: nat)
    requires d > 0
    ensures (x / d) * d <= x < (x / d + 1) * d
  {
  }

  lemma QuotientsOrdered(qx: int, qy: int, x: int, y: int, d: nat)
    requires d > 0 && qx * d <= x <= y < (qy + 1) * d
    ensures qx <= qy
  {
    if qx > qy {
      MulLe(qy + 1, qx, d);
    }
  }

  lemma DivMono(x: nat, y: nat, d: nat)
    requires d > 0 && x <= y
    ensures x / d <= y / d
  {
    DivBounds(x, d);
    DivBounds(y, d);
    QuotientsOrdered(x / d, y / d, x, y, d);
  }

  lemma QuotientExact(q: int, a: int, d: nat)
    requires d > 0 && q * d <= a * d < (q + 1) * d
    ensures q == a
  {
    MulCancel(q, a + 1, d);
    MulCancel(a, q + 1, d);
  }

  lemma DivOfMul(a: nat, d: nat)
    requires d > 0
    ensures a * d / d == a
  {
    DivBounds(a * d, d);
    QuotientExact(a * d / d, a, d);
  }

  lemma QuotientsAdd(qa: int, qb: int, qs: int, a: int, b: int, d: nat)
    requires d > 0 && qa * d <= a && qb * d <= b && a + b < (qs + 1) * d
    ensures qa + qb <= qs
  {
    MulAdd(qa, qb, d);
    if qa + qb > qs {
      MulLe(qs + 1, qa + qb, d);
    }
  }

  lemma FloorAddAtMost(a: nat, b: nat, d: nat)
    requires d > 0
    ensures a / d + b / d <= (a + b) / d
  {
    DivBounds(a, d);
    DivBounds(b, d);
    DivBounds(a + b, d);
    QuotientsAdd(a / d, b / d, (a + b) / d, a, b, d);
  }

  /** A fraction t / d (t <= d) of an amount is at most the amount. */
  lemma ScaledAtMost(amount: nat, t: nat, d: nat)
    requires d > 0 && t <= d
    ensures amount * t / d <= amount
  {
    MulLeLeft(t, d, amount);
    DivMono(amount * t, amount * d, d);
    DivOfMul(amount, d);
  }

  /** A larger fraction of the same amount is at least as large. */
  lemma ScaledMono(amount: nat, t1: nat, t2: nat, d: nat)
    requires d > 0 && t1 <= t2
    ensures amount * t1 / d <= amount * t2 / d
  {
    MulLeLeft(t1, t2, amount);
    DivMono(amount * t1, amount * t2, d);
  }

  lemma NestedQuotients(q: int, r: int, a: int, b: nat, c: nat)
    requires q * b <= a < (q + 1) * b && r * c <= q < (r + 1) * c
    ensures r * c * b <= a < (r + 1) * c * b
  {
    MulLe(r * c, q, b);
    MulLe(q + 1, (r + 1) * c, b);
  }

  /** floor(floor(a / b) / c) is floor(a / (b * c)), stated as bounds. */
  lemma FloorTwice(a: nat, b: nat, c: nat)
    requires b > 0 && c > 0
    ensures (a / b) / c * c * b <= a < ((a / b) / c + 1) * c * b
  {
    DivBounds(a, b);
    DivBounds(a / b, c);
    NestedQuotients(a / b, a / b / c, a, b, c);
  }
}
