/** The few facts about products and quotients that the exact arithmetic rests on. */
module DivMod {
  /** A quotient is the one number whose multiple leaves a proper remainder. */
  lemma QuotientIs(x: int, d: int, q: int, r: int)
    requires 0 <= r < d && x == q * d + r
    ensures x / d == q && x % d == r
  {
    var e := x / d - q;
    assert x == (x / d) * d + x % d;
    assert e * d == r - x % d;
    if e >= 1 {
      MulMono(1, e, d);
    } else if e <= -1 {
      MulMono(e, -1, d);
    }
  }

  lemma MulMono(a: int, b: int, c: int)
    requires a <= b && 0 <= c
    ensures a * c <= b * c
  {
  }

  /** Whole multiples of the divisor come out of a quotient unchanged. */
  lemma DivAdd(k: int, m: int, d: int)
    requires d > 0
    ensures (k * d + m) / d == k + m / d
  {
    assert m == (m / d) * d + m % d;
    assert k * d + m == (k + m / d) * d + m % d;
    QuotientIs(k * d + m, d, k + m / d, m % d);
  }

  lemma DivMono(a: int, b: int, d: int)
    requires a <= b && d > 0
    ensures a / d <= b / d
  {
    assert a == (a / d) * d + a % d && b == (b / d) * d + b % d;
    if b / d + 1 <= a / d {
      MulMono(b / d + 1, a / d, d);
    }
  }

  lemma DivBounds(a: int, d: int)
    requires d > 0
    ensures (a / d) * d <= a < (a / d) * d + d
  {
  }

  lemma MulDiv(k: int, d: int)
    requires d > 0
    ensures (k * d) / d == k
  {
    QuotientIs(k * d, d, k, 0);
  }

  lemma QuotientAtLeast(q: int, x: int, d: int)
    requires d > 0
    ensures q <= x / d <==> q * d <= x
  {
    DivBounds(x, d);
    if q <= x / d {
      MulMono(q, x / d, d);
    } else {
      MulMono(x / d + 1, q, d);
    }
  }

  lemma RealMulStrict(a: real, b: real, c: real)
    requires a < b && 0.0 < c
    ensures a * c < b * c
  {
  }

  lemma RatioMono(a: real, b: real, w: real)
    requires 0.0 <= a <= b && 0.0 < w
    ensures 0.0 <= a / w <= b / w
  {
    var x, y := a / w, b / w;
    assert x * w == a && y * w == b;
    if y < x {
      RealMulStrict(y, x, w);
    }
    if x < 0.0 {
      RealMulStrict(x, 0.0, w);
    }
  }

  lemma RatioIs(x: real, y: real, z: real)
    requires y != 0.0 && x == z * y
    ensures x / y == z
  {
  }

  lemma RatioAdd(a: real, b: real, c: real)
    requires c != 0.0
    ensures a / c + b / c == (a + b) / c
  {
    RatioIs(a + b, c, a / c + b / c);
  }
}
