/** Integer division as Rust computes it: the quotient is rounded toward zero. */
module Arithmetic {

  function TruncDiv(a: int, b: int): int
    requires b != 0
  {
    if a >= 0 then a / b else -((-a) / b)
  }

  function TruncMod(a: int, b: int): int
    requires b != 0
  {
    a - b * TruncDiv(a, b)
  }

  function Max(a: int, b: int): int {
    if a >= b then a else b
  }

  function Min(a: int, b: int): int {
    if a <= b then a else b
  }

  /** The only multiple of `d` in `[0, d)` is zero. */
  lemma SmallMultiple(d: int, t: int)
    requires d > 0 && 0 <= d * t < d
    ensures t == 0
  {
  }

  /** Division with remainder is unique. */
  lemma DivModUnique(x: int, d: int, q: int, r: int)
    requires d > 0 && x == d * q + r && 0 <= r < d
    ensures x / d == q && x % d == r
  {
    var q', r' := x / d, x % d;
    assert x == d * q' + r';
    if r' >= r {
      assert d * (q - q') == r' - r;
      SmallMultiple(d, q - q');
    } else {
      assert d * (q' - q) == r - r';
      SmallMultiple(d, q' - q);
    }
  }

  lemma MultipleModulo(d: int, k: int)
    requires d > 0
    ensures (d * k) % d == 0
  {
    DivModUnique(d * k, d, k, 0);
  }

  lemma ProductPositive(a: int, b: int)
    requires a > 0 && b > 0
    ensures a * b > 0
  {
  }

  lemma ProductMonotonic(c: int, x: int, y: int)
    requires c >= 0 && x <= y
    ensures c * x <= c * y
  {
    assert c * y - c * x == c * (y - x);
  }

  lemma Cancel(d: int, a: int, b: int)
    requires d > 0
    ensures d * a < d * b ==> a < b
  {
  }

  lemma FloorMonotonic(a: int, b: int, d: int)
    requires a <= b && d > 0
    ensures a / d <= b / d
  {
    assert d * (b / d + 1) == d * (b / d) + d;
    Cancel(d, a / d, b / d + 1);
  }

  lemma FloorExact(q: int, d: int)
    requires d > 0
    ensures (d * q) / d == q
  {
    DivModUnique(d * q, d, q, 0);
  }

  lemma FloorBrackets(x: int, d: int)
    requires d > 0
    ensures d * (x / d) <= x < d * (x / d) + d
  {
  }

  lemma OneMore(d: int, k: int)
    ensures d * (1 + k) == d + d * k
  {
  }
}
