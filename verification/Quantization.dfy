/** Rounding epochs to a period with an offset. */
module Quantization {
  import opened Arithmetic

  datatype QuantSpec = QuantSpec(unit: int, offset: int)

  /** Rounds up to the next epoch congruent to the offset. Both the remainder of the offset and the
      division truncate toward zero, so a negative dividend needs no rounding up. */
  function QuantizeUp(q: QuantSpec, epoch: int): int
    requires q.unit > 0
  {
    var offset := TruncMod(q.offset, q.unit);
    var remainder := TruncMod(epoch - offset, q.unit);
    var quotient := TruncDiv(epoch - offset, q.unit);
    if remainder == 0 || epoch - offset < 0 then
      q.unit * quotient + offset
    else
      q.unit * (quotient + 1) + offset
  }

  function QuantizeDown(q: QuantSpec, epoch: int): int
    requires q.unit > 0
  {
    var next := QuantizeUp(q, epoch);
    if epoch == next then next else next - q.unit
  }

  predicate OnGrid(q: QuantSpec, epoch: int)
    requires q.unit > 0
  {
    (epoch - q.offset) % q.unit == 0
  }

  lemma OnGridMultiple(q: QuantSpec, epoch: int, k: int)
    requires q.unit > 0 && epoch - q.offset == q.unit * k
    ensures OnGrid(q, epoch)
  {
    MultipleModulo(q.unit, k);
  }

  /** What truncating division leaves, for a dividend of either sign. */
  lemma TruncBounds(x: int, d: int)
    requires d > 0
    ensures x == d * TruncDiv(x, d) + TruncMod(x, d)
    ensures x >= 0 ==> 0 <= TruncMod(x, d) < d
    ensures x < 0 ==> -d < TruncMod(x, d) <= 0
  {
  }

  /** `QuantizeUp` gives the nearest epoch on the grid that is not before, for all integers. */
  lemma QuantizeUpIsNearest(q: QuantSpec, epoch: int)
    requires q.unit > 0
    ensures epoch <= QuantizeUp(q, epoch) < epoch + q.unit
    ensures OnGrid(q, QuantizeUp(q, epoch))
  {
    hide OnGrid, TruncDiv, TruncMod;
    var o := TruncMod(q.offset, q.unit);
    var x := epoch - o;
    TruncBounds(q.offset, q.unit);
    TruncBounds(x, q.unit);
    var k := if TruncMod(x, q.unit) == 0 || x < 0 then TruncDiv(x, q.unit) else TruncDiv(x, q.unit) + 1;
    var r := QuantizeUp(q, epoch);
    assert r == q.unit * k + o;
    assert q.unit * (TruncDiv(x, q.unit) + 1) == q.unit * TruncDiv(x, q.unit) + q.unit;
    var m := TruncDiv(q.offset, q.unit);
    assert r - q.offset == q.unit * k - q.unit * m == q.unit * (k - m);
    OnGridMultiple(q, r, k - m);
  }

  /** Two epochs on the grid less than a unit apart are the same. */
  lemma GridIsSparse(q: QuantSpec, a: int, b: int)
    requires q.unit > 0 && OnGrid(q, a) && OnGrid(q, b) && a <= b < a + q.unit
    ensures a == b
  {
    var i, j := (a - q.offset) / q.unit, (b - q.offset) / q.unit;
    assert a - q.offset == q.unit * i && b - q.offset == q.unit * j;
    assert b - a == q.unit * (j - i);
    SmallMultiple(q.unit, j - i);
  }

  lemma GridStep(q: QuantSpec, a: int)
    requires q.unit > 0 && OnGrid(q, a)
    ensures OnGrid(q, a - q.unit) && OnGrid(q, a + q.unit)
  {
    var i := (a - q.offset) / q.unit;
    assert a - q.offset == q.unit * i;
    assert a - q.unit - q.offset == q.unit * (i - 1) && a + q.unit - q.offset == q.unit * (i + 1);
    OnGridMultiple(q, a - q.unit, i - 1);
    OnGridMultiple(q, a + q.unit, i + 1);
  }

  /** `QuantizeDown` gives the nearest epoch on the grid that is not after, for all integers. */
  lemma QuantizeDownIsNearest(q: QuantSpec, epoch: int)
    requires q.unit > 0
    ensures epoch - q.unit < QuantizeDown(q, epoch) <= epoch
    ensures OnGrid(q, QuantizeDown(q, epoch))
  {
    hide OnGrid, QuantizeUp;
    QuantizeUpIsNearest(q, epoch);
    GridStep(q, QuantizeUp(q, epoch));
  }

  /** Epochs on the grid are exactly the fixed points of both roundings. */
  lemma QuantizeFixed(q: QuantSpec, epoch: int)
    requires q.unit > 0
    ensures OnGrid(q, epoch) <==> QuantizeUp(q, epoch) == epoch
    ensures OnGrid(q, epoch) <==> QuantizeDown(q, epoch) == epoch
  {
    hide OnGrid, QuantizeUp;
    QuantizeUpIsNearest(q, epoch);
    if OnGrid(q, epoch) {
      GridIsSparse(q, epoch, QuantizeUp(q, epoch));
    }
  }

  /** A later epoch is never rounded to an earlier one, and one a unit later is rounded a unit later. */
  lemma QuantizeUpMonotonic(q: QuantSpec, a: int, b: int)
    requires q.unit > 0 && a <= b
    ensures QuantizeUp(q, a) <= QuantizeUp(q, b)
    ensures a + q.unit <= b ==> QuantizeUp(q, a) < QuantizeUp(q, b)
  {
    hide OnGrid, QuantizeUp;
    QuantizeUpIsNearest(q, a);
    QuantizeUpIsNearest(q, b);
    if QuantizeUp(q, b) < QuantizeUp(q, a) {
      GridIsSparse(q, QuantizeUp(q, b), QuantizeUp(q, a));
    }
    if a + q.unit <= b && QuantizeUp(q, a) == QuantizeUp(q, b) {
      assert false;
    }
  }
}
