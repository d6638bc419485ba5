/** Tables of funds that vest at given epochs, and the schedule along which a deposit vests. */
module VestingSchedule {
  import opened Arithmetic
  import opened Quantization

  datatype Fund = Fund(epoch: int, amount: int)

  datatype VestSpec = VestSpec(initialDelay: int, vestPeriod: int, stepDuration: int, quantization: int) {
    predicate Sound() {
      stepDuration > 0 && quantization > 0
    }
  }

  // ---- tables ----

  ghost function Total(funds: seq<Fund>): int {
    if funds == [] then 0 else funds[0].amount + Total(funds[1..])
  }

  /** What has vested before an epoch. */
  ghost function Before(funds: seq<Fund>, t: int): int {
    if funds == [] then 0
    else (if funds[0].epoch < t then funds[0].amount else 0) + Before(funds[1..], t)
  }

  /** Epochs rise by at least `gap`: zero for a sorted table, one for a strictly sorted one. */
  ghost predicate Rising(funds: seq<Fund>, gap: nat) {
    forall i, j :: 0 <= i < j < |funds| ==> funds[i].epoch + gap <= funds[j].epoch
  }

  /** No fund vests before `e`. */
  ghost predicate From(funds: seq<Fund>, e: int) {
    forall i :: 0 <= i < |funds| ==> funds[i].epoch >= e
  }

  ghost predicate NonNegative(funds: seq<Fund>) {
    forall i :: 0 <= i < |funds| ==> funds[i].amount >= 0
  }

  lemma {:induction false} BeforeBounds(funds: seq<Fund>, t: int, u: int)
    requires NonNegative(funds) && t <= u
    ensures 0 <= Before(funds, t) <= Before(funds, u) <= Total(funds)
  {
    if funds != [] {
      BeforeBounds(funds[1..], t, u);
    }
  }

  lemma {:induction false} NothingBefore(funds: seq<Fund>, t: int)
    requires From(funds, t)
    ensures Before(funds, t) == 0
  {
    if funds != [] {
      NothingBefore(funds[1..], t);
    }
  }

  // ---- joining two tables ----

  /** Joins two tables in epoch order, adding up funds that meet at the same epoch. */
  ghost function Merge(a: seq<Fund>, b: seq<Fund>): seq<Fund>
    decreases |a| + |b|
  {
    if a == [] then b
    else if b == [] then a
    else if a[0].epoch < b[0].epoch then [a[0]] + Merge(a[1..], b)
    else if a[0].epoch > b[0].epoch then [b[0]] + Merge(a, b[1..])
    else [Fund(a[0].epoch, a[0].amount + b[0].amount)] + Merge(a[1..], b[1..])
  }

  /** Joining conserves funds, and vests at every epoch what the two tables vest between them. */
  lemma {:induction false} MergeAddsUp(a: seq<Fund>, b: seq<Fund>, t: int)
    ensures Total(Merge(a, b)) == Total(a) + Total(b)
    ensures Before(Merge(a, b), t) == Before(a, t) + Before(b, t)
    decreases |a| + |b|
  {
    if a != [] && b != [] {
      var m := Merge(a, b);
      if a[0].epoch < b[0].epoch {
        MergeAddsUp(a[1..], b, t);
        assert m[1..] == Merge(a[1..], b);
      } else if a[0].epoch > b[0].epoch {
        MergeAddsUp(a, b[1..], t);
        assert m[1..] == Merge(a, b[1..]);
      } else {
        MergeAddsUp(a[1..], b[1..], t);
        assert m[1..] == Merge(a[1..], b[1..]);
      }
    }
  }

  /** No entry of a joined table comes before both tables' first. */
  lemma {:induction false} MergeFrom(a: seq<Fund>, b: seq<Fund>, e: int)
    requires From(a, e) && From(b, e)
    ensures From(Merge(a, b), e)
    decreases |a| + |b|
  {
    if a != [] && b != [] {
      if a[0].epoch < b[0].epoch {
        MergeFrom(a[1..], b, e);
      } else if a[0].epoch > b[0].epoch {
        MergeFrom(a, b[1..], e);
      } else {
        MergeFrom(a[1..], b[1..], e);
      }
    }
  }

  lemma {:induction false} MergeNonNegative(a: seq<Fund>, b: seq<Fund>)
    requires NonNegative(a) && NonNegative(b)
    ensures NonNegative(Merge(a, b))
    decreases |a| + |b|
  {
    if a != [] && b != [] {
      if a[0].epoch < b[0].epoch {
        MergeNonNegative(a[1..], b);
      } else if a[0].epoch > b[0].epoch {
        MergeNonNegative(a, b[1..]);
      } else {
        MergeNonNegative(a[1..], b[1..]);
      }
    }
  }

  lemma RisingMore(f: Fund, funds: seq<Fund>, gap: nat)
    requires Rising(funds, gap)
    requires From(funds, f.epoch + gap)
    ensures Rising([f] + funds, gap)
  {
  }

  /** A joined table is sorted, or strictly sorted, if both tables are. */
  lemma {:induction false} MergeRising(a: seq<Fund>, b: seq<Fund>, gap: nat)
    requires Rising(a, gap) && Rising(b, gap) && gap <= 1
    ensures Rising(Merge(a, b), gap)
    decreases |a| + |b|
  {
    if a != [] && b != [] {
      var m := Merge(a, b);
      var a', b' := if a[0].epoch <= b[0].epoch then a[1..] else a, if a[0].epoch >= b[0].epoch then b[1..] else b;
      MergeRising(a', b', gap);
      MergeFrom(a', b', m[0].epoch + gap);
      RisingMore(m[0], Merge(a', b'), gap);
    }
  }

  // ---- the schedule of a deposit ----

  /** The straight line: what of `sum` has vested `elapsed` epochs after the clock starts. */
  function Line(sum: int, period: int, elapsed: int): int {
    if 0 < elapsed < period then sum * elapsed / period
    else if elapsed >= period then sum
    else 0
  }

  /** The entries of a deposit that come after `epoch`, when `vested` of it has been scheduled. */
  ghost function Plan(sum: int, begin: int, offset: int, spec: VestSpec, epoch: int, vested: int): seq<Fund>
    requires spec.Sound()
    decreases if vested >= sum then 0 else 1 + Max(0, begin + spec.vestPeriod - epoch)
  {
    if vested >= sum then []
    else
      var next := epoch + spec.stepDuration;
      var vestEpoch := QuantizeUp(QuantSpec(spec.quantization, offset), next);
      var target := Line(sum, spec.vestPeriod, vestEpoch - begin);
      QuantizeUpIsNearest(QuantSpec(spec.quantization, offset), next);
      [Fund(vestEpoch, target - vested)] + Plan(sum, begin, offset, spec, next, target)
  }

  /** The whole schedule of a deposit. */
  ghost function Schedule(sum: int, begin: int, offset: int, spec: VestSpec): seq<Fund>
    requires spec.Sound()
  {
    Plan(sum, begin, offset, spec, begin, 0)
  }

  lemma LineMonotonic(sum: int, period: int, x: int, y: int)
    requires x <= y && sum >= 0
    ensures 0 <= Line(sum, period, x) <= Line(sum, period, y) <= sum
  {
    LineBounds(sum, period, x);
    LineBounds(sum, period, y);
    if 0 < x && y < period {
      ProductMonotonic(sum, x, y);
      FloorMonotonic(sum * x, sum * y, period);
    }
  }

  lemma LineBounds(sum: int, period: int, x: int)
    requires sum >= 0
    ensures 0 <= Line(sum, period, x) <= sum
    ensures 0 < x < period ==> Line(sum, period, x) * period <= sum * x
    ensures sum > 0 && x < period && period > 0 ==> Line(sum, period, x) < sum
  {
    if 0 < x < period {
      ProductMonotonic(sum, 0, x);
      ProductMonotonic(sum, x, period - 1);
      FloorBounds(sum * x, period, sum);
    }
  }

  lemma FloorBounds(n: int, d: int, c: int)
    requires d > 0 && c >= 0 && 0 <= n <= c * (d - 1)
    ensures 0 <= n / d && (n / d) * d <= n
    ensures n / d <= c && (c > 0 ==> n / d < c)
  {
    assert n == d * (n / d) + n % d;
    assert c * (d - 1) == d * c - c && d * (c + 1) == d * c + d;
    Cancel(d, -1, n / d);
    Cancel(d, n / d, c);
    Cancel(d, n / d, c + 1);
  }

  ghost function NextVest(offset: int, spec: VestSpec, epoch: int): int
    requires spec.Sound()
  {
    QuantizeUp(QuantSpec(spec.quantization, offset), epoch + spec.stepDuration)
  }

  lemma NextVestRises(offset: int, spec: VestSpec, epoch: int)
    requires spec.Sound()
    ensures epoch + spec.stepDuration <= NextVest(offset, spec, epoch) < epoch + spec.stepDuration + spec.quantization
    ensures NextVest(offset, spec, epoch) <= NextVest(offset, spec, epoch + spec.stepDuration)
    ensures spec.stepDuration >= spec.quantization ==>
              NextVest(offset, spec, epoch) < NextVest(offset, spec, epoch + spec.stepDuration)
  {
    hide QuantizeUp;
    var quant := QuantSpec(spec.quantization, offset);
    var next := epoch + spec.stepDuration;
    QuantizeUpIsNearest(quant, next);
    QuantizeUpMonotonic(quant, next, next + spec.stepDuration);
  }

  lemma PlanStep(sum: int, begin: int, offset: int, spec: VestSpec, epoch: int, vested: int)
    requires spec.Sound() && vested < sum
    ensures var e := NextVest(offset, spec, epoch);
            var target := Line(sum, spec.vestPeriod, e - begin);
            Plan(sum, begin, offset, spec, epoch, vested) ==
              [Fund(e, target - vested)] + Plan(sum, begin, offset, spec, epoch + spec.stepDuration, target)
  {
    hide Line, QuantizeUp;
  }

  /** How far a plan has to go; it is what makes the schedule end. */
  ghost function Steps(sum: int, begin: int, spec: VestSpec, epoch: int, vested: int): nat {
    if vested >= sum then 0 else 1 + Max(0, begin + spec.vestPeriod - epoch)
  }

  lemma StepsFall(sum: int, begin: int, offset: int, spec: VestSpec, epoch: int, vested: int)
    requires spec.Sound() && vested < sum
    ensures Steps(sum, begin, spec, epoch + spec.stepDuration,
                  Line(sum, spec.vestPeriod, NextVest(offset, spec, epoch) - begin))
          < Steps(sum, begin, spec, epoch, vested)
  {
    NextVestRises(offset, spec, epoch);
  }

  /** A schedule hands out exactly the deposit. */
  lemma {:induction false} PlanTotal(sum: int, begin: int, offset: int, spec: VestSpec, epoch: int, vested: int)
    requires spec.Sound() && vested >= 0
    ensures Total(Plan(sum, begin, offset, spec, epoch, vested)) == Max(sum - vested, 0)
    decreases Steps(sum, begin, spec, epoch, vested)
  {
    hide Plan, Line, Steps, NextVest;
    if vested >= sum {
      PlanEnds(sum, begin, offset, spec, epoch, vested);
    } else {
      var target := Line(sum, spec.vestPeriod, NextVest(offset, spec, epoch) - begin);
      LineBounds(sum, spec.vestPeriod, NextVest(offset, spec, epoch) - begin);
      PlanStep(sum, begin, offset, spec, epoch, vested);
      StepsFall(sum, begin, offset, spec, epoch, vested);
      PlanTotal(sum, begin, offset, spec, epoch + spec.stepDuration, target);
    }
  }

  lemma PlanEnds(sum: int, begin: int, offset: int, spec: VestSpec, epoch: int, vested: int)
    requires spec.Sound() && vested >= sum
    ensures Plan(sum, begin, offset, spec, epoch, vested) == []
  {
  }

  lemma {:induction false} PlanFrom(sum: int, begin: int, offset: int, spec: VestSpec, epoch: int, vested: int)
    requires spec.Sound()
    ensures From(Plan(sum, begin, offset, spec, epoch, vested), NextVest(offset, spec, epoch))
    decreases Steps(sum, begin, spec, epoch, vested)
  {
    hide Plan, Line, Steps, NextVest;
    if vested >= sum {
      PlanEnds(sum, begin, offset, spec, epoch, vested);
    } else {
      var target := Line(sum, spec.vestPeriod, NextVest(offset, spec, epoch) - begin);
      PlanStep(sum, begin, offset, spec, epoch, vested);
      StepsFall(sum, begin, offset, spec, epoch, vested);
      NextVestRises(offset, spec, epoch);
      PlanFrom(sum, begin, offset, spec, epoch + spec.stepDuration, target);
    }
  }

  lemma {:induction false} PlanNonNegative(sum: int, begin: int, offset: int, spec: VestSpec, epoch: int, vested: int)
    requires spec.Sound() && sum >= 0
    requires vested <= Line(sum, spec.vestPeriod, NextVest(offset, spec, epoch) - begin)
    ensures NonNegative(Plan(sum, begin, offset, spec, epoch, vested))
    decreases Steps(sum, begin, spec, epoch, vested)
  {
    hide Plan, Line, Steps, NextVest;
    if vested >= sum {
      PlanEnds(sum, begin, offset, spec, epoch, vested);
    } else {
      var e, next := NextVest(offset, spec, epoch), epoch + spec.stepDuration;
      NextVestRises(offset, spec, epoch);
      LineMonotonic(sum, spec.vestPeriod, e - begin, NextVest(offset, spec, next) - begin);
      PlanStep(sum, begin, offset, spec, epoch, vested);
      StepsFall(sum, begin, offset, spec, epoch, vested);
      PlanNonNegative(sum, begin, offset, spec, next, Line(sum, spec.vestPeriod, e - begin));
    }
  }

  /** A step as long as the quantum, or a period of at most two steps, keeps two entries from
      falling on the same epoch. */
  predicate Spread(spec: VestSpec) {
    spec.stepDuration >= spec.quantization || spec.vestPeriod <= 2 * spec.stepDuration
  }

  lemma {:induction false} PlanRising(
      sum: int, begin: int, offset: int, spec: VestSpec, epoch: int, vested: int, gap: nat)
    requires spec.Sound() && vested >= 0 && epoch >= begin && gap <= 1 && (gap == 1 ==> Spread(spec))
    ensures Rising(Plan(sum, begin, offset, spec, epoch, vested), gap)
    decreases Steps(sum, begin, spec, epoch, vested)
  {
    hide Plan, Steps, NextVest;
    if vested >= sum {
      PlanEnds(sum, begin, offset, spec, epoch, vested);
    } else {
      var e, next := NextVest(offset, spec, epoch), epoch + spec.stepDuration;
      var target := Line(sum, spec.vestPeriod, e - begin);
      LineBounds(sum, spec.vestPeriod, e - begin);
      PlanStep(sum, begin, offset, spec, epoch, vested);
      StepsFall(sum, begin, offset, spec, epoch, vested);
      NextVestRises(offset, spec, epoch);
      NextVestRises(offset, spec, next);
      PlanRising(sum, begin, offset, spec, next, target, gap);
      if target >= sum {
        PlanEnds(sum, begin, offset, spec, next, target);
      } else {
        PlanFrom(sum, begin, offset, spec, next, target);
      }
      RisingMore(Fund(e, target - vested), Plan(sum, begin, offset, spec, next, target), gap);
    }
  }

  /** Without that, a deposit of any size whose clock starts two steps before a quantised epoch has
      its first two entries there. */
  lemma TwoEntriesMeet(sum: int, begin: int, offset: int, spec: VestSpec)
    requires spec.Sound() && !Spread(spec) && sum > 0
    requires OnGrid(QuantSpec(spec.quantization, offset), begin + 2 * spec.stepDuration)
    ensures var plan := Schedule(sum, begin, offset, spec);
            |plan| >= 2 && plan[0].epoch == plan[1].epoch && !Rising(plan, 1)
  {
    hide Plan, QuantizeUp, OnGrid, Line;
    var quant := QuantSpec(spec.quantization, offset);
    var both := begin + 2 * spec.stepDuration;
    QuantizeFixed(quant, both);
    QuantizeUpIsNearest(quant, begin + spec.stepDuration);
    QuantizeUpMonotonic(quant, begin + spec.stepDuration, both);
    var e := NextVest(offset, spec, begin);
    assert e == both by {
      if e < both {
        GridIsSparse(quant, e, both);
      }
    }
    LineBounds(sum, spec.vestPeriod, e - begin);
    PlanStep(sum, begin, offset, spec, begin, 0);
    var target := Line(sum, spec.vestPeriod, e - begin);
    PlanStep(sum, begin, offset, spec, begin + spec.stepDuration, target);
    var plan := Schedule(sum, begin, offset, spec);
    assert plan[1].epoch == NextVest(offset, spec, begin + spec.stepDuration) == both;
  }

  /** Every schedule under a spec is strictly sorted if and only if the spec spreads its entries. */
  lemma ScheduleStrictIff(spec: VestSpec)
    requires spec.Sound()
    ensures Spread(spec) <==> forall sum, begin, offset :: Rising(Schedule(sum, begin, offset, spec), 1)
  {
    hide Plan, OnGrid, Rising;
    if Spread(spec) {
      forall sum, begin, offset
        ensures Rising(Schedule(sum, begin, offset, spec), 1)
      {
        PlanRising(sum, begin, offset, spec, begin, 0, 1);
      }
    } else {
      OnGridMultiple(QuantSpec(spec.quantization, 2 * spec.stepDuration), 2 * spec.stepDuration, 0);
      TwoEntriesMeet(1, 0, 2 * spec.stepDuration, spec);
      assert !Rising(Schedule(1, 0, 2 * spec.stepDuration, spec), 1);
    }
  }

  lemma PlanLater(sum: int, begin: int, offset: int, spec: VestSpec, epoch: int, vested: int, t: int)
    requires spec.Sound() && t < NextVest(offset, spec, epoch)
    ensures Before(Plan(sum, begin, offset, spec, epoch, vested), t + 1) == 0
  {
    hide Plan, NextVest, Before;
    PlanFrom(sum, begin, offset, spec, epoch, vested);
    NothingBefore(Plan(sum, begin, offset, spec, epoch, vested), t + 1);
  }

  /** A deposit vests along the line: never ahead of it, and never as far behind as a step and a
      quantum together. `last` is the entry that brought it to `vested`. */
  lemma {:induction false} PlanAlongLine(
      sum: int, begin: int, offset: int, spec: VestSpec, epoch: int, vested: int, last: int, t: int)
    requires spec.Sound() && sum >= 0 && begin <= epoch <= last <= t && last <= NextVest(offset, spec, epoch)
    requires vested == Line(sum, spec.vestPeriod, last - begin)
    ensures var given := vested + Before(Plan(sum, begin, offset, spec, epoch, vested), t + 1);
            && given <= Line(sum, spec.vestPeriod, t - begin)
            && given >= Line(sum, spec.vestPeriod, t - begin - (spec.stepDuration + spec.quantization - 1))
    decreases Steps(sum, begin, spec, epoch, vested)
  {
    hide Plan, Line, Steps, NextVest;
    var lag := spec.stepDuration + spec.quantization - 1;
    LineMonotonic(sum, spec.vestPeriod, last - begin, t - begin);
    LineMonotonic(sum, spec.vestPeriod, t - begin - lag, t - begin);
    if vested >= sum {
      PlanEnds(sum, begin, offset, spec, epoch, vested);
    } else {
      var e, next := NextVest(offset, spec, epoch), epoch + spec.stepDuration;
      var target := Line(sum, spec.vestPeriod, e - begin);
      NextVestRises(offset, spec, epoch);
      if t < e {
        PlanLater(sum, begin, offset, spec, epoch, vested, t);
        LineMonotonic(sum, spec.vestPeriod, t - begin - lag, last - begin);
      } else {
        PlanStep(sum, begin, offset, spec, epoch, vested);
        StepsFall(sum, begin, offset, spec, epoch, vested);
        assert begin <= next <= e <= t && e <= NextVest(offset, spec, next);
        PlanAlongLine(sum, begin, offset, spec, next, target, e, t);
      }
    }
  }

  /** The same of a whole schedule. */
  lemma ScheduleAlongLine(sum: int, begin: int, offset: int, spec: VestSpec, t: int)
    requires spec.Sound() && sum >= 0 && spec.vestPeriod > 0 && t >= begin
    ensures var given := Before(Schedule(sum, begin, offset, spec), t + 1);
            && given <= Line(sum, spec.vestPeriod, t - begin)
            && given >= Line(sum, spec.vestPeriod, t - begin - (spec.stepDuration + spec.quantization - 1))
  {
    hide Plan;
    NextVestRises(offset, spec, begin);
    PlanAlongLine(sum, begin, offset, spec, begin, 0, begin, t);
  }

  // ---- the schedule exactly ----

  /** The part of `sum` that the straight line has vested, rounded down. */
  ghost predicate OnLine(vested: int, sum: int, period: int, elapsed: int) {
    if elapsed <= 0 then vested == 0
    else if elapsed >= period then vested == sum
    else vested * period <= sum * elapsed < (vested + 1) * period
  }

  lemma LineMeans(sum: int, period: int, elapsed: int)
    ensures elapsed > 0 ==> OnLine(Line(sum, period, elapsed), sum, period, elapsed)
    ensures elapsed <= 0 && period > 0 ==> OnLine(Line(sum, period, elapsed), sum, period, elapsed)
  {
    if 0 < elapsed < period {
      var q := sum * elapsed / period;
      FloorBrackets(sum * elapsed, period);
      assert q * period == period * q && (q + 1) * period == period * q + period;
    }
  }

  lemma {:induction false} PlanExact(sum: int, begin: int, offset: int, spec: VestSpec, epoch: int, vested: int, k: nat)
    requires spec.Sound() && k < |Plan(sum, begin, offset, spec, epoch, vested)| && epoch >= begin
    ensures var plan := Plan(sum, begin, offset, spec, epoch, vested);
            && plan[k].epoch == QuantizeUp(QuantSpec(spec.quantization, offset), epoch + (k + 1) * spec.stepDuration)
            && OnLine(vested + Total(plan[..k + 1]), sum, spec.vestPeriod, plan[k].epoch - begin)
            && vested + Total(plan[..k]) < sum
    decreases k
  {
    hide QuantizeUp, Line, OnLine;
    var plan := Plan(sum, begin, offset, spec, epoch, vested);
    var quant := QuantSpec(spec.quantization, offset);
    var next := epoch + spec.stepDuration;
    var at := QuantizeUp(quant, next);
    var target := Line(sum, spec.vestPeriod, at - begin);
    var rest := Plan(sum, begin, offset, spec, next, target);
    QuantizeUpIsNearest(quant, next);
    assert plan == [Fund(at, target - vested)] + rest;
    if k == 0 {
      LineMeans(sum, spec.vestPeriod, at - begin);
      assert plan[..1][1..] == [];
      assert plan[..0] == [];
    } else {
      PlanExact(sum, begin, offset, spec, next, target, k - 1);
      assert plan[..k + 1][1..] == rest[..k] && plan[..k][1..] == rest[..k - 1];
      assert next + k * spec.stepDuration == epoch + (k + 1) * spec.stepDuration;
    }
  }

  /** The schedule of a deposit: its entries fall on the steps after the clock starts, each quantised; with each
      the amount vested is what the line says at that epoch, rounded down; and it stops as soon as that is all. */
  lemma ScheduleExact(sum: int, begin: int, offset: int, spec: VestSpec, k: nat)
    requires spec.Sound() && k < |Schedule(sum, begin, offset, spec)|
    ensures var funds := Schedule(sum, begin, offset, spec);
            && funds[k].epoch == QuantizeUp(QuantSpec(spec.quantization, offset), begin + (k + 1) * spec.stepDuration)
            && OnLine(Total(funds[..k + 1]), sum, spec.vestPeriod, funds[k].epoch - begin)
            && Total(funds[..k]) < sum
  {
    PlanExact(sum, begin, offset, spec, begin, 0, k);
  }
}
