/** The calendar of deadlines: when each is open, and when it may be changed, disputed or compacted. */
module DeadlineCalculus {
  import opened Arithmetic
  import opened Quantization

  datatype Policy = Policy(
    deadlines: int, period: int, window: int, lookback: int, faultCutoff: int, disputeWindow: int)
  {
    predicate Sound() {
      deadlines > 0 && window > 0 && period == deadlines * window
    }
  }

  datatype DeadlineInfo = DeadlineInfo(
    now: int, periodStart: int, index: nat, open: int, close: int, challenge: int, faultCutoff: int)
  {
    predicate IsOpen() {
      open <= now < close
    }

    predicate HasElapsed() {
      now >= close
    }
  }

  function NewInfo(p: Policy, start: int, index: nat, now: int): DeadlineInfo {
    if index < p.deadlines then
      var open := start + index * p.window;
      DeadlineInfo(now, start, index, open, open + p.window, open - p.lookback, open - p.faultCutoff)
    else
      var after := start + p.period;
      DeadlineInfo(now, start, index, after, after, after, 0)
  }

  /** The next instance of the deadline that has not elapsed. */
  function NextNotElapsed(p: Policy, d: DeadlineInfo): DeadlineInfo
    requires p.period != 0
  {
    if !d.HasElapsed() then d
    else
      var deltaPeriods := 1 + TruncDiv(d.now - d.close, p.period);
      NewInfo(p, d.periodStart + p.period * deltaPeriods, d.index, d.now)
  }

  predicate IsMutable(p: Policy, start: int, index: nat, now: int)
    requires p.period != 0
  {
    now < NextNotElapsed(p, NewInfo(p, start, index, now)).open - p.window
  }

  predicate CanDispute(p: Policy, start: int, index: nat, now: int)
    requires p.period != 0
  {
    start <= now &&
    var d := NextNotElapsed(p, NewInfo(p, start, index, now));
    !d.IsOpen() && now < d.close - p.period + p.disputeWindow
  }

  predicate CanCompact(p: Policy, start: int, index: nat, now: int)
    requires p.period != 0
  {
    IsMutable(p, start, index, now) && !CanDispute(p, start, index, now)
  }

  /** The period start and deadline that an epoch falls in, from any epoch a period may start at. */
  function InfoAt(p: Policy, seed: int, now: int): DeadlineInfo
    requires p.Sound()
  {
    var start := QuantizeDown(QuantSpec(p.period, seed), now);
    IndexInRange(p, seed, now);
    NewInfo(p, start, TruncDiv(now - start, p.window), now)
  }

  /** The period start as a new miner computes it. */
  function ProvingPeriodStart(p: Policy, now: int, offset: int): int
    requires p.period != 0
  {
    var modulus := TruncMod(now, p.period);
    var progress := if modulus >= offset then modulus - offset else p.period - (offset - modulus);
    now - progress
  }

  // ---- open deadlines ----

  lemma PeriodPositive(p: Policy)
    requires p.Sound()
    ensures p.period > 0
  {
    ProductPositive(p.deadlines, p.window);
  }

  lemma IndexInRange(p: Policy, seed: int, now: int)
    requires p.Sound()
    ensures p.period > 0
    ensures var start := QuantizeDown(QuantSpec(p.period, seed), now);
            start <= now < start + p.period && 0 <= TruncDiv(now - start, p.window) < p.deadlines
  {
    hide QuantizeDown, OnGrid;
    PeriodPositive(p);
    QuantizeDownIsNearest(QuantSpec(p.period, seed), now);
    WindowOf(p, now - QuantizeDown(QuantSpec(p.period, seed), now));
  }

  lemma WindowOf(p: Policy, x: int)
    requires p.Sound() && 0 <= x < p.period
    ensures var i := x / p.window;
            0 <= i < p.deadlines && i * p.window <= x < i * p.window + p.window
  {
    var i := x / p.window;
    assert x == p.window * i + x % p.window;
    Cancel(p.window, i, p.deadlines);
    Cancel(p.window, -1, i);
  }

  /** In a period, the deadline whose window holds the epoch is open and no other is. */
  lemma ExactlyOneOpen(p: Policy, start: int, now: int, index: nat)
    requires p.Sound() && start <= now < start + p.period
    ensures 0 <= (now - start) / p.window < p.deadlines
    ensures NewInfo(p, start, index, now).IsOpen() <==> index == (now - start) / p.window
  {
    WindowOf(p, now - start);
    var i := (now - start) / p.window;
    if index < p.deadlines && NewInfo(p, start, index, now).IsOpen() {
      assert p.window * (index + 1) == index * p.window + p.window;
      assert p.window * (i + 1) == i * p.window + p.window;
      Cancel(p.window, i, index + 1);
      Cancel(p.window, index, i + 1);
    }
  }

  /** The deadline computed from an offset is the one open at the epoch, whatever the epoch. */
  lemma InfoAtIsOpen(p: Policy, seed: int, now: int)
    requires p.Sound() && p.period > 0
    ensures var d := InfoAt(p, seed, now);
            && d.IsOpen() && d.index < p.deadlines && OnGrid(QuantSpec(p.period, seed), d.periodStart)
            && d.periodStart <= now < d.periodStart + p.period
            && forall i: nat :: NewInfo(p, d.periodStart, i, now).IsOpen() <==> i == d.index
  {
    hide OnGrid, QuantizeDown;
    IndexInRange(p, seed, now);
    QuantizeDownIsNearest(QuantSpec(p.period, seed), now);
    var start := QuantizeDown(QuantSpec(p.period, seed), now);
    forall i: nat
      ensures NewInfo(p, start, i, now).IsOpen() <==> i == (now - start) / p.window
    {
      ExactlyOneOpen(p, start, now, i);
    }
    ExactlyOneOpen(p, start, now, (now - start) / p.window);
  }

  /** The two ways of computing a period start agree exactly when the epoch's remainder is not so
      negative that a period has to be added twice. They always do from epoch zero on. */
  lemma PeriodStartsAgree(p: Policy, now: int, offset: int)
    requires p.period > 0 && 0 <= offset < p.period
    ensures ProvingPeriodStart(p, now, offset) == QuantizeDown(QuantSpec(p.period, offset), now)
       <==> TruncMod(now, p.period) >= offset - p.period
    ensures now >= 0 ==> TruncMod(now, p.period) >= offset - p.period
  {
    hide QuantizeDown, TruncDiv, TruncMod, OnGrid;
    var quant := QuantSpec(p.period, offset);
    var start, down := ProvingPeriodStart(p, now, offset), QuantizeDown(quant, now);
    TruncBounds(now, p.period);
    QuantizeDownIsNearest(quant, now);
    var k := TruncDiv(now, p.period);
    var modulus := TruncMod(now, p.period);
    if modulus >= offset {
      OnGridMultiple(quant, start, k);
    } else {
      assert start - offset == p.period * k - p.period == p.period * (k - 1);
      OnGridMultiple(quant, start, k - 1);
    }
    if modulus >= offset - p.period {
      if start <= down {
        GridIsSparse(quant, start, down);
      } else {
        GridIsSparse(quant, down, start);
      }
    }
  }

  lemma PeriodStartsDiffer()
    ensures var p := Policy(2, 10, 5, 0, 0, 0);
            p.Sound() && ProvingPeriodStart(p, -9, 5) != QuantizeDown(QuantSpec(10, 5), -9)
  {
    PeriodStartsAgree(Policy(2, 10, 5, 0, 0, 0), -9, 5);
  }

  // ---- mutable, disputable, compactable ----

  /** The next instance is the one whose close is ahead by at most a period. */
  lemma NextInstance(p: Policy, start: int, index: nat, now: int)
    requires p.Sound() && index < p.deadlines && start <= now && p.period > 0
    ensures var d := NextNotElapsed(p, NewInfo(p, start, index, now));
            && d.close - p.period <= now < d.close && d.open == d.close - p.window && d.index == index && d.now == now
            && (d.open - (start + index * p.window)) % p.period == 0 && d.periodStart == d.open - index * p.window
            && d.challenge == d.open - p.lookback && d.faultCutoff == d.open - p.faultCutoff
  {
    hide TruncDiv;
    var first := NewInfo(p, start, index, now);
    if first.HasElapsed() {
      var gap := now - first.close;
      var k := TruncDiv(gap, p.period);
      TruncIsFloor(gap, p.period);
      FloorBrackets(gap, p.period);
      OneMore(p.period, k);
      MultipleModulo(p.period, 1 + k);
    } else {
      WindowsFit(p, index);
      MultipleModulo(p.period, 0);
    }
  }

  lemma TruncIsFloor(x: int, d: int)
    requires x >= 0 && d > 0
    ensures TruncDiv(x, d) == x / d
  {
  }

  lemma WindowsFit(p: Policy, index: nat)
    requires p.Sound() && index < p.deadlines
    ensures index * p.window + p.window <= p.period
  {
    ProductMonotonic(p.window, index + 1, p.deadlines);
  }

  /** A deadline can be changed exactly until one window before it next opens, and disputed exactly during
      the dispute window after its last close, as long as it is not open again. Compaction is available
      exactly from the end of the dispute window until one window before the next opening, so never while
      proofs can be submitted or disputed. */
  lemma CompactionWindow(p: Policy, start: int, index: nat, now: int)
    requires p.Sound() && index < p.deadlines && start <= now && p.period > 0
    ensures var d := NextNotElapsed(p, NewInfo(p, start, index, now));
            var lastClose := d.close - p.period;
            && (CanCompact(p, start, index, now) <==> lastClose + p.disputeWindow <= now < d.open - p.window)
            && (CanCompact(p, start, index, now) ==> !d.IsOpen() && !CanDispute(p, start, index, now))
            && (CanDispute(p, start, index, now) <==> now < lastClose + p.disputeWindow && now < d.open)
            && (IsMutable(p, start, index, now) <==> now < d.open - p.window)
            && (IsMutable(p, start, index, now) ==> !d.IsOpen())
  {
    hide NextNotElapsed;
    NextInstance(p, start, index, now);
  }

  /** Before the first period starts nothing can be disputed, and a deadline may be compacted until one
      window before it first opens. */
  lemma CompactionBeforeStart(p: Policy, start: int, index: nat, now: int)
    requires p.Sound() && index < p.deadlines && now < start && p.period > 0
    ensures !CanDispute(p, start, index, now)
    ensures CanCompact(p, start, index, now) <==> now < start + index * p.window - p.window
    ensures IsMutable(p, start, index, now) <==> now < start + index * p.window - p.window
  {
    assert index * p.window >= 0;
  }
}
