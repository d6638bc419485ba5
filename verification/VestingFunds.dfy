/** A miner's vesting funds: a table kept as an inline head and a stored tail, and the balance it locks. */
module VestingFunds {
  import opened Arithmetic
  import opened Quantization
  import opened VestingSchedule
  import opened Wrappers

  datatype Inner = Inner(head: Fund, tail: seq<Fund>)

  /** The table as it is stored. */
  function Stored(inner: Option<Inner>): seq<Fund> {
    match inner
    case None => []
    case Some(v) => [v.head] + v.tail
  }

  /** The table as it is read: a head drawn down to nothing is skipped. */
  function Loaded(inner: Option<Inner>): seq<Fund> {
    match inner
    case None => []
    case Some(v) => if v.head.amount > 0 then [v.head] + v.tail else v.tail
  }

  function Saved(funds: seq<Fund>): Option<Inner> {
    if funds == [] then None else Some(Inner(funds[0], funds[1..]))
  }

  ghost predicate Ordered(inner: Option<Inner>) {
    Rising(Stored(inner), 0) && NonNegative(Stored(inner))
  }

  /** Skipping an empty head changes no amount. */
  lemma LoadedIsStored(inner: Option<Inner>, t: int)
    requires Ordered(inner)
    ensures Before(Loaded(inner), t) == Before(Stored(inner), t) && Total(Loaded(inner)) == Total(Stored(inner))
    ensures Rising(Loaded(inner), 0) && NonNegative(Loaded(inner))
  {
    if inner.Some? {
      assert Stored(inner)[1..] == inner.value.tail;
    }
  }

  lemma SavedIsStored(funds: seq<Fund>)
    ensures Stored(Saved(funds)) == funds
  {
  }

  // ---- taking funds out ----

  /** What is left once everything before `now` and then up to `target` more has been taken, earliest first. */
  ghost function Drained(funds: seq<Fund>, now: int, target: int): seq<Fund> {
    if funds == [] then []
    else if funds[0].epoch < now then Drained(funds[1..], now, target)
    else if funds[0].amount < target then Drained(funds[1..], now, target - funds[0].amount)
    else [Fund(funds[0].epoch, funds[0].amount - target)] + funds[1..]
  }

  /** Draining takes from the earliest funds: by any later epoch the table is short of exactly what was
      taken, down to nothing. */
  lemma {:induction false} DrainedEarliestFirst(funds: seq<Fund>, now: int, target: int, t: int)
    requires Rising(funds, 0) && NonNegative(funds) && target >= 0
    ensures var left := Drained(funds, now, target);
            && Before(left, t) == (if t <= now then 0 else Max(0, Before(funds, t) - Before(funds, now) - target))
            && Total(left) == Max(0, Total(funds) - Before(funds, now) - target)
    decreases funds
  {
    if funds != [] {
      var f, rest := funds[0], funds[1..];
      if f.epoch < now {
        DrainedEarliestFirst(rest, now, target, t);
      } else {
        NothingBefore(funds, now);
        NothingBefore(rest, now);
        BeforeBounds(rest, t, t);
        if t <= f.epoch {
          NothingBefore(rest, t);
        }
        if f.amount < target {
          DrainedEarliestFirst(rest, now, target - f.amount, t);
        } else {
          assert Drained(funds, now, target)[1..] == rest;
        }
      }
    }
  }

  lemma {:induction false} DrainedOrdered(funds: seq<Fund>, now: int, target: int, gap: nat)
    requires Rising(funds, gap) && NonNegative(funds)
    ensures Rising(Drained(funds, now, target), gap) && NonNegative(Drained(funds, now, target))
    decreases funds
  {
    if funds != [] {
      if funds[0].epoch < now {
        DrainedOrdered(funds[1..], now, target, gap);
      } else if funds[0].amount < target {
        DrainedOrdered(funds[1..], now, target - funds[0].amount, gap);
      }
    }
  }

  /** Taking from the head alone is allowed when it has not vested and holds enough. */
  predicate HeadSuffices(v: Inner, now: int, target: int) {
    v.head.epoch >= now && v.head.amount >= target
  }

  function FromHead(v: Inner, target: int): Inner {
    v.(head := Fund(v.head.epoch, v.head.amount - target))
  }

  /** The shortcut through the head leaves the same loaded table as the long way, except when nothing
      is asked of an empty head that an empty fund follows: the long way then drops that fund. */
  lemma ShortcutAgrees(v: Inner, now: int, target: int)
    requires Ordered(Some(v)) && target >= 0 && HeadSuffices(v, now, target)
    ensures Loaded(Some(FromHead(v, target))) == Loaded(Saved(Drained(Loaded(Some(v)), now, target)))
       <==> !(target == 0 && v.head.amount == 0 && v.tail != [] && v.tail[0].amount == 0)
  {
    var long := Drained(Loaded(Some(v)), now, target);
    if v.head.amount > 0 {
      assert Loaded(Some(v))[1..] == v.tail;
      assert long == [FromHead(v, target).head] + v.tail;
    } else if v.tail != [] {
      var s := Stored(Some(v));
      assert s[0].epoch <= s[1].epoch && s[1] == v.tail[0] && s[1].amount >= 0;
      assert long == v.tail == [v.tail[0]] + v.tail[1..];
    }
  }

  lemma ShortcutCanDiffer()
    ensures var v := Inner(Fund(5, 0), [Fund(6, 0), Fund(7, 1)]);
            && Ordered(Some(v)) && HeadSuffices(v, 5, 0)
            && Loaded(Some(FromHead(v, 0))) != Loaded(Saved(Drained(Loaded(Some(v)), 5, 0)))
  {
    var v := Inner(Fund(5, 0), [Fund(6, 0), Fund(7, 1)]);
    ShortcutAgrees(v, 5, 0);
  }

  /** The shortcut takes what the long way takes, too. */
  lemma FromHeadEarliestFirst(v: Inner, now: int, target: int, t: int)
    requires Ordered(Some(v)) && target >= 0 && HeadSuffices(v, now, target)
    ensures Ordered(Some(FromHead(v, target)))
    ensures var was, left := Stored(Some(v)), Stored(Some(FromHead(v, target)));
            && Before(left, t) == (if t <= now then 0 else Max(0, Before(was, t) - Before(was, now) - target))
            && Total(left) == Max(0, Total(was) - Before(was, now) - target)
            && Before(was, now) == 0 && target <= Total(was)
  {
    var was := Stored(Some(v));
    assert Drained(was, now, target) == Stored(Some(FromHead(v, target)));
    DrainedEarliestFirst(was, now, target, t);
    DrainedOrdered(was, now, target, 0);
    NothingBefore(was, now);
    assert was[1..] == v.tail;
    BeforeBounds(v.tail, now, now);
  }

  class VestingFunds {
    var inner: Option<Inner>

    constructor ()
      ensures inner == None && Ordered(inner)
    {
      inner := None;
    }

    method Load() returns (funds: seq<Fund>)
      ensures funds == Loaded(inner)
    {
      if inner == None {
        return [];
      }
      funds := inner.value.tail;
      if inner.value.head.amount > 0 {
        funds := [inner.value.head] + funds;
      }
    }

    method Save(funds: seq<Fund>)
      modifies this
      ensures Stored(inner) == funds && inner == Saved(funds)
    {
      if funds == [] {
        inner := None;
        return;
      }
      inner := Some(Inner(funds[0], funds[1..]));
    }

    predicate CanVest(now: int)
      reads this
    {
      inner.Some? && inner.value.head.epoch < now
    }

    /** Splits a sorted table where it stops having vested. */
    method TakeVested(funds: seq<Fund>, now: int) returns (unlocked: int, rest: seq<Fund>)
      requires Rising(funds, 0) && NonNegative(funds)
      ensures unlocked == Before(funds, now) && rest == Drained(funds, now, 0)
    {
      unlocked := 0;
      var i := 0;
      while i < |funds| && funds[i].epoch < now
        invariant 0 <= i <= |funds|
        invariant unlocked + Before(funds[i..], now) == Before(funds, now)
        invariant Drained(funds[i..], now, 0) == Drained(funds, now, 0)
      {
        unlocked := unlocked + funds[i].amount;
        i := i + 1;
        assert funds[i - 1..][1..] == funds[i..];
      }
      rest := funds[i..];
      NothingBefore(rest, now);
      assert rest != [] ==> rest == [rest[0]] + rest[1..];
    }

    /** Unlocks exactly what has vested; when the head says there is nothing, there is nothing. */
    method UnlockVestedFunds(now: int) returns (unlocked: int)
      requires Ordered(inner)
      modifies this
      ensures Ordered(inner) && (Rising(Stored(old(inner)), 1) ==> Rising(Stored(inner), 1))
      ensures unlocked == Before(Loaded(old(inner)), now)
      ensures Total(Loaded(inner)) == Total(Loaded(old(inner))) - unlocked
      ensures forall t :: Before(Loaded(inner), t)
                       == if t <= now then 0 else Before(Loaded(old(inner)), t) - unlocked
    {
      ghost var was := Stored(inner);
      StoredAll(inner);
      if !CanVest(now) {
        NothingVested(inner, now);
        return 0;
      }
      var funds := Load();
      var rest;
      unlocked, rest := TakeVested(funds, now);
      DrainedAll(funds, now, 0);
      LoadedRising(inner);
      Save(rest);
      StoredAll(inner);
    }

    /** The schedule of a deposit, entry by entry, until all of it has been handed out. */
    method NewFunds(sum: int, begin: int, offset: int, spec: VestSpec) returns (funds: seq<Fund>)
      requires spec.Sound()
      ensures funds == Schedule(sum, begin, offset, spec)
    {
      hide Plan, Line, QuantizeUp;
      funds := [];
      var vestedSoFar := 0;
      var epoch := begin;
      while vestedSoFar < sum
        invariant epoch >= begin && vestedSoFar >= 0
        invariant funds + Plan(sum, begin, offset, spec, epoch, vestedSoFar) == Schedule(sum, begin, offset, spec)
        decreases Steps(sum, begin, spec, epoch, vestedSoFar)
      {
        PlanStep(sum, begin, offset, spec, epoch, vestedSoFar);
        StepsFall(sum, begin, offset, spec, epoch, vestedSoFar);
        epoch := epoch + spec.stepDuration;
        var vestEpoch := QuantizeUp(QuantSpec(spec.quantization, offset), epoch);
        QuantizeUpIsNearest(QuantSpec(spec.quantization, offset), epoch);
        var elapsed := vestEpoch - begin;
        var target := if elapsed < spec.vestPeriod then sum * elapsed / spec.vestPeriod else sum;
        LineIs(sum, spec.vestPeriod, elapsed);
        LineBounds(sum, spec.vestPeriod, elapsed);
        funds := funds + [Fund(vestEpoch, target - vestedSoFar)];
        vestedSoFar := target;
      }
      PlanEnds(sum, begin, offset, spec, epoch, vestedSoFar);
    }

    method MergeFunds(a: seq<Fund>, b: seq<Fund>) returns (m: seq<Fund>)
      ensures m == Merge(a, b)
    {
      hide Merge;
      m := [];
      var i, j := 0, 0;
      assert a[0..] == a && b[0..] == b;
      while i < |a| && j < |b|
        invariant 0 <= i <= |a| && 0 <= j <= |b|
        invariant m + Merge(a[i..], b[j..]) == Merge(a, b)
        decreases |a| + |b| - i - j
      {
        MergeStep(a, b, i, j);
        var next;
        if a[i].epoch < b[j].epoch {
          next := a[i];
          i := i + 1;
        } else if a[i].epoch > b[j].epoch {
          next := b[j];
          j := j + 1;
        } else {
          next := Fund(a[i].epoch, a[i].amount + b[j].amount);
          i, j := i + 1, j + 1;
        }
        Regroup(m, next, Merge(a[i..], b[j..]));
        m := m + [next];
      }
      MergeEnds(a[i..], b[j..]);
      m := m + (a[i..] + b[j..]);
    }

    /** Adds a deposit along its schedule and unlocks what has vested. Nothing is lost: the table and
        what is unlocked hold the old table and the deposit, epoch by epoch. */
    method AddLockedFunds(now: int, sum: int, provingPeriodStart: int, spec: VestSpec) returns (unlocked: int)
      requires Ordered(inner) && spec.Sound()
      modifies this
      ensures Ordered(inner) && (Rising(Stored(old(inner)), 1) && Spread(spec) ==> Rising(Stored(inner), 1))
      ensures var plan := Schedule(sum, now + spec.initialDelay, provingPeriodStart, spec);
              && unlocked == Before(Loaded(old(inner)), now) + Before(plan, now)
              && forall t :: Before(Loaded(inner), t)
                          == if t <= now then 0 else Before(Loaded(old(inner)), t) + Before(plan, t) - unlocked
      ensures Total(Loaded(inner)) + unlocked == Total(Loaded(old(inner))) + Max(sum, 0)
      ensures spec.initialDelay + spec.stepDuration >= 0 ==> unlocked == Before(Loaded(old(inner)), now)
    {
      hide Schedule, Merge, Rising, NonNegative, Drained, Before, Total, Loaded;
      var vestBegin := now + spec.initialDelay;
      var plan := NewFunds(sum, vestBegin, provingPeriodStart, spec);
      var existing := Load();
      var combined := MergeFunds(existing, plan);
      StoredAll(inner);
      LoadedRising(inner);
      ScheduleSound(sum, vestBegin, provingPeriodStart, spec, now);
      MergeAll(existing, plan);
      var rest;
      unlocked, rest := TakeVested(combined, now);
      DrainedAll(combined, now, 0);
      Save(rest);
      StoredAll(inner);
    }

    /** The long way: goes through the table, unlocking what has vested and then up to `target` more. */
    method UnlockFromTable(now: int, target: int) returns (vested: int, unvested: int)
      requires Ordered(inner) && target >= 0
      modifies this
      ensures inner == Saved(Drained(Loaded(old(inner)), now, target))
      ensures vested == Before(Loaded(old(inner)), now)
      ensures unvested == Min(target, Total(Loaded(old(inner))) - vested)
    {
      hide Drained, Before, Total, Ordered, Loaded, Stored, Saved;
      var funds := Load();
      StoredAll(inner);
      assert funds[0..] == funds;
      var wanted, i := target, 0;
      vested, unvested := 0, 0;
      while i < |funds|
        invariant 0 <= i <= |funds| && wanted >= 0
        invariant Drained(funds[i..], now, wanted) == Drained(funds, now, target)
        invariant vested + Before(funds[i..], now) == Before(funds, now)
        invariant unvested + wanted == target
        invariant unvested + vested + Total(funds[i..]) == Total(funds)
      {
        var vf := funds[i];
        DrainHead(funds, i, now, wanted);
        if vf.epoch < now {
          vested := vested + vf.amount;
          i := i + 1;
          continue;
        }
        if vf.amount < wanted {
          wanted := wanted - vf.amount;
          unvested := unvested + vf.amount;
          i := i + 1;
          continue;
        }
        unvested := unvested + wanted;
        Save([Fund(vf.epoch, vf.amount - wanted)] + funds[i + 1..]);
        return;
      }
      DrainNone(now, wanted);
      assert funds[i..] == [];
      Save([]);
    }

    /** Unlocks everything that has vested, then up to `target` of the rest, earliest first. */
    method UnlockVestedAndUnvestedFunds(now: int, target: int) returns (vested: int, unvested: int)
      requires Ordered(inner) && target >= 0
      modifies this
      ensures Ordered(inner) && (Rising(Stored(old(inner)), 1) ==> Rising(Stored(inner), 1))
      ensures vested == Before(Loaded(old(inner)), now)
      ensures unvested == Min(target, Total(Loaded(old(inner))) - vested)
      ensures Total(Loaded(inner)) == Total(Loaded(old(inner))) - vested - unvested
      ensures forall t :: Before(Loaded(inner), t)
                       == if t <= now then 0 else Max(0, Before(Loaded(old(inner)), t) - vested - target)
    {
      hide Drained, Before, Total, Rising, NonNegative, Loaded;
      StoredAll(inner);
      LoadedRising(inner);
      if inner == None {
        NothingStored();
        return 0, 0;
      }
      var v := inner.value;
      if v.head.epoch >= now && v.head.amount >= target {
        FromHeadAll(v, now, target);
        inner := Some(v.(head := Fund(v.head.epoch, v.head.amount - target)));
        StoredAll(inner);
        return 0, target;
      }
      DrainedAll(Loaded(inner), now, target);
      vested, unvested := UnlockFromTable(now, target);
      SavedIsStored(Drained(Loaded(old(inner)), now, target));
      StoredAll(inner);
    }
  }

  lemma TotalAtLeast(funds: seq<Fund>)
    requires funds != [] && NonNegative(funds)
    ensures Total(funds) >= funds[0].amount
  {
    BeforeBounds(funds[1..], 0, 0);
  }

  /** What becomes of the first of the funds still in the table. */
  lemma DrainHead(funds: seq<Fund>, i: nat, now: int, wanted: int)
    requires i < |funds| && Rising(funds, 0) && NonNegative(funds) && wanted >= 0
    ensures var left, rest, f := funds[i..], funds[i + 1..], funds[i];
            && Total(left) == f.amount + Total(rest)
            && (f.epoch < now ==>
                  && Drained(left, now, wanted) == Drained(rest, now, wanted)
                  && Before(left, now) == f.amount + Before(rest, now))
            && (f.epoch >= now ==> Before(left, now) == Before(rest, now) == 0 && Total(left) >= f.amount)
            && (f.epoch >= now && f.amount < wanted ==>
                  Drained(left, now, wanted) == Drained(rest, now, wanted - f.amount))
            && (f.epoch >= now && f.amount >= wanted ==>
                  Drained(left, now, wanted) == [Fund(f.epoch, f.amount - wanted)] + rest)
  {
    assert funds[i..][0] == funds[i] && funds[i..][1..] == funds[i + 1..];
    if funds[i].epoch >= now {
      NothingBefore(funds[i..], now);
      NothingBefore(funds[i + 1..], now);
      TotalAtLeast(funds[i..]);
    }
  }

  lemma DrainNone(now: int, wanted: int)
    ensures Drained([], now, wanted) == [] && Before([], now) == 0 && Total([]) == 0
  {
  }

  lemma NothingStored()
    ensures Total(Loaded(None)) == 0 && forall t :: Before(Loaded(None), t) == 0
  {
  }

  lemma FromHeadRising(v: Inner, target: int)
    ensures Rising(Stored(Some(v)), 1) ==> Rising(Stored(Some(FromHead(v, target))), 1)
  {
    var was, left := Stored(Some(v)), Stored(Some(FromHead(v, target)));
    assert |was| == |left| && forall i :: 0 <= i < |was| ==> was[i].epoch == left[i].epoch;
  }

  lemma FromHeadAll(v: Inner, now: int, target: int)
    requires Ordered(Some(v)) && target >= 0 && HeadSuffices(v, now, target)
    ensures Ordered(Some(FromHead(v, target)))
    ensures Rising(Stored(Some(v)), 1) ==> Rising(Stored(Some(FromHead(v, target))), 1)
    ensures var was, left := Stored(Some(v)), Stored(Some(FromHead(v, target)));
            && Before(was, now) == 0 && target <= Total(was) && Total(left) == Total(was) - target
            && forall t :: Before(left, t) == if t <= now then 0 else Max(0, Before(was, t) - target)
  {
    hide Before, Total, Rising, NonNegative, Stored, FromHead, HeadSuffices;
    FromHeadEarliestFirst(v, now, target, now);
    FromHeadRising(v, target);
    forall t
      ensures Before(Stored(Some(FromHead(v, target))), t)
           == if t <= now then 0 else Max(0, Before(Stored(Some(v)), t) - target)
    {
      FromHeadEarliestFirst(v, now, target, t);
    }
  }

  lemma MergeStep(a: seq<Fund>, b: seq<Fund>, i: nat, j: nat)
    requires i < |a| && j < |b|
    ensures Merge(a[i..], b[j..]) ==
              if a[i].epoch < b[j].epoch then [a[i]] + Merge(a[i + 1..], b[j..])
              else if a[i].epoch > b[j].epoch then [b[j]] + Merge(a[i..], b[j + 1..])
              else [Fund(a[i].epoch, a[i].amount + b[j].amount)] + Merge(a[i + 1..], b[j + 1..])
  {
    assert a[i..][1..] == a[i + 1..] && b[j..][1..] == b[j + 1..];
  }

  lemma Regroup(m: seq<Fund>, f: Fund, rest: seq<Fund>)
    ensures m + ([f] + rest) == m + [f] + rest
  {
  }

  lemma MergeEnds(a: seq<Fund>, b: seq<Fund>)
    requires a == [] || b == []
    ensures Merge(a, b) == a + b
  {
  }

  lemma LineIs(sum: int, period: int, elapsed: int)
    requires elapsed > 0
    ensures Line(sum, period, elapsed) == if elapsed < period then sum * elapsed / period else sum
  {
  }

  lemma StoredAll(inner: Option<Inner>)
    requires Ordered(inner)
    ensures Rising(Loaded(inner), 0) && NonNegative(Loaded(inner))
    ensures Total(Loaded(inner)) == Total(Stored(inner))
    ensures forall t :: Before(Loaded(inner), t) == Before(Stored(inner), t)
  {
    hide Loaded, Stored, Ordered;
    LoadedIsStored(inner, 0);
    forall t
      ensures Before(Loaded(inner), t) == Before(Stored(inner), t)
    {
      LoadedIsStored(inner, t);
    }
  }

  lemma LoadedRising(inner: Option<Inner>)
    ensures Rising(Stored(inner), 1) ==> Rising(Loaded(inner), 1)
  {
    if inner.Some? {
      assert Stored(inner)[1..] == inner.value.tail;
    }
  }

  /** The check of the head never misses anything that has vested. */
  lemma NothingVested(inner: Option<Inner>, now: int)
    requires Ordered(inner) && (inner.None? || inner.value.head.epoch >= now)
    ensures forall t | t <= now :: Before(Loaded(inner), t) == 0
  {
    StoredAll(inner);
    forall t | t <= now
      ensures Before(Stored(inner), t) == 0
    {
      NothingBefore(Stored(inner), t);
    }
  }

  lemma DrainedAll(funds: seq<Fund>, now: int, target: int)
    requires Rising(funds, 0) && NonNegative(funds) && target >= 0
    ensures var left := Drained(funds, now, target);
            && Rising(left, 0) && NonNegative(left) && (Rising(funds, 1) ==> Rising(left, 1))
            && Total(left) == Max(0, Total(funds) - Before(funds, now) - target)
            && (forall t :: Before(left, t) ==
                  if t <= now then 0 else Max(0, Before(funds, t) - Before(funds, now) - target))
            && (forall t | t > now :: 0 <= Before(funds, now) <= Before(funds, t) <= Total(funds))
            && 0 <= Before(funds, now) <= Total(funds)
  {
    hide Drained, Before, Total, Rising, NonNegative;
    DrainedEarliestFirst(funds, now, target, now);
    DrainedOrdered(funds, now, target, 0);
    if Rising(funds, 1) {
      DrainedOrdered(funds, now, target, 1);
    }
    forall t
      ensures Before(Drained(funds, now, target), t)
           == if t <= now then 0 else Max(0, Before(funds, t) - Before(funds, now) - target)
    {
      DrainedEarliestFirst(funds, now, target, t);
    }
    forall t | t > now
      ensures 0 <= Before(funds, now) <= Before(funds, t) <= Total(funds)
    {
      BeforeBounds(funds, now, t);
    }
    BeforeBounds(funds, now, now);
  }

  lemma MergeAll(a: seq<Fund>, b: seq<Fund>)
    requires Rising(a, 0) && Rising(b, 0) && NonNegative(a) && NonNegative(b)
    ensures var m := Merge(a, b);
            && Rising(m, 0) && NonNegative(m) && (Rising(a, 1) && Rising(b, 1) ==> Rising(m, 1))
            && Total(m) == Total(a) + Total(b)
            && forall t :: Before(m, t) == Before(a, t) + Before(b, t)
  {
    hide Merge, Before, Total, Rising, NonNegative;
    MergeAddsUp(a, b, 0);
    MergeNonNegative(a, b);
    MergeRising(a, b, 0);
    if Rising(a, 1) && Rising(b, 1) {
      MergeRising(a, b, 1);
    }
    forall t
      ensures Before(Merge(a, b), t) == Before(a, t) + Before(b, t)
    {
      MergeAddsUp(a, b, t);
    }
  }

  /** A schedule is a sound table of exactly the deposit, and none of it vests before its first step. */
  lemma ScheduleSound(sum: int, begin: int, offset: int, spec: VestSpec, now: int)
    requires spec.Sound()
    ensures var plan := Schedule(sum, begin, offset, spec);
            && Rising(plan, 0) && NonNegative(plan) && (Spread(spec) ==> Rising(plan, 1))
            && Total(plan) == Max(sum, 0)
            && (now <= begin + spec.stepDuration ==> Before(plan, now) == 0)
  {
    hide Plan, NextVest, Line, Rising, NonNegative, Before, Total;
    PlanTotal(sum, begin, offset, spec, begin, 0);
    PlanRising(sum, begin, offset, spec, begin, 0, 0);
    if Spread(spec) {
      PlanRising(sum, begin, offset, spec, begin, 0, 1);
    }
    PlanFrom(sum, begin, offset, spec, begin, 0);
    NextVestRises(offset, spec, begin);
    if now <= begin + spec.stepDuration {
      NothingBefore(Schedule(sum, begin, offset, spec), now);
    }
    if sum >= 0 {
      LineBounds(sum, spec.vestPeriod, NextVest(offset, spec, begin) - begin);
      PlanNonNegative(sum, begin, offset, spec, begin, 0);
    } else {
      PlanEnds(sum, begin, offset, spec, begin, 0);
      NothingNegative();
    }
  }

  lemma NothingNegative()
    ensures NonNegative([])
  {
  }

  /** A miner's locked balance next to its vesting table. */
  class MinerFunds {
    var lockedFunds: int
    const vestingFunds: VestingFunds

    /** The locked balance is what the table holds. */
    ghost predicate Valid()
      reads this, vestingFunds
    {
      Ordered(vestingFunds.inner) && lockedFunds == Total(Loaded(vestingFunds.inner))
    }

    constructor ()
      ensures Valid() && fresh(vestingFunds) && lockedFunds == 0
    {
      lockedFunds := 0;
      vestingFunds := new VestingFunds();
    }

    /** A negative deposit is refused. No other fails, unless the spec lets it vest as it is made. */
    method AddLockedFunds(now: int, sum: int, provingPeriodStart: int, spec: VestSpec) returns (ok: bool, unlocked: int)
      requires Valid() && spec.Sound()
      modifies this, vestingFunds
      ensures ok ==> Valid() && sum >= 0 && lockedFunds == old(lockedFunds) + sum - unlocked
      ensures sum >= 0 && spec.initialDelay + spec.stepDuration >= 0 ==>
                ok && unlocked == Before(Loaded(old(vestingFunds.inner)), now)
      ensures sum >= 0 ==>
                var plan := Schedule(sum, now + spec.initialDelay, provingPeriodStart, spec);
                && unlocked == Before(Loaded(old(vestingFunds.inner)), now) + Before(plan, now)
                && forall t :: Before(Loaded(vestingFunds.inner), t) ==
                                 if t <= now then 0
                                 else Before(Loaded(old(vestingFunds.inner)), t) + Before(plan, t) - unlocked
      ensures sum < 0 ==> !ok && lockedFunds == old(lockedFunds) && vestingFunds.inner == old(vestingFunds.inner)
    {
      hide Before, Total, Loaded, Ordered;
      ok, unlocked := true, 0;
      if sum < 0 {
        ok := false;
        return;
      }
      BeforeTotal(vestingFunds.inner, now);
      unlocked := vestingFunds.AddLockedFunds(now, sum, provingPeriodStart, spec);
      lockedFunds := lockedFunds - unlocked;
      if lockedFunds < 0 {
        ok := false;
        return;
      }
      lockedFunds := lockedFunds + sum;
    }

    /** Never fails, and skips the table only when it holds nothing. */
    method UnlockVestedFunds(now: int) returns (ok: bool, unlocked: int)
      requires Valid()
      modifies this, vestingFunds
      ensures Valid() && ok
      ensures unlocked == Before(Loaded(old(vestingFunds.inner)), now)
      ensures lockedFunds == old(lockedFunds) - unlocked
      ensures forall t :: Before(Loaded(vestingFunds.inner), t)
                       == if t <= now then 0 else Before(Loaded(old(vestingFunds.inner)), t) - unlocked
    {
      hide Before, Total, Loaded, Ordered;
      ok, unlocked := true, 0;
      forall t { BeforeTotal(vestingFunds.inner, t); }
      if lockedFunds == 0 {
        return;
      }
      unlocked := vestingFunds.UnlockVestedFunds(now);
      lockedFunds := lockedFunds - unlocked;
      ok := lockedFunds >= 0;
    }

    /** Never fails; asked for nothing, it leaves even vested funds locked. */
    method UnlockVestedAndUnvestedFunds(now: int, target: int) returns (ok: bool, unvested: int, total: int)
      requires Valid() && target >= 0
      modifies this, vestingFunds
      ensures Valid() && ok && lockedFunds == old(lockedFunds) - total
      ensures var vested := Before(Loaded(old(vestingFunds.inner)), now);
              && unvested == Min(target, old(lockedFunds) - vested)
              && total == (if target == 0 then 0 else vested + unvested)
              && (target > 0 ==>
                    forall t :: Before(Loaded(vestingFunds.inner), t) ==
                                  if t <= now then 0
                                  else Max(0, Before(Loaded(old(vestingFunds.inner)), t) - vested - target))
      ensures target == 0 ==> vestingFunds.inner == old(vestingFunds.inner)
    {
      hide Before, Total, Loaded, Ordered;
      ok, unvested, total := true, 0, 0;
      forall t { BeforeTotal(vestingFunds.inner, t); }
      if target == 0 || lockedFunds == 0 {
        return;
      }
      var vested;
      vested, unvested := vestingFunds.UnlockVestedAndUnvestedFunds(now, target);
      total := vested + unvested;
      lockedFunds := lockedFunds - total;
      ok := lockedFunds >= 0;
    }
  }

  lemma BeforeTotal(inner: Option<Inner>, now: int)
    requires Ordered(inner)
    ensures 0 <= Before(Loaded(inner), now) <= Total(Loaded(inner))
  {
    hide Before, Total, Loaded;
    StoredAll(inner);
    BeforeBounds(Loaded(inner), now, now);
  }
}
