/** The terms of a sector: its deal weights, the quality-adjusted power they give, and its daily fee, from
    activation through replica updates and extensions. */
module SectorTerms {
  import opened Arithmetic
  import opened Wrappers

  const QUALITY_BASE_MULTIPLIER := 10
  const VERIFIED_DEAL_WEIGHT_MULTIPLIER := 100
  const SECTOR_QUALITY_UNIT := 0x10_0000 // two to the precision of 20 bits

  // ---- power ----

  /** Division rounded down, also by a negative number. */
  function FloorDiv(a: int, b: int): int
    requires b != 0
  {
    if b > 0 then a / b else (-a) / (-b)
  }

  /** The duration is negative for a sector past its expiration. */
  function QualityForWeight(size: int, duration: int, weight: int): int
    requires size > 0 && duration != 0
  {
    var spaceTime := size * duration;
    var sum := (spaceTime - weight) * QUALITY_BASE_MULTIPLIER + weight * VERIFIED_DEAL_WEIGHT_MULTIPLIER;
    ProductNotZero(size, duration);
    FloorDiv(sum * SECTOR_QUALITY_UNIT, spaceTime) / QUALITY_BASE_MULTIPLIER
  }

  lemma ProductNotZero(size: int, duration: int)
    requires size > 0 && duration != 0
    ensures size * duration != 0 && (size * duration > 0 <==> duration > 0)
  {
    if duration > 0 {
      ProductPositive(size, duration);
    } else {
      ProductPositive(size, -duration);
      assert size * -duration == -(size * duration);
    }
  }

  function QaPowerForWeight(size: int, duration: int, weight: int): int
    requires size > 0 && duration != 0
  {
    size * QualityForWeight(size, duration, weight) / SECTOR_QUALITY_UNIT
  }

  /** The power that `space` verified bytes give a sector, however long it lasts. */
  function PowerOfSpace(size: int, space: int): int
    requires size > 0
  {
    var sum := size * QUALITY_BASE_MULTIPLIER + space * (VERIFIED_DEAL_WEIGHT_MULTIPLIER - QUALITY_BASE_MULTIPLIER);
    size * (sum * SECTOR_QUALITY_UNIT / size / QUALITY_BASE_MULTIPLIER) / SECTOR_QUALITY_UNIT
  }

  lemma CancelFactor(d: int, y: int, b: int)
    requires d > 0 && b > 0
    ensures d * b > 0 && (d * y) / (d * b) == y / b
  {
    ProductPositive(d, b);
    var q, r := y / b, y % b;
    assert y == b * q + r;
    assert d * y == (d * b) * q + d * r by {
      assert d * (b * q) == (d * b) * q;
    }
    assert 0 <= d * r < d * b by {
      ProductPositive(d, b - r);
      assert d * (b - r) == d * b - d * r;
    }
    DivModUnique(d * y, d * b, q, d * r);
  }

  lemma CancelDuration(d: int, y: int, size: int)
    requires d != 0 && size > 0
    ensures size * d != 0 && FloorDiv(d * y, size * d) == y / size
  {
    ProductNotZero(size, d);
    if d > 0 {
      assert size * d == d * size;
      CancelFactor(d, y, size);
    } else {
      assert -(d * y) == (-d) * y && -(size * d) == (-d) * size;
      CancelFactor(-d, y, size);
    }
  }

  /** The duration cancels out of a weight that is space by time. */
  lemma PowerIsOfSpace(size: int, duration: int, space: int)
    requires size > 0 && duration != 0
    ensures QaPowerForWeight(size, duration, space * duration) == PowerOfSpace(size, space)
  {
    hide FloorDiv;
    var sum := size * QUALITY_BASE_MULTIPLIER + space * (VERIFIED_DEAL_WEIGHT_MULTIPLIER - QUALITY_BASE_MULTIPLIER);
    assert (size * duration - space * duration) * QUALITY_BASE_MULTIPLIER
         + space * duration * VERIFIED_DEAL_WEIGHT_MULTIPLIER == duration * sum;
    assert duration * sum * SECTOR_QUALITY_UNIT == duration * (sum * SECTOR_QUALITY_UNIT);
    CancelDuration(duration, sum * SECTOR_QUALITY_UNIT, size);
  }

  /** More verified space never gives less power. */
  lemma PowerMonotonic(size: int, a: int, b: int)
    requires size > 0 && a <= b
    ensures PowerOfSpace(size, a) <= PowerOfSpace(size, b)
  {
    var k := VERIFIED_DEAL_WEIGHT_MULTIPLIER - QUALITY_BASE_MULTIPLIER;
    var x, y := (size * QUALITY_BASE_MULTIPLIER + a * k) * SECTOR_QUALITY_UNIT,
                (size * QUALITY_BASE_MULTIPLIER + b * k) * SECTOR_QUALITY_UNIT;
    FloorMonotonic(x, y, size);
    FloorMonotonic(x / size, y / size, QUALITY_BASE_MULTIPLIER);
    var p, q := x / size / QUALITY_BASE_MULTIPLIER, y / size / QUALITY_BASE_MULTIPLIER;
    ProductMonotonic(size, p, q);
    FloorMonotonic(size * p, size * q, SECTOR_QUALITY_UNIT);
  }

  lemma PowerOfNone(size: int)
    requires size > 0
    ensures PowerOfSpace(size, 0) == size
  {
    assert size * QUALITY_BASE_MULTIPLIER * SECTOR_QUALITY_UNIT ==
      size * (QUALITY_BASE_MULTIPLIER * SECTOR_QUALITY_UNIT);
    FloorExact(QUALITY_BASE_MULTIPLIER * SECTOR_QUALITY_UNIT, size);
    assert size * SECTOR_QUALITY_UNIT == SECTOR_QUALITY_UNIT * size;
    FloorExact(size, SECTOR_QUALITY_UNIT);
  }

  lemma PowerOfAll(size: int)
    requires size > 0
    ensures PowerOfSpace(size, size) == 10 * size
  {
    var m := VERIFIED_DEAL_WEIGHT_MULTIPLIER;
    assert size * QUALITY_BASE_MULTIPLIER + size * (m - QUALITY_BASE_MULTIPLIER) == size * m;
    assert size * m * SECTOR_QUALITY_UNIT == size * (m * SECTOR_QUALITY_UNIT);
    FloorExact(m * SECTOR_QUALITY_UNIT, size);
    assert size * (10 * SECTOR_QUALITY_UNIT) == SECTOR_QUALITY_UNIT * (10 * size);
    FloorExact(10 * size, SECTOR_QUALITY_UNIT);
  }

  /** Power lies between the sector's size and ten times that. */
  lemma PowerInRange(size: int, space: int)
    requires size > 0 && 0 <= space <= size
    ensures size <= PowerOfSpace(size, space) <= 10 * size
  {
    PowerOfNone(size);
    PowerOfAll(size);
    PowerMonotonic(size, 0, space);
    PowerMonotonic(size, space, size);
  }

  /** Dividing by one number and then by another divides by both. */
  lemma DivideTwice(y: int, size: int)
    requires size > 0
    ensures var q := (10 * y) / size / 10; size * q <= y < size * q + size
  {
    var k := (10 * y) / size;
    var q := k / 10;
    FloorBrackets(10 * y, size);
    FloorBrackets(k, 10);
    ProductMonotonic(size, 10 * q, k);
    ProductMonotonic(size, k + 1, 10 * q + 10);
    assert size * (10 * q) == 10 * (size * q) && size * (10 * q + 10) == 10 * (size * q) + 10 * size;
    assert size * (k + 1) == size * k + size;
  }

  lemma PowerIsAverage(size: int, space: int)
    requires size > 0
    ensures PowerOfSpace(size, space) <= size + 9 * space
    ensures 1_048_576 * (size + 9 * space - PowerOfSpace(size, space)) < size + 1_048_576
    ensures (9 * space * 1_048_576) % size == 0 ==> PowerOfSpace(size, space) == size + 9 * space
  {
    var u := SECTOR_QUALITY_UNIT;
    var y := (size + 9 * space) * u;
    assert (size * QUALITY_BASE_MULTIPLIER + space * (VERIFIED_DEAL_WEIGHT_MULTIPLIER - QUALITY_BASE_MULTIPLIER)) * u
        == 10 * y;
    var q := (10 * y) / size / 10;
    DivideTwice(y, size);
    FloorBrackets(size * q, u);
    if (9 * space * u) % size == 0 {
      var k := (9 * space * u) / size;
      assert 9 * space * u == size * k;
      assert y == size * (u + k);
      Exactly(size, u + k, q);
    }
  }

  lemma Exactly(size: int, k: int, q: int)
    requires size > 0 && size * q <= size * k < size * q + size
    ensures k == q
  {
    if k < q {
      ProductMonotonic(size, k + 1, q);
    } else if k > q {
      ProductMonotonic(size, q + 1, k);
    }
  }

  /** Power is the average of the space, verified bytes counting ten times, short of it by less than a byte
      and a 2^20th of the size, and not at all when the average quality is a whole number of 2^20ths. */
  lemma QaPowerIsAverage(size: int, duration: int, space: int)
    requires size > 0 && duration != 0
    ensures var power := QaPowerForWeight(size, duration, space * duration);
            && power <= size + 9 * space
            && 1_048_576 * (size + 9 * space - power) < size + 1_048_576
            && ((9 * space * 1_048_576) % size == 0 ==> power == size + 9 * space)
  {
    hide QaPowerForWeight, PowerOfSpace;
    PowerIsOfSpace(size, duration, space);
    PowerIsAverage(size, space);
  }

  lemma PowerWithoutWeight(size: int, duration: int)
    requires size > 0 && duration != 0
    ensures QaPowerForWeight(size, duration, 0) == size
  {
    hide QaPowerForWeight, PowerOfSpace;
    PowerIsOfSpace(size, duration, 0);
    PowerOfNone(size);
  }

  // ---- sectors ----

  datatype SectorInfo = SectorInfo(
    activation: int, expiration: int, powerBase: int, dealWeight: int, verifiedWeight: int, dailyFee: int,
    simpleQa: bool)
  {
    function Duration(): int {
      expiration - powerBase
    }
  }

  /** What the network and the seal proof allow, and the fee the network asks of new power. */
  datatype Terms = Terms(
    minExpiration: int, maxExtension: int, claimDropPeriod: int, canExtend: bool, maxLifetime: int,
    feeNumerator: int, feeDenominator: int)

  /** A claim that an extension declares: its size, and whether it is maintained or dropped. */
  datatype Claim = Claim(size: nat, maintained: bool)

  function DailyFee(t: Terms, supply: int, power: int): int
    requires t.feeDenominator > 0
  {
    t.feeNumerator * supply * power / t.feeDenominator
  }

  function AdjustFee(fee: int, oldPower: int, newPower: int): int
    requires oldPower > 0
  {
    if oldPower == newPower then fee else fee * newPower / oldPower
  }

  /** Terms of a newly activated sector; it must last a minimum time. */
  function Activate(t: Terms, size: int, now: int, expiration: int, supply: int, unverified: nat, verified: int):
      Option<SectorInfo>
    requires size > 0 && t.minExpiration > 0 && t.feeDenominator > 0
  {
    var duration := expiration - now;
    if duration < t.minExpiration then None
    else
      var weight := verified * duration;
      var fee := DailyFee(t, supply, QaPowerForWeight(size, duration, weight));
      Some(SectorInfo(now, expiration, now, unverified * duration, weight, fee, true))
  }

  /** Terms after new data is put in a sector. The fee is adjusted against the power that the old weight
      would give over the time left. */
  function Replace(t: Terms, size: int, now: int, supply: int, s: SectorInfo, unverified: nat,
                   verified: int): SectorInfo
    requires size > 0 && s.expiration != now && t.feeDenominator > 0
    requires QaPowerForWeight(size, s.expiration - now, s.verifiedWeight) > 0
  {
    var duration := s.expiration - now;
    var weight := verified * duration;
    var newPower := QaPowerForWeight(size, duration, weight);
    var fee :=
      if s.dailyFee == 0 then DailyFee(t, supply, newPower)
      else AdjustFee(s.dailyFee, QaPowerForWeight(size, duration, s.verifiedWeight), newPower);
    SectorInfo(s.activation, s.expiration, now, unverified * duration, weight, fee, true)
  }

  /** A replica update. Only a sector that holds no data can be updated. One that expires now cannot, for
      its power would be divided by no time at all; one that has expired and is still there can. */
  function UpdateReplica(t: Terms, size: int, now: int, supply: int, s: SectorInfo, unverified: nat,
                         verified: int): Option<SectorInfo>
    requires size > 0 && t.feeDenominator > 0
    requires s.dealWeight + s.verifiedWeight == 0 ==> s.verifiedWeight == 0
  {
    if s.dealWeight + s.verifiedWeight != 0 || s.expiration == now then None
    else
      PowerWithoutWeight(size, s.expiration - now);
      Some(Replace(t, size, now, supply, s, unverified, verified))
  }

  function ClaimSpace(claims: seq<Claim>): nat {
    if claims == [] then 0 else claims[0].size + ClaimSpace(claims[1..])
  }

  function MaintainedSpace(claims: seq<Claim>): (m: nat)
    ensures m <= ClaimSpace(claims)
  {
    if claims == [] then 0
    else (if claims[0].maintained then claims[0].size else 0) + MaintainedSpace(claims[1..])
  }

  predicate CanExtend(t: Terms, now: int, s: SectorInfo, expiration: int) {
    && t.canExtend && now <= s.expiration <= expiration
    && expiration > s.activation && expiration - s.activation >= t.minExpiration
    && expiration <= now + t.maxExtension && expiration - s.activation <= t.maxLifetime
  }

  /** The weights of a simple sector over its new term. All its verified space must be claimed, and
      claims can be dropped only near the end of its life. */
  function ExtendWeights(t: Terms, now: int, s: SectorInfo, expiration: int, claims: seq<Claim>): Option<SectorInfo>
    requires s.Duration() != 0
  {
    var left := s.(
      expiration := expiration, powerBase := now,
      dealWeight := if s.dealWeight > 0 then TruncDiv(s.dealWeight * (s.expiration - now), s.Duration())
                    else s.dealWeight);
    if s.verifiedWeight <= 0 then Some(left)
    else if claims == [] || ClaimSpace(claims) != TruncDiv(s.verifiedWeight, s.Duration()) then None
    else if ClaimSpace(claims) != MaintainedSpace(claims) && s.expiration - now > t.claimDropPeriod then None
    else Some(left.(verifiedWeight := MaintainedSpace(claims) * (expiration - now)))
  }

  /** Extends a simple sector, or fails. An extension to the current epoch fails, for its power would be
      divided by no time at all. */
  function Extend(
      t: Terms, size: int, now: int, supply: int, graceOver: bool, s: SectorInfo, expiration: int, claims: seq<Claim>):
      Option<SectorInfo>
    requires size > 0 && s.simpleQa && s.Duration() != 0 && t.feeDenominator > 0
    requires QaPowerForWeight(size, s.Duration(), s.verifiedWeight) > 0
  {
    if !CanExtend(t, now, s, expiration) || expiration <= now then None
    else
      match ExtendWeights(t, now, s, expiration, claims)
      case None => None
      case Some(n) =>
        var newPower := QaPowerForWeight(size, n.Duration(), n.verifiedWeight);
        var fee :=
          if s.dailyFee == 0 then
            if graceOver then DailyFee(t, supply, newPower) else 0
          else
            AdjustFee(s.dailyFee, QaPowerForWeight(size, s.Duration(), s.verifiedWeight), newPower);
        Some(n.(dailyFee := fee))
  }

  // ---- fees and weights ----

  /** `q` is `n` over `d`, rounded down. */
  ghost predicate Quotient(q: int, n: int, d: int) {
    q * d <= n < (q + 1) * d
  }

  lemma QuotientIs(n: int, d: int)
    requires d > 0
    ensures Quotient(n / d, n, d)
  {
    FloorBrackets(n, d);
    assert (n / d) * d == d * (n / d) && (n / d + 1) * d == d * (n / d) + d;
  }

  /** A new fee is the network's fraction of the circulating supply for every byte of power. */
  lemma DailyFeeIs(t: Terms, supply: int, power: int)
    requires t.feeDenominator > 0
    ensures Quotient(DailyFee(t, supply, power), t.feeNumerator * supply * power, t.feeDenominator)
  {
    QuotientIs(t.feeNumerator * supply * power, t.feeDenominator);
  }

  /** A fee that is set moves in proportion to the power. */
  lemma AdjustFeeIs(fee: int, oldPower: int, newPower: int)
    requires oldPower > 0
    ensures Quotient(AdjustFee(fee, oldPower, newPower), fee * newPower, oldPower)
  {
    if oldPower != newPower {
      QuotientIs(fee * newPower, oldPower);
    } else {
      assert (fee + 1) * oldPower == fee * oldPower + oldPower;
    }
  }

  /** The space claimed and the space maintained add up claim by claim. */
  lemma {:induction false} ClaimsAddUp(a: seq<Claim>, b: seq<Claim>)
    ensures ClaimSpace(a + b) == ClaimSpace(a) + ClaimSpace(b)
    ensures MaintainedSpace(a + b) == MaintainedSpace(a) + MaintainedSpace(b)
  {
    if a == [] {
      assert a + b == b;
    } else {
      ClaimsAddUp(a[1..], b);
      assert (a + b)[1..] == a[1..] + b;
    }
  }

  lemma OneClaim(c: Claim)
    ensures ClaimSpace([c]) == c.size && MaintainedSpace([c]) == if c.maintained then c.size else 0
  {
  }

  // ---- what every run keeps ----

  /** The weight of a sector is its verified space by its duration, and its other weight has the same sign. */
  ghost predicate Consistent(s: SectorInfo, size: int, space: int) {
    && size > 0 && s.simpleQa && s.Duration() != 0 && 0 <= space <= size
    && s.verifiedWeight == space * s.Duration()
    && (if s.Duration() > 0 then s.dealWeight >= 0 else s.dealWeight <= 0)
  }

  lemma ConsistentPower(s: SectorInfo, size: int, space: int)
    requires Consistent(s, size, space)
    ensures QaPowerForWeight(size, s.Duration(), s.verifiedWeight) == PowerOfSpace(size, space)
    ensures size <= PowerOfSpace(size, space) <= 10 * size
  {
    PowerIsOfSpace(size, s.Duration(), space);
    PowerInRange(size, space);
  }

  lemma ActivateConsistent(
      t: Terms, size: int, now: int, expiration: int, supply: int, unverified: nat, verified: int)
    requires size > 0 && t.minExpiration > 0 && t.feeDenominator > 0 && 0 <= verified <= size
    ensures var r := Activate(t, size, now, expiration, supply, unverified, verified);
            && (r.Some? <==> expiration - now >= t.minExpiration)
            && (r.Some? ==>
                  && Consistent(r.value, size, verified) && r.value.dealWeight == unverified * (expiration - now)
                  && r.value.activation == r.value.powerBase == now && r.value.expiration == expiration
                  && Quotient(r.value.dailyFee, t.feeNumerator * supply * PowerOfSpace(size, verified),
                              t.feeDenominator))
  {
    hide QaPowerForWeight, PowerOfSpace, DailyFee, Quotient;
    if expiration - now >= t.minExpiration {
      PowerIsOfSpace(size, expiration - now, verified);
      DailyFeeIs(t, supply, PowerOfSpace(size, verified));
    }
  }

  /** An update succeeds exactly for a sector that holds no data and does not expire now, and keeps the
      weight in step. It leaves a negative deal weight exactly when the sector had expired and some of the
      data is not verified. */
  lemma UpdateConsistent(
      t: Terms, size: int, now: int, supply: int, s: SectorInfo, space: int, unverified: nat, verified: int)
    requires Consistent(s, size, space) && t.feeDenominator > 0 && 0 <= verified <= size
    ensures s.dealWeight + s.verifiedWeight == 0 <==> s.dealWeight == 0 && space == 0
    ensures s.verifiedWeight == 0 <==> space == 0
    ensures var r := UpdateReplica(t, size, now, supply, s, unverified, verified);
            && (r.Some? <==> s.dealWeight == 0 && space == 0 && s.expiration != now)
            && (r.Some? ==>
                  && Consistent(r.value, size, verified) && r.value.dealWeight == unverified * (s.expiration - now)
                  && r.value.powerBase == now
                  && r.value.activation == s.activation && r.value.expiration == s.expiration)
            && (r.Some? ==> (r.value.dealWeight < 0 <==> s.expiration < now && unverified > 0))
  {
    hide QaPowerForWeight, PowerOfSpace;
    WeightSign(space, s.Duration());
    if s.expiration != now {
      PowerWithoutWeight(size, s.expiration - now);
      WeightSign(unverified, s.expiration - now);
    }
  }

  lemma WeightSign(space: int, duration: int)
    requires space >= 0 && duration != 0
    ensures space * duration == 0 <==> space == 0
    ensures space * duration > 0 <==> space > 0 && duration > 0
  {
    if space > 0 {
      ProductNotZero(space, duration);
    }
  }

  lemma WeightIsSpace(space: int, duration: int)
    requires space >= 0 && duration > 0
    ensures TruncDiv(space * duration, duration) == space && (space * duration > 0 <==> space > 0)
  {
    ProductMonotonic(duration, 0, space);
    FloorExact(space, duration);
    assert space * duration == duration * space;
    if space > 0 {
      ProductPositive(space, duration);
    } else {
      assert space * duration == 0;
    }
  }

  /** What is left of a weight is in proportion to the time left. */
  lemma WeightLeft(weight: int, left: int, duration: int)
    requires weight >= 0 && left >= 0 && duration > 0
    ensures TruncDiv(weight * left, duration) >= 0
    ensures Quotient(TruncDiv(weight * left, duration), weight * left, duration)
    ensures weight == 0 ==> Quotient(weight, weight * left, duration)
  {
    ProductMonotonic(weight, 0, left);
    FloorMonotonic(0, weight * left, duration);
    QuotientIs(weight * left, duration);
  }

  /** An extension keeps the weight in step with the new term. The verified space, and with it the power,
      changes only if claims are dropped, which takes the sector to be near its end; if it does not, a fee
      that has been set stays as it is. */
  lemma ExtendConsistent(
      t: Terms, size: int, now: int, supply: int, graceOver: bool, s: SectorInfo, space: int, expiration: int,
      claims: seq<Claim>)
    requires Consistent(s, size, space) && t.feeDenominator > 0 && (s.Duration() > 0 || s.powerBase <= now)
    ensures QaPowerForWeight(size, s.Duration(), s.verifiedWeight) == PowerOfSpace(size, space) > 0
    ensures var r := Extend(t, size, now, supply, graceOver, s, expiration, claims);
            var dropped := ClaimSpace(claims) - MaintainedSpace(claims);
            var space' := if space == 0 then 0 else space - dropped;
            && (r.Some? <==>
                  && t.canExtend && now <= s.expiration <= expiration && now < expiration
                  && t.minExpiration <= expiration - s.activation <= t.maxLifetime && s.activation < expiration
                  && expiration - now <= t.maxExtension
                  && (space == 0 || (claims != [] && ClaimSpace(claims) == space))
                  && (space == 0 || dropped == 0 || s.expiration - now <= t.claimDropPeriod))
            && (r.Some? ==>
                  && Consistent(r.value, size, space') && r.value.expiration == expiration
                  && r.value.powerBase == now && r.value.activation == s.activation
                  && Quotient(r.value.dealWeight, s.dealWeight * (s.expiration - now), s.Duration()))
            && (r.Some? && space' == space && s.dailyFee != 0 ==> r.value.dailyFee == s.dailyFee)
            && (r.Some? && s.dailyFee != 0 ==>
                  Quotient(r.value.dailyFee, s.dailyFee * PowerOfSpace(size, space'), PowerOfSpace(size, space)))
            && (r.Some? && s.dailyFee == 0 && !graceOver ==> r.value.dailyFee == 0)
            && (r.Some? && s.dailyFee == 0 && graceOver ==>
                  Quotient(r.value.dailyFee, t.feeNumerator * supply * PowerOfSpace(size, space'), t.feeDenominator))
  {
    hide QaPowerForWeight, PowerOfSpace, ClaimSpace, TruncDiv, Quotient, DailyFee;
    ConsistentPower(s, size, space);
    if CanExtend(t, now, s, expiration) && now < expiration {
      WeightIsSpace(space, s.Duration());
      WeightLeft(s.dealWeight, s.expiration - now, s.Duration());
      var space' := if space == 0 then 0 else MaintainedSpace(claims);
      PowerIsOfSpace(size, expiration - now, space');
      DailyFeeIs(t, supply, PowerOfSpace(size, space'));
      AdjustFeeIs(s.dailyFee, PowerOfSpace(size, space), PowerOfSpace(size, space'));
    }
  }

  /** An extension that passes every check leaves no time at all exactly when a sector that expires
      now is extended to now. */
  lemma ExtendLeavesNoTimeIff(t: Terms, now: int, s: SectorInfo, expiration: int, claims: seq<Claim>)
    requires s.Duration() != 0 && CanExtend(t, now, s, expiration)
    requires ExtendWeights(t, now, s, expiration, claims).Some?
    ensures ExtendWeights(t, now, s, expiration, claims).value.Duration() == 0
            <==> s.expiration == now == expiration
  {
    hide TruncDiv, ClaimSpace;
  }

  /** Any sector without verified data can be brought there: activated for a term that the network allows,
      it passes the checks of an extension to its own last epoch at that epoch, and fails for want of time. */
  lemma ExtendToNowFails(t: Terms, size: int, start: int, expiration: int, supply: int, unverified: nat,
                         graceOver: bool)
    requires size > 0 && t.minExpiration > 0 && t.feeDenominator > 0
    requires t.minExpiration <= expiration - start <= t.maxLifetime && t.canExtend && t.maxExtension >= 0
    ensures var s := Activate(t, size, start, expiration, supply, unverified, 0);
            && s.Some? && Consistent(s.value, size, 0)
            && CanExtend(t, expiration, s.value, expiration)
            && ExtendWeights(t, expiration, s.value, expiration, []).Some?
            && QaPowerForWeight(size, s.value.Duration(), s.value.verifiedWeight) > 0
            && Extend(t, size, expiration, supply, graceOver, s.value, expiration, []) == None
  {
    hide QaPowerForWeight, PowerOfSpace, TruncDiv, DailyFee;
    ActivateConsistent(t, size, start, expiration, supply, unverified, 0);
    ConsistentPower(Activate(t, size, start, expiration, supply, unverified, 0).value, size, 0);
  }

  /** Any sector activated without data can be brought to an update at its last epoch, which fails for want
      of time, or to one after it, which stores a negative deal weight. */
  lemma LateUpdates(t: Terms, size: int, start: int, expiration: int, supply: int, now: int, unverified: nat)
    requires size > 0 && t.minExpiration > 0 && t.feeDenominator > 0
    requires t.minExpiration <= expiration - start && now >= expiration && unverified > 0
    ensures var s := Activate(t, size, start, expiration, supply, 0, 0);
            && s.Some? && Consistent(s.value, size, 0)
            && s.value.dealWeight + s.value.verifiedWeight == 0
            && var r := UpdateReplica(t, size, now, supply, s.value, unverified, 0);
               if now == expiration then r == None
               else r.Some? && r.value.dealWeight == -(unverified * (now - expiration)) < 0
  {
    hide QaPowerForWeight, PowerOfSpace, DailyFee;
    ActivateConsistent(t, size, start, expiration, supply, 0, 0);
    var s := Activate(t, size, start, expiration, supply, 0, 0).value;
    UpdateConsistent(t, size, now, supply, s, 0, unverified, 0);
  }

  // ---- runs ----

  datatype Event =
    | Extended(now: int, supply: int, graceOver: bool, expiration: int, claims: seq<Claim>)
    | Updated(now: int, supply: int, unverified: nat, verified: int)

  /** Time does not go back, and the data of a replica update fits. */
  ghost predicate Enabled(s: SectorInfo, size: int, e: Event) {
    && s.powerBase <= e.now
    && (e.Updated? ==> 0 <= e.verified <= size)
  }

  /** A sector, the verified space it holds, and the event applied to both. */
  ghost function Step(t: Terms, size: int, s: SectorInfo, space: int, e: Event): (r: (SectorInfo, int))
    requires Consistent(s, size, space) && Enabled(s, size, e) && t.feeDenominator > 0
    ensures Consistent(r.0, size, r.1)
  {
    match e
    case Extended(now, supply, graceOver, expiration, claims) =>
      ExtendConsistent(t, size, now, supply, graceOver, s, space, expiration, claims);
      (match Extend(t, size, now, supply, graceOver, s, expiration, claims)
       case None => (s, space)
       case Some(n) => (n, if space == 0 then 0 else MaintainedSpace(claims)))
    case Updated(now, supply, unverified, verified) =>
      UpdateConsistent(t, size, now, supply, s, space, unverified, verified);
      (match UpdateReplica(t, size, now, supply, s, unverified, verified)
       case None => (s, space)
       case Some(n) => (n, verified))
  }

  ghost predicate Possible(t: Terms, size: int, s: SectorInfo, space: int, events: seq<Event>)
    requires Consistent(s, size, space) && t.feeDenominator > 0
    decreases events
  {
    events == [] ||
    (Enabled(s, size, events[0]) &&
     var (s', space') := Step(t, size, s, space, events[0]);
     Possible(t, size, s', space', events[1..]))
  }

  ghost function Run(t: Terms, size: int, s: SectorInfo, space: int, events: seq<Event>): (r: (SectorInfo, int))
    requires Consistent(s, size, space) && t.feeDenominator > 0 && Possible(t, size, s, space, events)
    ensures Consistent(r.0, size, r.1)
    decreases events
  {
    if events == [] then (s, space)
    else
      var (s', space') := Step(t, size, s, space, events[0]);
      Run(t, size, s', space', events[1..])
  }

  /** After any run, a sector's power depends only on its size and its verified space. */
  lemma RunPower(t: Terms, size: int, s: SectorInfo, space: int, events: seq<Event>)
    requires Consistent(s, size, space) && t.feeDenominator > 0 && Possible(t, size, s, space, events)
    ensures var (s', space') := Run(t, size, s, space, events);
            && s'.verifiedWeight == space' * s'.Duration() && 0 <= space' <= size
            && QaPowerForWeight(size, s'.Duration(), s'.verifiedWeight) == PowerOfSpace(size, space')
            && size <= PowerOfSpace(size, space') <= 10 * size
  {
    hide QaPowerForWeight, PowerOfSpace, Step, Possible;
    var (s', space') := Run(t, size, s, space, events);
    ConsistentPower(s', size, space');
  }

  predicate Extends(e: Event) {
    e.Extended?
  }

  predicate DropsNothing(e: Event) {
    e.Extended? && MaintainedSpace(e.claims) == ClaimSpace(e.claims)
  }

  lemma ExtensionStep(t: Terms, size: int, s: SectorInfo, space: int, e: Event)
    requires Consistent(s, size, space) && t.feeDenominator > 0 && e.Extended? && Enabled(s, size, e)
    ensures var (s', space') := Step(t, size, s, space, e);
            && space' <= space && (DropsNothing(e) ==> space' == space)
            && (DropsNothing(e) && s.dailyFee != 0 ==> s'.dailyFee == s.dailyFee)
  {
    hide QaPowerForWeight, PowerOfSpace, Extend;
    ExtendConsistent(t, size, e.now, e.supply, e.graceOver, s, space, e.expiration, e.claims);
  }

  /** A run of extensions never adds power. One that drops no claims keeps power and fee as they were. */
  lemma {:induction false} ExtensionsKeepPower(t: Terms, size: int, s: SectorInfo, space: int, events: seq<Event>)
    requires Consistent(s, size, space) && t.feeDenominator > 0 && Possible(t, size, s, space, events)
    requires forall e <- events :: Extends(e)
    ensures var (s', space') := Run(t, size, s, space, events);
            && space' <= space && PowerOfSpace(size, space') <= PowerOfSpace(size, space)
            && ((forall e <- events :: DropsNothing(e)) ==> space' == space)
            && ((forall e <- events :: DropsNothing(e)) && s.dailyFee != 0 ==> s'.dailyFee == s.dailyFee)
    decreases events
  {
    hide PowerOfSpace, Step, DropsNothing;
    if events != [] {
      assert events[0] in events && Extends(events[0]);
      ExtensionStep(t, size, s, space, events[0]);
      var (s', space') := Step(t, size, s, space, events[0]);
      ExtensionsKeepPower(t, size, s', space', events[1..]);
      PowerMonotonic(size, space', space);
    }
  }

  // ---- the fee after a replica update ----

  lemma FeeScales(fee: int, size: int, power: int)
    requires fee > 0 && power >= size > 0
    ensures var f := AdjustFee(fee, size, power);
            && f * size <= fee * power < (f + 1) * size
            && f >= fee && (f == fee <==> fee * (power - size) < size)
  {
    var n, f := fee * power, AdjustFee(fee, size, power);
    assert fee * (power - size) == n - fee * size;
    assert f * size <= n < (f + 1) * size by {
      if power != size {
        FloorBrackets(n, size);
      }
    }
    if f != fee {
      FeeMoves(fee, size, n, f);
    }
    ProductMonotonic(fee, size, power);
    if f < fee {
      ProductMonotonic(size, f + 1, fee);
    }
  }

  lemma FeeMoves(fee: int, size: int, n: int, f: int)
    requires size > 0 && f * size <= n < (f + 1) * size && f != fee
    ensures !(fee * size <= n < (fee + 1) * size)
  {
    if f < fee {
      ProductMonotonic(size, f + 1, fee);
    } else {
      ProductMonotonic(size, fee + 1, f);
    }
  }

  /** An update sets the fee of a sector that has none. A fee that is set grows in proportion to the power,
      rounded down; it never falls, and stays exactly when the growth comes to less than one token. */
  lemma UpdateFee(
      t: Terms, size: int, now: int, supply: int, s: SectorInfo, space: int, unverified: nat, verified: int)
    requires Consistent(s, size, space) && t.feeDenominator > 0 && 0 <= verified <= size
    requires s.dealWeight == 0 && space == 0 && s.expiration != now
    ensures UpdateReplica(t, size, now, supply, s, unverified, verified).Some?
    ensures var fee := UpdateReplica(t, size, now, supply, s, unverified, verified).value.dailyFee;
            var power := PowerOfSpace(size, verified);
            && QaPowerForWeight(size, s.Duration(), s.verifiedWeight) == size <= power
            && (s.dailyFee == 0 ==> Quotient(fee, t.feeNumerator * supply * power, t.feeDenominator))
            && (s.dailyFee > 0 ==>
                  && fee == AdjustFee(s.dailyFee, size, power) >= s.dailyFee
                  && fee * size <= s.dailyFee * power < (fee + 1) * size
                  && (fee == s.dailyFee <==> s.dailyFee * (power - size) < size))
  {
    hide QaPowerForWeight, PowerOfSpace, AdjustFee;
    UpdateConsistent(t, size, now, supply, s, space, unverified, verified);
    PowerIsOfSpace(size, s.expiration - now, verified);
    PowerInRange(size, verified);
    PowerWithoutWeight(size, s.expiration - now);
    PowerWithoutWeight(size, s.Duration());
    DailyFeeIs(t, supply, PowerOfSpace(size, verified));
    if s.dailyFee > 0 {
      FeeScales(s.dailyFee, size, PowerOfSpace(size, verified));
    }
  }

  predicate KeepsClaims(e: Event) {
    e.Extended? ==> DropsNothing(e)
  }

  lemma KeepingStep(t: Terms, size: int, s: SectorInfo, space: int, e: Event)
    requires Consistent(s, size, space) && t.feeDenominator > 0 && Enabled(s, size, e) && KeepsClaims(e)
    ensures var (s', space') := Step(t, size, s, space, e);
            space' >= space && (s.dailyFee > 0 ==> s'.dailyFee >= s.dailyFee)
  {
    hide QaPowerForWeight, PowerOfSpace, AdjustFee, UpdateReplica, Extend, Consistent;
    if e.Extended? {
      ExtensionStep(t, size, s, space, e);
    } else {
      UpdateConsistent(t, size, e.now, e.supply, s, space, e.unverified, e.verified);
      if s.dealWeight == 0 && space == 0 && s.expiration != e.now {
        UpdateFee(t, size, e.now, e.supply, s, space, e.unverified, e.verified);
      }
    }
  }

  /** Over any run of updates and extensions that drops no claims, neither the power nor a fee that is set
      ever falls. */
  lemma {:induction false} KeepingLosesNothing(t: Terms, size: int, s: SectorInfo, space: int, events: seq<Event>)
    requires Consistent(s, size, space) && t.feeDenominator > 0 && Possible(t, size, s, space, events)
    requires forall e <- events :: KeepsClaims(e)
    ensures var (s', space') := Run(t, size, s, space, events);
            && space' >= space && PowerOfSpace(size, space') >= PowerOfSpace(size, space)
            && (s.dailyFee > 0 ==> s'.dailyFee >= s.dailyFee)
    decreases events
  {
    hide PowerOfSpace, Step, KeepsClaims;
    if events != [] {
      assert events[0] in events;
      KeepingStep(t, size, s, space, events[0]);
      var (s', space') := Step(t, size, s, space, events[0]);
      KeepingLosesNothing(t, size, s', space', events[1..]);
      PowerMonotonic(size, space, space');
    }
  }
}
