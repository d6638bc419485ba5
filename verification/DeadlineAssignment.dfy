/** Assigning sectors to deadlines: always to the deadline that compares least, and why that is optimal. */
module DeadlineAssignment {
  import opened Arithmetic
  import opened Wrappers

  datatype Info = Info(index: nat, live: nat, total: nat)

  function CeilDiv(a: nat, b: nat): nat
    requires b > 0
  {
    a / b + if a % b > 0 then 1 else 0
  }

  /** Rounded-up division is the least multiple that covers. */
  lemma CeilDivLeast(a: nat, b: nat, m: nat)
    requires b > 0
    ensures CeilDiv(a, b) <= m <==> a <= m * b
  {
    hide CeilDiv;
    var c := CeilDiv(a, b);
    CeilDivBrackets(a, b);
    if c <= m {
      ProductMonotonic(b, c, m);
    } else {
      ProductMonotonic(b, m, c - 1);
    }
  }

  lemma CeilDivBrackets(a: nat, b: nat)
    requires b > 0
    ensures a <= CeilDiv(a, b) * b
    ensures CeilDiv(a, b) > 0 ==> (CeilDiv(a, b) - 1) * b < a
  {
    var q := a / b;
    FloorBrackets(a, b);
    OneMore(b, q);
    assert a % b == a - b * q;
    if a % b == 0 && q > 0 {
      OneMore(b, q - 1);
    }
  }

  // ---- the order ----

  function PartitionsAfter(d: Info, ps: nat): nat
    requires ps > 0
  {
    CeilDiv(d.total + 1, ps)
  }

  function CompactAfter(d: Info, ps: nat): nat
    requires ps > 0
  {
    CeilDiv(d.live + 1, ps)
  }

  predicate IsFullNow(d: Info, ps: nat)
    requires ps > 0
  {
    d.total % ps == 0
  }

  predicate MaxPartitionsReached(d: Info, ps: nat, max: nat) {
    d.total >= ps * max
  }

  function CompareInts(a: int, b: int): int {
    if a < b then -1 else if a > b then 1 else 0
  }

  function Then(first: int, second: int): int {
    if first != 0 then first else second
  }

  function Bit(b: bool): int {
    if b then 1 else 0
  }

  /** Negative when `a` is the better deadline for the next sector. */
  function Compare(a: Info, b: Info, ps: nat): int
    requires ps > 0
  {
    Then(CompareInts(CompactAfter(a, ps), CompactAfter(b, ps)),
         Then(CompareInts(PartitionsAfter(a, ps), PartitionsAfter(b, ps)),
              Then(CompareInts(Bit(IsFullNow(a, ps)), Bit(IsFullNow(b, ps))),
                   Then(if !IsFullNow(a, ps) && !IsFullNow(b, ps) then -CompareInts(a.total, b.total) else 0,
                        Then(CompareInts(a.live, b.live),
                             CompareInts(a.index, b.index))))))
  }

  /** The order is strict and total on deadlines of distinct indices. */
  lemma CompareIsOrder(a: Info, b: Info, c: Info, ps: nat)
    requires ps > 0
    ensures Compare(a, b, ps) == -Compare(b, a, ps)
    ensures Compare(a, b, ps) == 0 ==> a.index == b.index
    ensures Compare(a, a, ps) == 0
    ensures Compare(a, b, ps) <= 0 && Compare(b, c, ps) <= 0 ==> Compare(a, c, ps) <= 0
    ensures Compare(a, b, ps) < 0 && Compare(b, c, ps) <= 0 ==> Compare(a, c, ps) < 0
  {
    hide CeilDiv, IsFullNow;
  }

  /** `a` is the better deadline for the next sector: fewer partitions once compacted, then fewer as it is,
      then one left open before none, then the more full of two left open, then fewer live sectors, and
      then the lower index. */
  ghost predicate ComesFirst(a: Info, b: Info, ps: nat)
    requires ps > 0
  {
    || a.live / ps < b.live / ps
    || (a.live / ps == b.live / ps &&
        (|| a.total / ps < b.total / ps
         || (a.total / ps == b.total / ps &&
             (|| (a.total % ps != 0 && b.total % ps == 0)
              || (a.total % ps != 0 && b.total % ps != 0 && a.total > b.total)
              || ((a.total % ps == 0 <==> b.total % ps == 0) && (a.total % ps == 0 || a.total == b.total) &&
                  (a.live < b.live || (a.live == b.live && a.index < b.index)))))))
  }

  lemma CeilOfOneMore(a: nat, ps: nat)
    requires ps > 0
    ensures CeilDiv(a + 1, ps) == a / ps + 1
  {
    var q, r := a / ps, a % ps;
    assert a == ps * q + r;
    if r + 1 == ps {
      OneMore(ps, q);
      DivModUnique(a + 1, ps, q + 1, 0);
    } else {
      DivModUnique(a + 1, ps, q, r + 1);
    }
  }

  /** The comparison means what it is meant to. */
  lemma CompareMeans(a: Info, b: Info, ps: nat)
    requires ps > 0
    ensures Compare(a, b, ps) < 0 <==> ComesFirst(a, b, ps)
  {
    hide CeilDiv;
    CeilOfOneMore(a.live, ps);
    CeilOfOneMore(b.live, ps);
    CeilOfOneMore(a.total, ps);
    CeilOfOneMore(b.total, ps);
  }

  /** A partition that has been opened is filled: a deadline without dead sectors that comes first, among
      others without, still comes first once it has a sector more, unless that has filled its partition. */
  lemma KeepsFilling(a: Info, b: Info, ps: nat)
    requires ps > 0 && a.live == a.total && b.live == b.total && ComesFirst(a, b, ps)
    requires (a.total + 1) % ps != 0
    ensures ComesFirst(Bump(a), b, ps)
  {
    var q, r := a.total / ps, a.total % ps;
    assert a.total == ps * q + r;
    if r + 1 == ps {
      OneMore(ps, q);
      DivModUnique(a.total + 1, ps, q + 1, 0);
    } else {
      DivModUnique(a.total + 1, ps, q, r + 1);
    }
  }

  // ---- what an assignment achieves ----

  ghost function SumLive(ds: seq<Info>): nat {
    if ds == [] then 0 else ds[0].live + SumLive(ds[1..])
  }

  /** The most partitions any deadline would have once compacted. */
  ghost function MostCompact(ds: seq<Info>, ps: nat): nat
    requires ps > 0
  {
    if ds == [] then 0 else Max(CeilDiv(ds[0].live, ps), MostCompact(ds[1..], ps))
  }

  lemma {:induction false} MostCompactLeast(ds: seq<Info>, ps: nat, m: nat)
    requires ps > 0
    ensures MostCompact(ds, ps) <= m <==> forall i :: 0 <= i < |ds| ==> ds[i].live <= m * ps
  {
    hide CeilDiv;
    if ds != [] {
      CeilDivLeast(ds[0].live, ps, m);
      MostCompactLeast(ds[1..], ps, m);
      assert forall i :: 0 < i < |ds| ==> ds[i] == ds[1..][i - 1];
    }
  }

  lemma {:induction false} SumLiveAtMost(ds: seq<Info>, m: nat)
    requires forall i :: 0 <= i < |ds| ==> ds[i].live <= m
    ensures SumLive(ds) <= |ds| * m
  {
    if ds != [] {
      SumLiveAtMost(ds[1..], m);
      assert |ds| * m == m + |ds[1..]| * m;
    }
  }

  lemma {:induction false} SumLiveExactly(ds: seq<Info>, m: nat)
    requires forall i :: 0 <= i < |ds| ==> ds[i].live == m
    ensures SumLive(ds) == |ds| * m
  {
    if ds != [] {
      SumLiveExactly(ds[1..], m);
      assert |ds| * m == m + |ds[1..]| * m;
    }
  }

  lemma {:induction false} SumLiveAdd(ds: seq<Info>, k: nat)
    requires k < |ds|
    ensures SumLive(ds[k := Bump(ds[k])]) == SumLive(ds) + 1
  {
    var ds' := ds[k := Bump(ds[k])];
    if k == 0 {
      assert ds'[1..] == ds[1..];
    } else {
      assert ds'[1..] == ds[1..][k - 1 := Bump(ds[1..][k - 1])];
      SumLiveAdd(ds[1..], k - 1);
    }
  }

  function Bump(d: Info): Info {
    d.(live := d.live + 1, total := d.total + 1)
  }

  /** The fewest partitions that every assignment of `n` more sectors must give some deadline. */
  ghost function Optimum(ds: seq<Info>, ps: nat, n: nat): nat
    requires ps > 0 && ds != []
  {
    Max(MostCompact(ds, ps), CeilDiv(SumLive(ds) + n, |ds| * ps))
  }

  /** Any way of adding `n` live sectors to the deadlines, greedy or not. */
  ghost predicate Adds(ds: seq<Info>, after: seq<Info>, n: nat) {
    && |after| == |ds| && SumLive(after) == SumLive(ds) + n
    && forall i :: 0 <= i < |ds| ==> after[i].live >= ds[i].live
  }

  lemma Unbeatable(ds: seq<Info>, after: seq<Info>, ps: nat, n: nat)
    requires ps > 0 && ds != [] && Adds(ds, after, n)
    ensures MostCompact(after, ps) >= Optimum(ds, ps, n)
  {
    hide CeilDiv, MostCompact, SumLive;
    var m := MostCompact(after, ps);
    MostCompactLeast(after, ps, m);
    MostCompactLeast(ds, ps, m);
    SumLiveAtMost(after, m * ps);
    CeilDivLeast(SumLive(ds) + n, |ds| * ps, m);
    assert |ds| * (m * ps) == m * (|ds| * ps);
  }

  /** The deadline that comes first for the next sector. */
  ghost predicate IsLeast(ds: seq<Info>, k: nat, ps: nat)
    requires ps > 0
  {
    k < |ds| && forall j :: 0 <= j < |ds| ==> Compare(ds[k], ds[j], ps) <= 0
  }

  lemma LeastCompact(ds: seq<Info>, k: nat, ps: nat, j: nat)
    requires ps > 0 && IsLeast(ds, k, ps) && j < |ds|
    ensures CompactAfter(ds[k], ps) <= CompactAfter(ds[j], ps)
  {
    hide CeilDiv, IsFullNow;
    assert Compare(ds[k], ds[j], ps) <= 0;
  }

  /** One more sector on the least deadline raises the maximum only when every deadline is full to it. */
  lemma GreedyStep(ds: seq<Info>, k: nat, ps: nat, bound: nat)
    requires ps > 0 && k < |ds| && IsLeast(ds, k, ps)
    requires MostCompact(ds, ps) <= Max(bound, CeilDiv(SumLive(ds), |ds| * ps))
    ensures var after := ds[k := Bump(ds[k])];
            MostCompact(after, ps) <= Max(bound, CeilDiv(SumLive(after), |ds| * ps))
  {
    hide CeilDiv, MostCompact, SumLive, Compare, IsLeast, CompactAfter;
    var after := ds[k := Bump(ds[k])];
    var m, c := MostCompact(ds, ps), CompactAfter(ds[k], ps);
    SumLiveAdd(ds, k);
    MostCompactLeast(ds, ps, m);
    CompactIs(ds[k], ps, m);
    if c <= m {
      CeilMonotonic(SumLive(ds), SumLive(after), |ds| * ps);
      MostCompactLeast(after, ps, m);
    } else {
      forall j | 0 <= j < |ds|
        ensures ds[j].live == m * ps
      {
        LeastCompact(ds, k, ps, j);
        CompactIs(ds[j], ps, m);
      }
      SumLiveExactly(ds, m * ps);
      MostCompactLeast(after, ps, m + 1);
      assert |ds| * (m * ps) == m * (|ds| * ps);
      CeilDivLeast(SumLive(after), |ds| * ps, m);
      assert (m + 1) * ps == m * ps + ps;
    }
  }

  lemma CompactIs(d: Info, ps: nat, m: nat)
    requires ps > 0
    ensures CompactAfter(d, ps) <= m <==> d.live + 1 <= m * ps
  {
    hide CeilDiv;
    CeilDivLeast(d.live + 1, ps, m);
  }

  lemma CeilMonotonic(a: nat, b: nat, d: nat)
    requires d > 0 && a <= b
    ensures CeilDiv(a, d) <= CeilDiv(b, d)
  {
    hide CeilDiv;
    CeilDivLeast(a, d, CeilDiv(b, d));
    CeilDivLeast(b, d, CeilDiv(b, d));
  }

  // ---- when it fails ----

  /** How many more sectors a deadline could hold. */
  function Spare(d: Info, ps: nat, max: nat): nat {
    Max(0, ps * max - d.total)
  }

  /** How many more sectors the deadlines could hold. */
  ghost function Room(ds: seq<Info>, ps: nat, max: nat): nat {
    if ds == [] then 0 else Spare(ds[0], ps, max) + Room(ds[1..], ps, max)
  }

  lemma {:induction false} RoomLess(ds: seq<Info>, k: nat, ps: nat, max: nat)
    requires k < |ds| && !MaxPartitionsReached(ds[k], ps, max)
    ensures Room(ds, ps, max) == Room(ds[k := Bump(ds[k])], ps, max) + 1
  {
    var ds' := ds[k := Bump(ds[k])];
    if k == 0 {
      assert ds'[1..] == ds[1..];
    } else {
      assert ds'[1..] == ds[1..][k - 1 := Bump(ds[1..][k - 1])];
      RoomLess(ds[1..], k - 1, ps, max);
    }
  }

  ghost predicate AllFull(ds: seq<Info>, ps: nat, max: nat) {
    forall i :: 0 <= i < |ds| ==> MaxPartitionsReached(ds[i], ps, max)
  }

  lemma {:induction false} NoRoomIff(ds: seq<Info>, ps: nat, max: nat)
    ensures Room(ds, ps, max) == 0 <==> AllFull(ds, ps, max)
  {
    if ds != [] {
      NoRoomIff(ds[1..], ps, max);
      assert forall i :: 0 <= i < |ds[1..]| ==> ds[1..][i] == ds[i + 1];
      assert AllFull(ds, ps, max) <==> MaxPartitionsReached(ds[0], ps, max) && AllFull(ds[1..], ps, max);
    }
  }

  /** The partitions, once compacted, that a deadline filled to its limit would need for one more. It
      does not change while the deadline is filled. */
  function StopLevel(d: Info, ps: nat, max: nat): nat
    requires ps > 0
  {
    CeilDiv(d.live + Spare(d, ps, max) + 1, ps)
  }

  /** The level at which the first deadline refuses. */
  ghost function FirstStop(ds: seq<Info>, ps: nat, max: nat): nat
    requires ps > 0 && ds != []
  {
    if |ds| == 1 then StopLevel(ds[0], ps, max)
    else Min(StopLevel(ds[0], ps, max), FirstStop(ds[1..], ps, max))
  }

  /** What a deadline takes before any refuses: up to the given level, and no more than it can hold. */
  function Takes(d: Info, ps: nat, max: nat, level: nat): nat {
    Min(Spare(d, ps, max), Max(0, level * ps - d.live))
  }

  ghost function SumTakes(ds: seq<Info>, ps: nat, max: nat, level: nat): nat {
    if ds == [] then 0 else Takes(ds[0], ps, max, level) + SumTakes(ds[1..], ps, max, level)
  }

  /** How many sectors the deadlines take before one is refused. */
  ghost function Capacity(ds: seq<Info>, ps: nat, max: nat): nat
    requires ps > 0 && ds != []
  {
    SumTakes(ds, ps, max, FirstStop(ds, ps, max))
  }

  lemma {:induction false} FirstStopLeast(ds: seq<Info>, ps: nat, max: nat) returns (at: nat)
    requires ps > 0 && ds != []
    ensures at < |ds| && FirstStop(ds, ps, max) == StopLevel(ds[at], ps, max)
    ensures forall i :: 0 <= i < |ds| ==> FirstStop(ds, ps, max) <= StopLevel(ds[i], ps, max)
  {
    hide StopLevel;
    at := 0;
    if |ds| > 1 {
      var rest := FirstStopLeast(ds[1..], ps, max);
      assert forall i :: 0 < i < |ds| ==> ds[i] == ds[1..][i - 1];
      if FirstStop(ds[1..], ps, max) < StopLevel(ds[0], ps, max) {
        at := rest + 1;
      }
    }
  }

  lemma {:induction false} FirstStopStays(ds: seq<Info>, k: nat, ps: nat, max: nat)
    requires ps > 0 && k < |ds| && !MaxPartitionsReached(ds[k], ps, max)
    ensures FirstStop(ds[k := Bump(ds[k])], ps, max) == FirstStop(ds, ps, max)
  {
    hide CeilDiv;
    var ds' := ds[k := Bump(ds[k])];
    if k == 0 {
      assert ds'[1..] == ds[1..];
    } else {
      assert ds'[1..] == ds[1..][k - 1 := Bump(ds[1..][k - 1])];
      FirstStopStays(ds[1..], k - 1, ps, max);
    }
  }

  lemma {:induction false} SumTakesLess(ds: seq<Info>, k: nat, ps: nat, max: nat, level: nat)
    requires k < |ds| && !MaxPartitionsReached(ds[k], ps, max) && ds[k].live < level * ps
    ensures SumTakes(ds, ps, max, level) == SumTakes(ds[k := Bump(ds[k])], ps, max, level) + 1
  {
    var ds' := ds[k := Bump(ds[k])];
    if k == 0 {
      assert ds'[1..] == ds[1..];
    } else {
      assert ds'[1..] == ds[1..][k - 1 := Bump(ds[1..][k - 1])];
      SumTakesLess(ds[1..], k - 1, ps, max, level);
    }
  }

  lemma {:induction false} NothingTaken(ds: seq<Info>, ps: nat, max: nat, level: nat)
    requires forall i :: 0 <= i < |ds| ==> Takes(ds[i], ps, max, level) == 0
    ensures SumTakes(ds, ps, max, level) == 0
  {
    hide Takes;
    if ds != [] {
      assert forall i :: 0 <= i < |ds[1..]| ==> ds[1..][i] == ds[i + 1];
      NothingTaken(ds[1..], ps, max, level);
    }
  }

  /** The least deadline is below the level at which the first refuses. */
  lemma LeastBelowStop(ds: seq<Info>, k: nat, ps: nat, max: nat)
    requires ps > 0 && k < |ds| && IsLeast(ds, k, ps) && !MaxPartitionsReached(ds[k], ps, max)
    ensures ds[k].live < FirstStop(ds, ps, max) * ps
  {
    hide Compare, IsLeast, FirstStop, MaxPartitionsReached, CeilDiv;
    var at := FirstStopLeast(ds, ps, max);
    LeastCompact(ds, k, ps, at);
    CeilMonotonic(ds[at].live + 1, ds[at].live + Spare(ds[at], ps, max) + 1, ps);
    CompactIs(ds[k], ps, FirstStop(ds, ps, max));
  }

  /** A deadline at its limit loses every tie against one below it. */
  lemma FullLosesTies(ds: seq<Info>, k: nat, ps: nat, max: nat, j: nat)
    requires ps > 0 && k < |ds| && IsLeast(ds, k, ps) && j < |ds|
    requires MaxPartitionsReached(ds[k], ps, max) && !MaxPartitionsReached(ds[j], ps, max)
    ensures CompactAfter(ds[k], ps) < CompactAfter(ds[j], ps)
  {
    hide CeilDiv, IsFullNow;
    assert Compare(ds[k], ds[j], ps) <= 0;
    CeilDivLeast(ds[k].total + 1, ps, max);
    CeilDivLeast(ds[j].total + 1, ps, max);
  }

  /** The next sector is refused if and only if the deadlines take no more. */
  lemma RefusedIff(ds: seq<Info>, k: nat, ps: nat, max: nat)
    requires ps > 0 && k < |ds| && IsLeast(ds, k, ps)
    ensures MaxPartitionsReached(ds[k], ps, max) <==> Capacity(ds, ps, max) == 0
  {
    hide Compare, IsLeast, FirstStop, CeilDiv, SumTakes;
    var level := FirstStop(ds, ps, max);
    if MaxPartitionsReached(ds[k], ps, max) {
      var at := FirstStopLeast(ds, ps, max);
      forall j | 0 <= j < |ds|
        ensures Takes(ds[j], ps, max, level) == 0
      {
        if !MaxPartitionsReached(ds[j], ps, max) {
          FullLosesTies(ds, k, ps, max, j);
          CompactIs(ds[j], ps, level);
        }
      }
      NothingTaken(ds, ps, max, level);
    } else {
      LeastBelowStop(ds, k, ps, max);
      SumTakesLess(ds, k, ps, max, level);
    }
  }

  lemma CapacityLess(ds: seq<Info>, k: nat, ps: nat, max: nat)
    requires ps > 0 && k < |ds| && IsLeast(ds, k, ps) && !MaxPartitionsReached(ds[k], ps, max)
    ensures Capacity(ds, ps, max) == Capacity(ds[k := Bump(ds[k])], ps, max) + 1
  {
    hide IsLeast, FirstStop, SumTakes, MaxPartitionsReached;
    LeastBelowStop(ds, k, ps, max);
    FirstStopStays(ds, k, ps, max);
    SumTakesLess(ds, k, ps, max, FirstStop(ds, ps, max));
  }

  /** A deadline can be filled before any refuses. */
  predicate FillsUp(d: Info, ps: nat, max: nat, level: nat) {
    Spare(d, ps, max) == 0 || d.live + Spare(d, ps, max) <= level * ps
  }

  lemma {:induction false} TakesAllIff(ds: seq<Info>, ps: nat, max: nat, level: nat)
    ensures SumTakes(ds, ps, max, level) <= Room(ds, ps, max)
    ensures SumTakes(ds, ps, max, level) == Room(ds, ps, max)
       <==> forall i :: 0 <= i < |ds| ==> FillsUp(ds[i], ps, max, level)
  {
    if ds != [] {
      TakesAllIff(ds[1..], ps, max, level);
      assert forall i :: 0 <= i < |ds[1..]| ==> ds[1..][i] == ds[i + 1];
      assert (forall i :: 0 <= i < |ds| ==> FillsUp(ds[i], ps, max, level)) <==>
               FillsUp(ds[0], ps, max, level) && forall i :: 0 <= i < |ds[1..]| ==> FillsUp(ds[1..][i], ps, max, level);
    }
  }

  /** All the room there is can be used if and only if each deadline with room can be filled before any
      refuses. */
  lemma RoomSufficesIff(ds: seq<Info>, ps: nat, max: nat)
    requires ps > 0 && ds != []
    ensures Capacity(ds, ps, max) <= Room(ds, ps, max)
    ensures Capacity(ds, ps, max) == Room(ds, ps, max)
       <==> forall i :: 0 <= i < |ds| ==> FillsUp(ds[i], ps, max, FirstStop(ds, ps, max))
  {
    hide SumTakes, FirstStop, Room, FillsUp;
    TakesAllIff(ds, ps, max, FirstStop(ds, ps, max));
  }

  /** No deadline has dead sectors that compacting it could make room of. */
  ghost predicate Clean(ds: seq<Info>, ps: nat, max: nat) {
    forall i :: 0 <= i < |ds| ==> ds[i].live == ds[i].total || ps * max <= ds[i].live <= ds[i].total
  }

  /** It is enough if no deadline has dead sectors to make room of. */
  lemma RoomSufficesWhenClean(ds: seq<Info>, ps: nat, max: nat)
    requires ps > 0 && ds != [] && Clean(ds, ps, max)
    ensures Capacity(ds, ps, max) == Room(ds, ps, max)
  {
    hide SumTakes, FirstStop, Room, CeilDiv;
    var level := FirstStop(ds, ps, max);
    var at := FirstStopLeast(ds, ps, max);
    CeilDivLeast(ds[at].live + Spare(ds[at], ps, max) + 1, ps, max);
    assert level > max;
    ProductMonotonic(ps, max, level);
    TakesAllIff(ds, ps, max, level);
  }

  /** With dead sectors the least deadline can be full while another has room, whatever the size of a
      partition and the limit, so long as the limit is not a single one. */
  lemma FullWithRoomElsewhere(ps: nat, max: nat)
    requires ps > 0 && max >= 2
    ensures var ds := [Info(0, 0, ps * max), Info(1, ps, ps)];
            && IsLeast(ds, 0, ps) && MaxPartitionsReached(ds[0], ps, max) && !MaxPartitionsReached(ds[1], ps, max)
            && Capacity(ds, ps, max) < Room(ds, ps, max)
  {
    hide CeilDiv, Capacity, Room, IsFullNow;
    var ds := [Info(0, 0, ps * max), Info(1, ps, ps)];
    CeilDivLeast(1, ps, 1);
    CeilDivLeast(ps + 1, ps, 1);
    CompareIsOrder(ds[0], ds[0], ds[0], ps);
    assert Compare(ds[0], ds[1], ps) < 0;
    ProductMonotonic(ps, 2, max);
    RefusedIff(ds, 0, ps, max);
    NoRoomIff(ds, ps, max);
  }

  // ---- the algorithm ----

  datatype Deadline = Deadline(live: nat, total: nat)

  /** The deadlines that can take sectors now, by index. */
  ghost function Present(deadlines: seq<Option<Deadline>>): seq<Info> {
    if deadlines == [] then []
    else
      var n := |deadlines| - 1;
      Present(deadlines[..n]) +
      match deadlines[n]
      case None => []
      case Some(d) => [Info(n, d.live, d.total)]
  }

  lemma {:induction false} PresentIs(deadlines: seq<Option<Deadline>>)
    ensures var ds := Present(deadlines);
            && (forall i :: 0 <= i < |ds| ==> ds[i].index < |deadlines| && deadlines[ds[i].index].Some?)
            && (forall i, j :: 0 <= i < j < |ds| ==> ds[i].index != ds[j].index)
  {
    if deadlines != [] {
      var n := |deadlines| - 1;
      var ds, front := Present(deadlines), Present(deadlines[..n]);
      PresentIs(deadlines[..n]);
      forall i | 0 <= i < |ds|
        ensures ds[i].index < |deadlines| && deadlines[ds[i].index].Some?
      {
        PresentAt(deadlines, i);
      }
      forall i | 0 <= i < |front|
        ensures ds[i] == front[i] && ds[i].index < n
      {
        PresentAt(deadlines[..n], i);
      }
    }
  }

  /** The sectors that went to deadline `d`, in order. */
  ghost function Received<S>(sectors: seq<S>, chosen: seq<nat>, d: nat): seq<S>
    requires |chosen| == |sectors|
  {
    if sectors == [] then []
    else
      var n := |sectors| - 1;
      Received(sectors[..n], chosen[..n], d) + if chosen[n] == d then [sectors[n]] else []
  }

  /** The deadlines once they have received their sectors. */
  ghost predicate After<S>(ds: seq<Info>, after: seq<Info>, changes: seq<seq<S>>) {
    && |after| == |ds|
    && forall i :: 0 <= i < |ds| ==>
                     && ds[i].index < |changes|
                     && after[i] == Info(ds[i].index, ds[i].live + |changes[ds[i].index]|,
                                         ds[i].total + |changes[ds[i].index]|)
  }

  method CollectDeadlines(deadlines: seq<Option<Deadline>>) returns (ds: seq<Info>)
    ensures ds == Present(deadlines)
  {
    ds := [];
    assert deadlines[..0] == [];
    for n := 0 to |deadlines|
      invariant ds == Present(deadlines[..n])
    {
      assert deadlines[..n + 1][..n] == deadlines[..n];
      if deadlines[n].Some? {
        ds := ds + [Info(n, deadlines[n].value.live, deadlines[n].value.total)];
      }
    }
    assert deadlines[..|deadlines|] == deadlines;
  }

  /** The top of the heap. */
  method FindLeast(ds: seq<Info>, ps: nat) returns (k: nat)
    requires ps > 0 && ds != []
    ensures IsLeast(ds, k, ps)
  {
    hide Compare;
    k := 0;
    CompareIsOrder(ds[0], ds[0], ds[0], ps);
    for n := 1 to |ds|
      invariant k < n && forall j :: 0 <= j < n ==> Compare(ds[k], ds[j], ps) <= 0
    {
      if Compare(ds[n], ds[k], ps) < 0 {
        forall j | 0 <= j < n
          ensures Compare(ds[n], ds[j], ps) <= 0
        {
          CompareIsOrder(ds[n], ds[k], ds[j], ps);
        }
        CompareIsOrder(ds[n], ds[n], ds[n], ps);
        k := n;
      } else {
        CompareIsOrder(ds[n], ds[k], ds[k], ps);
      }
    }
  }

  /** A deadline once those chosen have each received a sector. */
  ghost function Standing(deadlines: seq<Option<Deadline>>, chosen: seq<nat>, i: nat): Info
    requires i < |deadlines| && deadlines[i].Some?
  {
    var n := multiset(chosen)[i];
    Info(i, deadlines[i].value.live + n, deadlines[i].value.total + n)
  }

  ghost predicate IsPresent(deadlines: seq<Option<Deadline>>, i: nat) {
    i < |deadlines| && deadlines[i].Some?
  }

  /** Each sector went to the deadline that came first at the time. */
  ghost predicate FirstChoices(deadlines: seq<Option<Deadline>>, chosen: seq<nat>, ps: nat)
    requires ps > 0
  {
    forall t: nat :: t < |chosen| ==>
      && IsPresent(deadlines, chosen[t])
      && forall i: nat :: IsPresent(deadlines, i) && i != chosen[t] ==>
           ComesFirst(Standing(deadlines, chosen[..t], chosen[t]), Standing(deadlines, chosen[..t], i), ps)
  }

  lemma FirstAt(deadlines: seq<Option<Deadline>>, chosen: seq<nat>, ps: nat, t: nat, i: nat)
    requires ps > 0 && FirstChoices(deadlines, chosen, ps) && t < |chosen| && IsPresent(deadlines, i)
    ensures IsPresent(deadlines, chosen[t])
    ensures i != chosen[t] ==>
              ComesFirst(Standing(deadlines, chosen[..t], chosen[t]), Standing(deadlines, chosen[..t], i), ps)
  {
    hide ComesFirst, Standing;
  }

  lemma StandingAfter(deadlines: seq<Option<Deadline>>, chosen: seq<nat>, t: nat, i: nat)
    requires t < |chosen| && IsPresent(deadlines, i)
    ensures Standing(deadlines, chosen[..t + 1], i)
         == if i == chosen[t] then Bump(Standing(deadlines, chosen[..t], i)) else Standing(deadlines, chosen[..t], i)
  {
    assert chosen[..t + 1] == chosen[..t] + [chosen[t]];
  }

  lemma NoTurningAway(a: Info, b: Info, ps: nat)
    requires ps > 0 && a.live == a.total && b.live == b.total && ComesFirst(a, b, ps)
    requires Bump(a).total % ps != 0
    ensures !ComesFirst(b, Bump(a), ps)
  {
    hide ComesFirst;
    KeepsFilling(a, b, ps);
    NotBothFirst(Bump(a), b, ps);
  }

  /** Without dead sectors, the partition that a sector opens or leaves open receives the next one too. */
  lemma RunsOfSectors(deadlines: seq<Option<Deadline>>, chosen: seq<nat>, ps: nat, t: nat)
    requires ps > 0 && FirstChoices(deadlines, chosen, ps) && t + 1 < |chosen|
    requires forall i: nat :: IsPresent(deadlines, i) ==> deadlines[i].value.live == deadlines[i].value.total
    requires Standing(deadlines, chosen[..t + 1], chosen[t]).total % ps != 0
    ensures chosen[t + 1] == chosen[t]
  {
    var c, d := chosen[t], chosen[t + 1];
    if d != c {
      hide ComesFirst, FirstChoices;
      var a, b := Standing(deadlines, chosen[..t], c), Standing(deadlines, chosen[..t], d);
      assert a.live == a.total && b.live == b.total;
      hide Standing, Bump;
      FirstAt(deadlines, chosen, ps, t, d);
      FirstAt(deadlines, chosen, ps, t + 1, c);
      StandingAfter(deadlines, chosen, t, c);
      StandingAfter(deadlines, chosen, t, d);
      NoTurningAway(a, b, ps);
    }
  }

  lemma NotBothFirst(a: Info, b: Info, ps: nat)
    requires ps > 0 && ComesFirst(a, b, ps)
    ensures !ComesFirst(b, a, ps)
  {
  }

  /** The heap holds every deadline present, as it stands. */
  ghost predicate Standings(deadlines: seq<Option<Deadline>>, chosen: seq<nat>, ds: seq<Info>) {
    && (forall j: nat :: j < |ds| ==>
          IsPresent(deadlines, ds[j].index) && ds[j] == Standing(deadlines, chosen, ds[j].index))
    && (forall i: nat :: IsPresent(deadlines, i) ==> Holds(ds, i))
    && (forall j, k :: 0 <= j < k < |ds| ==> ds[j].index != ds[k].index)
  }

  ghost predicate Holds(ds: seq<Info>, i: nat) {
    exists j: nat :: j < |ds| && ds[j].index == i
  }

  lemma {:induction false} HoldsPresent(deadlines: seq<Option<Deadline>>, i: nat)
    requires IsPresent(deadlines, i)
    ensures Holds(Present(deadlines), i)
  {
    var n := |deadlines| - 1;
    var front := Present(deadlines[..n]);
    if i < n {
      HoldsPresent(deadlines[..n], i);
      var j: nat :| j < |front| && front[j].index == i;
      assert Present(deadlines)[j].index == i;
    } else {
      assert Present(deadlines)[|front|].index == i;
    }
  }

  lemma StandingsStart(deadlines: seq<Option<Deadline>>)
    ensures Standings(deadlines, [], Present(deadlines))
  {
    hide Present;
    PresentIs(deadlines);
    forall j: nat | j < |Present(deadlines)| { PresentAt(deadlines, j); }
    forall i: nat | IsPresent(deadlines, i) { HoldsPresent(deadlines, i); }
  }

  lemma ChooseMore(deadlines: seq<Option<Deadline>>, chosen: seq<nat>, ds: seq<Info>, k: nat, ps: nat)
    requires ps > 0 && Standings(deadlines, chosen, ds) && IsLeast(ds, k, ps) && FirstChoices(deadlines, chosen, ps)
    ensures k < |ds| && FirstChoices(deadlines, chosen + [ds[k].index], ps)
    ensures Standings(deadlines, chosen + [ds[k].index], ds[k := Bump(ds[k])])
  {
    hide ComesFirst, Compare;
    var c := ds[k].index;
    var more := chosen + [c];
    forall t: nat | t < |more|
      ensures IsPresent(deadlines, more[t])
      ensures forall i: nat :: IsPresent(deadlines, i) && i != more[t] ==>
                ComesFirst(Standing(deadlines, more[..t], more[t]), Standing(deadlines, more[..t], i), ps)
    {
      assert more[..t] == chosen[..t];
      if t == |chosen| {
        assert chosen[..t] == chosen;
        forall i: nat | IsPresent(deadlines, i) && i != c
          ensures ComesFirst(ds[k], Standing(deadlines, chosen, i), ps)
        {
          assert Holds(ds, i);
          var j: nat :| j < |ds| && ds[j].index == i;
          CompareMeans(ds[k], ds[j], ps);
          CompareIsOrder(ds[k], ds[j], ds[k], ps);
        }
      }
    }
    StandingsMore(deadlines, chosen, ds, k);
  }

  lemma StandingsMore(deadlines: seq<Option<Deadline>>, chosen: seq<nat>, ds: seq<Info>, k: nat)
    requires k < |ds| && Standings(deadlines, chosen, ds)
    ensures Standings(deadlines, chosen + [ds[k].index], ds[k := Bump(ds[k])])
  {
    var ds' := ds[k := Bump(ds[k])];
    forall i: nat | IsPresent(deadlines, i) ensures Holds(ds', i) {
      assert Holds(ds, i);
      var j: nat :| j < |ds| && ds[j].index == i;
      assert ds'[j].index == i;
    }
  }

  /** Every sector went to one of the deadlines present, and each deadline got its own in order. */
  ghost predicate Distributed<S>(
      deadlines: seq<Option<Deadline>>, sectors: seq<S>, chosen: seq<nat>, changes: seq<seq<S>>)
  {
    && |chosen| == |sectors| && |changes| == |deadlines|
    && (forall i :: 0 <= i < |chosen| ==> chosen[i] < |deadlines| && deadlines[chosen[i]].Some?)
    && (forall d :: 0 <= d < |changes| ==> changes[d] == Received(sectors, chosen, d))
  }

  ghost predicate WithinLimit<S>(deadlines: seq<Option<Deadline>>, changes: seq<seq<S>>, limit: int) {
    && |changes| == |deadlines|
    && forall d :: 0 <= d < |changes| && changes[d] != [] ==>
                     deadlines[d].Some? && deadlines[d].value.total + |changes[d]| <= limit
  }

  /** What holds after every sector of the greedy assignment. */
  ghost predicate Greedy(before: seq<Info>, ds: seq<Info>, ps: nat, max: nat, t: nat)
    requires ps > 0
  {
    && before != [] && |ds| == |before| && SumLive(ds) == SumLive(before) + t
    && MostCompact(ds, ps) <= Max(MostCompact(before, ps), CeilDiv(SumLive(ds), |before| * ps))
    && Room(ds, ps, max) + t == Room(before, ps, max)
    && Capacity(ds, ps, max) + t == Capacity(before, ps, max)
  }

  lemma GreedyMore(before: seq<Info>, ds: seq<Info>, ps: nat, max: nat, t: nat, k: nat)
    requires ps > 0 && Greedy(before, ds, ps, max, t) && k < |ds| && IsLeast(ds, k, ps)
    requires !MaxPartitionsReached(ds[k], ps, max)
    ensures Greedy(before, ds[k := Bump(ds[k])], ps, max, t + 1)
  {
    hide Compare, MostCompact, SumLive, CeilDiv, Room, Capacity, IsLeast, MaxPartitionsReached;
    SumLiveAdd(ds, k);
    GreedyStep(ds, k, ps, MostCompact(before, ps));
    RoomLess(ds, k, ps, max);
    CapacityLess(ds, k, ps, max);
  }

  lemma GreedyStuck(before: seq<Info>, ds: seq<Info>, ps: nat, max: nat, t: nat, k: nat)
    requires ps > 0 && Greedy(before, ds, ps, max, t) && k < |ds| && IsLeast(ds, k, ps)
    requires MaxPartitionsReached(ds[k], ps, max)
    ensures Capacity(before, ps, max) == t
    ensures AllFull(ds, ps, max) <==> Capacity(before, ps, max) == Room(before, ps, max)
  {
    hide Compare, MostCompact, SumLive, CeilDiv, Room, Capacity, IsLeast, MaxPartitionsReached, AllFull;
    RefusedIff(ds, k, ps, max);
    NoRoomIff(ds, ps, max);
  }

  lemma GreedyDone(before: seq<Info>, ds: seq<Info>, ps: nat, max: nat, t: nat)
    requires ps > 0 && Greedy(before, ds, ps, max, t)
    requires forall i :: 0 <= i < |ds| ==> ds[i].live >= before[i].live
    ensures Adds(before, ds, t) && MostCompact(ds, ps) == Optimum(before, ps, t) && t <= Capacity(before, ps, max)
  {
    hide MostCompact, SumLive, CeilDiv, Room, Capacity;
    Unbeatable(before, ds, ps, t);
  }

  /** Assigns every sector to the deadline that comes first for it. The result is optimal: no other
      assignment makes do with fewer partitions in the fullest deadline. It succeeds if and only if the
      deadlines take that many sectors before one refuses. A refusal comes after exactly so many, and is
      right that all deadlines are full if and only if that is all the room there was. */
  method AssignDeadlines<S>(max: nat, ps: nat, deadlines: seq<Option<Deadline>>, sectors: seq<S>)
      returns (ok: bool, changes: seq<seq<S>>, ghost chosen: seq<nat>, ghost after: seq<Info>)
    requires ps > 0 && Present(deadlines) != []
    ensures ok <==> |sectors| <= Capacity(Present(deadlines), ps, max)
    ensures FirstChoices(deadlines, chosen, ps)
    ensures ok ==> Distributed(deadlines, sectors, chosen, changes) && WithinLimit(deadlines, changes, ps * max)
    ensures ok ==> After(Present(deadlines), after, changes) && Adds(Present(deadlines), after, |sectors|)
    ensures ok ==> MostCompact(after, ps) == Optimum(Present(deadlines), ps, |sectors|)
    ensures !ok ==> After(Present(deadlines), after, changes) && |chosen| == Capacity(Present(deadlines), ps, max)
    ensures ok ==> |sectors| <= Room(Present(deadlines), ps, max)
    ensures Clean(Present(deadlines), ps, max) ==> (ok <==> |sectors| <= Room(Present(deadlines), ps, max))
    ensures !ok ==> (AllFull(after, ps, max) <==>
                       Capacity(Present(deadlines), ps, max) == Room(Present(deadlines), ps, max))
  {
    hide Compare, MostCompact, IsLeast, Greedy, Distributed, WithinLimit, AllFull, Adds, Present, Optimum, Room,
      Capacity, MaxPartitionsReached, Clean, FillsUp, FirstChoices, Standings;
    ghost var before := Present(deadlines);
    RoomSufficesIff(before, ps, max);
    if Clean(before, ps, max) {
      RoomSufficesWhenClean(before, ps, max);
    }
    var ds := CollectDeadlines(deadlines);
    ok, changes, chosen := true, seq(|deadlines|, i => []), [];
    after := ds;
    Nothing(deadlines, changes, ps, max);
    StandingsStart(deadlines);
    NoChoices(deadlines, ps);
    assert sectors[..0] == [];
    for t := 0 to |sectors|
      invariant ok && |changes| == |deadlines| && |chosen| == t
      invariant Distributed(deadlines, sectors[..t], chosen, changes) && WithinLimit(deadlines, changes, ps * max)
      invariant After(before, ds, changes) && Greedy(before, ds, ps, max, t)
      invariant Standings(deadlines, chosen, ds) && FirstChoices(deadlines, chosen, ps)
    {
      var k := FindLeast(ds, ps);
      LeastIndex(ds, k, ps);
      if MaxPartitionsReached(ds[k], ps, max) {
        GreedyStuck(before, ds, ps, max, t, k);
        return false, changes, chosen, ds;
      }
      var d := ds[k].index;
      GreedyMore(before, ds, ps, max, t, k);
      ChooseMore(deadlines, chosen, ds, k, ps);
      PlaceMore(deadlines, sectors, chosen, changes, t, before, ds, k, ps, max);
      changes := changes[d := changes[d] + [sectors[t]]];
      chosen := chosen + [d];
      ds := ds[k := Bump(ds[k])];
    }
    assert sectors[..|sectors|] == sectors;
    after := ds;
    GreedyDone(before, after, ps, max, |sectors|);
  }

  lemma NoChoices(deadlines: seq<Option<Deadline>>, ps: nat)
    requires ps > 0
    ensures FirstChoices(deadlines, [], ps)
  {
  }

  lemma Nothing<S>(deadlines: seq<Option<Deadline>>, changes: seq<seq<S>>, ps: nat, max: nat)
    requires ps > 0 && Present(deadlines) != [] && |changes| == |deadlines|
    requires forall d :: 0 <= d < |changes| ==> changes[d] == []
    ensures var ds := Present(deadlines);
            && Distributed(deadlines, [], [], changes) && WithinLimit(deadlines, changes, ps * max)
            && After(ds, ds, changes) && Greedy(ds, ds, ps, max, 0)
  {
    hide MostCompact, SumLive, CeilDiv, Room, Capacity, Present;
    ReceivedNothing<S>();
    PresentIs(deadlines);
  }

  lemma PlaceMore<S>(
      deadlines: seq<Option<Deadline>>, sectors: seq<S>, chosen: seq<nat>, changes: seq<seq<S>>, t: nat,
      before: seq<Info>, ds: seq<Info>, k: nat, ps: nat, max: nat)
    requires before == Present(deadlines) && After(before, ds, changes) && t < |sectors| && k < |ds|
    requires Distributed(deadlines, sectors[..t], chosen, changes) && WithinLimit(deadlines, changes, ps * max)
    requires !MaxPartitionsReached(ds[k], ps, max)
    ensures var d := ds[k].index;
            d < |changes| &&
            var changes' := changes[d := changes[d] + [sectors[t]]];
            && Distributed(deadlines, sectors[..t + 1], chosen + [d], changes')
            && WithinLimit(deadlines, changes', ps * max)
            && After(before, ds[k := Bump(ds[k])], changes')
  {
    hide Received, Present;
    PresentIs(deadlines);
    PresentAt(deadlines, k);
    ReceivedMore(sectors, chosen, t, ds[k].index);
  }

  lemma LeastIndex(ds: seq<Info>, k: nat, ps: nat)
    requires ps > 0 && IsLeast(ds, k, ps)
    ensures k < |ds|
  {
  }

  lemma ReceivedNothing<S>()
    ensures forall d :: Received<S>([], [], d) == []
  {
  }

  lemma ReceivedMore<S>(sectors: seq<S>, chosen: seq<nat>, t: nat, d: nat)
    requires t < |sectors| && |chosen| == t
    ensures forall i :: Received(sectors[..t + 1], chosen + [d], i)
                     == Received(sectors[..t], chosen, i) + if i == d then [sectors[t]] else []
  {
    assert sectors[..t + 1][..t] == sectors[..t] && (chosen + [d])[..t] == chosen;
  }

  lemma {:induction false} PresentAt(deadlines: seq<Option<Deadline>>, k: nat)
    requires k < |Present(deadlines)|
    ensures var d := Present(deadlines)[k];
            && d.index < |deadlines| && deadlines[d.index].Some?
            && d == Info(d.index, deadlines[d.index].value.live, deadlines[d.index].value.total)
    decreases deadlines
  {
    var n := |deadlines| - 1;
    if k < |Present(deadlines[..n])| {
      PresentAt(deadlines[..n], k);
    }
  }
}
