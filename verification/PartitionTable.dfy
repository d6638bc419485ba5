/** The partitions of a deadline, what they add up to, and how they are renumbered when some are cut. */
module PartitionTable {
  import opened ExpirationBook

  datatype Partition = Partition(
    sectors: set<SectorNumber>, terminated: set<SectorNumber>, faults: set<SectorNumber>,
    unproven: set<SectorNumber>, livePower: Power)
  {
    function Live(): set<SectorNumber> {
      sectors - terminated
    }
  }

  const NEW_PARTITION := Partition({}, {}, {}, {}, NO_POWER)

  ghost predicate PartitionOk(p: Partition, infos: Sectors) {
    && p.terminated <= p.sectors && p.faults <= p.Live() && p.unproven <= p.Live()
    && p.Live() <= infos.Keys && p.livePower == Total(infos, p.Live()).power
  }

  ghost predicate TableOk(ps: seq<Partition>, infos: Sectors) {
    && (forall i :: 0 <= i < |ps| ==> PartitionOk(ps[i], infos))
    && (forall i, j :: 0 <= i < j < |ps| ==> ps[i].sectors !! ps[j].sectors)
  }

  /** Sectors that are added to a partition are live and not faulty. */
  ghost function Grow(p: Partition, g: set<SectorNumber>, infos: Sectors, proven: bool): Partition {
    p.(sectors := p.sectors + g, livePower := p.livePower.Plus(Total(infos, g).power),
       unproven := if proven then p.unproven else p.unproven + g)
  }

  lemma GrowOk(p: Partition, g: set<SectorNumber>, infos: Sectors, proven: bool)
    requires PartitionOk(p, infos) && g !! p.sectors && g <= infos.Keys
    ensures PartitionOk(Grow(p, g, infos, proven), infos)
    ensures Grow(p, g, infos, proven).Live() == p.Live() + g
  {
    hide Total;
    assert Grow(p, g, infos, proven).Live() == p.Live() + g;
    TotalUnion(infos, p.Live(), g);
  }

  lemma GrowTwice(p: Partition, g: set<SectorNumber>, h: set<SectorNumber>, infos: Sectors, proven: bool)
    requires g !! h
    ensures Grow(Grow(p, g, infos, proven), h, infos, proven) == Grow(p, g + h, infos, proven)
  {
    hide Total;
    TotalUnion(infos, g, h);
    assert p.sectors + g + h == p.sectors + (g + h) && p.unproven + g + h == p.unproven + (g + h);
  }

  lemma GrowNone(p: Partition, infos: Sectors, proven: bool)
    ensures Grow(p, {}, infos, proven) == p
  {
    hide Total;
    NoTotal(infos);
  }

  lemma NewOk(infos: Sectors)
    ensures PartitionOk(NEW_PARTITION, infos)
  {
    hide Total;
    NoTotal(infos);
    assert NEW_PARTITION.Live() == {};
  }

  // ---- what partitions add up to ----

  datatype Tally = Tally(live: int, total: int, power: Power) {
    function Plus(t: Tally): Tally {
      Tally(live + t.live, total + t.total, power.Plus(t.power))
    }

    function Minus(t: Tally): Tally {
      Tally(live - t.live, total - t.total, power.Minus(t.power))
    }
  }

  const NO_TALLY := Tally(0, 0, NO_POWER)

  function TallyOf(p: Partition): Tally {
    Tally(|p.Live()|, |p.sectors|, p.livePower)
  }

  ghost function TallyAll(ps: seq<Partition>): Tally {
    if ps == [] then NO_TALLY else TallyOf(ps[0]).Plus(TallyAll(ps[1..]))
  }

  lemma {:induction false} TallyJoin(a: seq<Partition>, b: seq<Partition>)
    ensures TallyAll(a + b) == TallyAll(a).Plus(TallyAll(b))
  {
    hide TallyOf;
    if a == [] {
      assert a + b == b;
    } else {
      assert (a + b)[1..] == a[1..] + b;
      TallyJoin(a[1..], b);
    }
  }

  lemma NoTallyOf()
    ensures TallyAll([]) == NO_TALLY
  {
  }

  lemma TallyMore(ps: seq<Partition>, p: Partition)
    ensures TallyAll(ps + [p]) == TallyAll(ps).Plus(TallyOf(p))
  {
    hide TallyOf;
    TallyJoin(ps, [p]);
    assert [p][1..] == [];
  }

  lemma TallySet(ps: seq<Partition>, i: nat, p: Partition)
    requires i < |ps|
    ensures TallyAll(ps[i := p]) == TallyAll(ps).Minus(TallyOf(ps[i])).Plus(TallyOf(p))
  {
    hide TallyOf, TallyAll;
    var a, b := ps[..i], ps[i + 1..];
    assert ps == a + [ps[i]] + b && ps[i := p] == a + [p] + b;
    TallyMore(a, ps[i]);
    TallyMore(a, p);
    TallyJoin(a + [ps[i]], b);
    TallyJoin(a + [p], b);
  }

  lemma GrowTally(p: Partition, g: set<SectorNumber>, infos: Sectors, proven: bool)
    requires PartitionOk(p, infos) && g !! p.sectors
    ensures TallyOf(Grow(p, g, infos, proven)) == TallyOf(p).Plus(Tally(|g|, |g|, Total(infos, g).power))
  {
    hide Total, Partition.Live;
    GrowLive(p, g, infos, proven);
    CountUnion(p.Live(), g);
    CountUnion(p.sectors, g);
  }

  lemma GrowLive(p: Partition, g: set<SectorNumber>, infos: Sectors, proven: bool)
    requires g !! p.sectors && p.terminated <= p.sectors
    ensures Grow(p, g, infos, proven).Live() == p.Live() + g && p.Live() !! g
  {
  }

  lemma CountUnion(a: set<SectorNumber>, b: set<SectorNumber>)
    requires a !! b
    ensures |a + b| == |a| + |b|
  {
  }

  ghost function AllSectors(ps: seq<Partition>): set<SectorNumber> {
    set i, n | 0 <= i < |ps| && n in ps[i].sectors :: n
  }

  ghost function AllLive(ps: seq<Partition>): set<SectorNumber> {
    set i, n | 0 <= i < |ps| && n in ps[i].Live() :: n
  }

  // ---- cutting ----

  /** The number a kept partition has once the cut ones are gone: how many are kept before it. */
  function Rank(i: nat, cut: set<nat>): nat {
    if i == 0 then 0 else Rank(i - 1, cut) + if i - 1 in cut then 0 else 1
  }

  ghost function Kept(ps: seq<Partition>, cut: set<nat>): seq<Partition> {
    if ps == [] then []
    else
      var n := |ps| - 1;
      Kept(ps[..n], cut) + if n in cut then [] else [ps[n]]
  }

  ghost function Gone(ps: seq<Partition>, cut: set<nat>): seq<Partition> {
    if ps == [] then []
    else
      var n := |ps| - 1;
      Gone(ps[..n], cut) + if n in cut then [ps[n]] else []
  }

  /** Renumbering keeps the order of partitions, and gives every number once. */
  lemma {:induction false} RankRises(i: nat, j: nat, cut: set<nat>)
    requires i < j && i !in cut
    ensures Rank(i, cut) < Rank(j, cut)
    decreases j
  {
    if i < j - 1 {
      RankRises(i, j - 1, cut);
    }
  }

  /** The partition that keeps its place is found at its rank. */
  lemma {:induction false} KeptAt(ps: seq<Partition>, cut: set<nat>, i: nat)
    requires i < |ps| && i !in cut
    ensures |Kept(ps, cut)| == Rank(|ps|, cut)
    ensures Rank(i, cut) < |Kept(ps, cut)| && Kept(ps, cut)[Rank(i, cut)] == ps[i]
    decreases ps
  {
    var n := |ps| - 1;
    KeptCount(ps, cut);
    KeptCount(ps[..n], cut);
    if i < n {
      KeptAt(ps[..n], cut, i);
    }
  }

  lemma {:induction false} KeptCount(ps: seq<Partition>, cut: set<nat>)
    ensures |Kept(ps, cut)| == Rank(|ps|, cut)
    decreases ps
  {
    if ps != [] {
      KeptCount(ps[..|ps| - 1], cut);
    }
  }

  /** Every kept partition was there before. */
  lemma {:induction false} KeptFrom(ps: seq<Partition>, cut: set<nat>, k: nat) returns (i: nat)
    requires k < |Kept(ps, cut)|
    ensures i < |ps| && i !in cut && Rank(i, cut) == k && Kept(ps, cut)[k] == ps[i]
    decreases ps
  {
    var n := |ps| - 1;
    KeptCount(ps[..n], cut);
    if k < |Kept(ps[..n], cut)| {
      i := KeptFrom(ps[..n], cut, k);
    } else {
      i := n;
    }
  }

  lemma {:induction false} KeptAndGone(ps: seq<Partition>, cut: set<nat>)
    ensures TallyAll(ps) == TallyAll(Kept(ps, cut)).Plus(TallyAll(Gone(ps, cut)))
    decreases ps
  {
    hide TallyOf, TallyAll, Kept, Gone;
    CutStep(ps, cut);
    if ps == [] {
      NoTallyOf();
    } else {
      var n := |ps| - 1;
      KeptAndGone(ps[..n], cut);
      assert ps == ps[..n] + [ps[n]];
      TallyMore(ps[..n], ps[n]);
      TallyMore(Gone(ps[..n], cut), ps[n]);
      TallyMore(Kept(ps[..n], cut), ps[n]);
    }
  }

  lemma CutStep(ps: seq<Partition>, cut: set<nat>)
    ensures ps == [] ==> Kept(ps, cut) == [] && Gone(ps, cut) == []
    ensures ps != [] ==>
              var n := |ps| - 1;
              if n in cut then
                Kept(ps, cut) == Kept(ps[..n], cut) && Gone(ps, cut) == Gone(ps[..n], cut) + [ps[n]]
              else
                Kept(ps, cut) == Kept(ps[..n], cut) + [ps[n]] && Gone(ps, cut) == Gone(ps[..n], cut)
  {
  }

  /** Every removed partition was there before. */
  lemma {:induction false} GoneFrom(ps: seq<Partition>, cut: set<nat>, k: nat) returns (i: nat)
    requires k < |Gone(ps, cut)|
    ensures i < |ps| && i in cut && Gone(ps, cut)[k] == ps[i]
    decreases ps
  {
    var n := |ps| - 1;
    if k < |Gone(ps[..n], cut)| {
      i := GoneFrom(ps[..n], cut, k);
    } else {
      i := n;
    }
  }

  lemma {:induction false} GoneApart(ps: seq<Partition>, cut: set<nat>, k: nat, l: nat, infos: Sectors)
    requires TableOk(ps, infos) && k < l < |Gone(ps, cut)|
    ensures Gone(ps, cut)[k].sectors !! Gone(ps, cut)[l].sectors
    decreases ps
  {
    hide PartitionOk;
    var n := |ps| - 1;
    if l < |Gone(ps[..n], cut)| {
      GoneApart(ps[..n], cut, k, l, infos);
    } else {
      var i := GoneFrom(ps[..n], cut, k);
    }
  }

  lemma {:induction false} GoneHas(ps: seq<Partition>, cut: set<nat>, i: nat) returns (k: nat)
    requires i < |ps| && i in cut
    ensures k < |Gone(ps, cut)| && Gone(ps, cut)[k] == ps[i]
    decreases ps
  {
    var n := |ps| - 1;
    if i < n {
      k := GoneHas(ps[..n], cut, i);
    } else {
      k := |Gone(ps[..n], cut)|;
    }
  }

  ghost function AllDead(ps: seq<Partition>): set<SectorNumber> {
    set i, n | 0 <= i < |ps| && n in ps[i].terminated :: n
  }

  /** Cutting splits the sectors between the partitions kept and those gone. */
  lemma CutSectors(ps: seq<Partition>, cut: set<nat>, infos: Sectors)
    requires TableOk(ps, infos)
    ensures TableOk(Kept(ps, cut), infos) && TableSound(Gone(ps, cut))
    ensures AllSectors(Kept(ps, cut)) !! AllSectors(Gone(ps, cut))
    ensures AllSectors(ps) == AllSectors(Kept(ps, cut)) + AllSectors(Gone(ps, cut))
    ensures AllLive(ps) == AllLive(Kept(ps, cut)) + AllLive(Gone(ps, cut))
  {
    hide Kept, Gone, Rank, Partition.Live;
    var kept, gone := Kept(ps, cut), Gone(ps, cut);
    forall k | 0 <= k < |kept|
      ensures PartitionOk(kept[k], infos)
      ensures forall n <- kept[k].sectors :: n in AllSectors(ps)
      ensures forall n <- kept[k].Live() :: n in AllLive(ps)
    {
      var i := KeptFrom(ps, cut, k);
    }
    forall k | 0 <= k < |gone|
      ensures gone[k].terminated <= gone[k].sectors
      ensures forall n <- gone[k].sectors :: n in AllSectors(ps)
      ensures forall n <- gone[k].Live() :: n in AllLive(ps)
    {
      var i := GoneFrom(ps, cut, k);
    }
    forall k, l | 0 <= k < l < |kept|
      ensures kept[k].sectors !! kept[l].sectors
    {
      var i := KeptFrom(ps, cut, k);
      var j := KeptFrom(ps, cut, l);
    }
    forall k, l | 0 <= k < l < |gone|
      ensures gone[k].sectors !! gone[l].sectors
    {
      GoneApart(ps, cut, k, l, infos);
    }
    forall k, l | 0 <= k < |kept| && 0 <= l < |gone|
      ensures kept[k].sectors !! gone[l].sectors
    {
      var i := KeptFrom(ps, cut, k);
      var j := GoneFrom(ps, cut, l);
    }
    forall i | 0 <= i < |ps|
      ensures forall n <- ps[i].sectors :: n in AllSectors(kept) || n in AllSectors(gone)
      ensures forall n <- ps[i].Live() :: n in AllLive(kept) || n in AllLive(gone)
    {
      if i in cut {
        var k := GoneHas(ps, cut, i);
      } else {
        KeptAt(ps, cut, i);
      }
    }
  }

  ghost predicate TableSound(ps: seq<Partition>) {
    && (forall i :: 0 <= i < |ps| ==> ps[i].terminated <= ps[i].sectors)
    && (forall i, j :: 0 <= i < j < |ps| ==> ps[i].sectors !! ps[j].sectors)
  }

  /** Cutting nothing changes nothing. */
  lemma {:induction false} CutNone(ps: seq<Partition>)
    ensures Kept(ps, {}) == ps && Gone(ps, {}) == []
    decreases ps
  {
    hide Kept, Gone;
    CutStep(ps, {});
    if ps != [] {
      CutNone(ps[..|ps| - 1]);
      assert ps == ps[..|ps| - 1] + [ps[|ps| - 1]];
    }
  }

  lemma {:induction false} RankNone(i: nat)
    ensures Rank(i, {}) == i
  {
    if i > 0 {
      RankNone(i - 1);
    }
  }

  /** What cutting does to a set of partition numbers: cut ones go, the others are renumbered. */
  function CutSet(s: set<nat>, cut: set<nat>): set<nat> {
    set i | i in s && i !in cut :: Rank(i, cut)
  }

  // ---- placing sectors ----

  ghost function PutAt(put: map<SectorNumber, nat>, i: nat): set<SectorNumber> {
    set n | n in put && put[n] == i
  }

  ghost function PutMore(put: map<SectorNumber, nat>, g: set<SectorNumber>, i: nat): map<SectorNumber, nat> {
    put + map n | n in g :: i
  }

  ghost function Existing(ps: seq<Partition>, i: nat): Partition {
    if i < |ps| then ps[i] else NEW_PARTITION
  }

  /** A table after sectors were put in given partitions of it, or in new ones behind them. */
  ghost predicate PutIn(
      base: seq<Partition>, ps: seq<Partition>, put: map<SectorNumber, nat>, infos: Sectors, proven: bool)
  {
    && |base| <= |ps|
    && (forall n <- put :: put[n] < |ps|)
    && (forall i :: 0 <= i < |ps| ==> ps[i] == Grow(Existing(base, i), PutAt(put, i), infos, proven))
  }

  /** Fills partition `i`, which may be the next new one. */
  /** A partition has what it had and the sectors put there, which are unproven unless they come proven. */
  lemma PutInMeans(
      base: seq<Partition>, ps: seq<Partition>, put: map<SectorNumber, nat>, infos: Sectors, proven: bool, i: nat,
      n: SectorNumber)
    requires PutIn(base, ps, put, infos, proven) && i < |ps|
    ensures var was := if i < |base| then base[i] else Partition({}, {}, {}, {}, Power(0, 0));
            var here := n in put && put[n] == i;
            && (n in ps[i].sectors <==> n in was.sectors || here)
            && (n in ps[i].unproven <==> n in was.unproven || (here && !proven))
            && ps[i].terminated == was.terminated && ps[i].faults == was.faults
            && ps[i].livePower == was.livePower.Plus(Total(infos, PutAt(put, i)).power)
  {
    hide Total;
  }

  ghost function Filled(ps: seq<Partition>, i: nat, g: set<SectorNumber>, infos: Sectors, proven: bool): seq<Partition>
    requires i <= |ps|
  {
    if i < |ps| then ps[i := Grow(ps[i], g, infos, proven)] else ps + [Grow(NEW_PARTITION, g, infos, proven)]
  }

  lemma PutInNone(ps: seq<Partition>, infos: Sectors, proven: bool)
    ensures PutIn(ps, ps, map[], infos, proven)
  {
    hide Grow;
    forall i | 0 <= i < |ps|
      ensures ps[i] == Grow(ps[i], PutAt(map[], i), infos, proven)
    {
      assert PutAt(map[], i) == {};
      GrowNone(ps[i], infos, proven);
    }
  }

  lemma PutInMore(
      base: seq<Partition>, ps: seq<Partition>, put: map<SectorNumber, nat>, infos: Sectors, proven: bool,
      i: nat, g: set<SectorNumber>)
    requires PutIn(base, ps, put, infos, proven) && i <= |ps| && g !! put.Keys
    ensures PutIn(base, Filled(ps, i, g, infos, proven), PutMore(put, g, i), infos, proven)
  {
    hide Grow;
    var ps', put' := Filled(ps, i, g, infos, proven), PutMore(put, g, i);
    forall j | 0 <= j < |ps'|
      ensures ps'[j] == Grow(Existing(base, j), PutAt(put', j), infos, proven)
    {
      if j == i {
        assert PutAt(put', j) == PutAt(put, j) + g;
        if i == |ps| {
          assert PutAt(put, j) == {};
          GrowNone(NEW_PARTITION, infos, proven);
        }
        GrowTwice(Existing(base, j), PutAt(put, j), g, infos, proven);
        assert PutAt(put, j) !! g;
      } else {
        assert PutAt(put', j) == PutAt(put, j);
      }
    }
  }

  lemma FilledOk(ps: seq<Partition>, i: nat, g: set<SectorNumber>, infos: Sectors, proven: bool)
    requires TableOk(ps, infos) && i <= |ps| && g !! AllSectors(ps) && g <= infos.Keys
    ensures var ps' := Filled(ps, i, g, infos, proven);
            && TableOk(ps', infos)
            && AllSectors(ps') == AllSectors(ps) + g && AllLive(ps') == AllLive(ps) + g
  {
    hide PartitionOk, Grow, AllSectors, AllLive, TableOk, Partition.Live;
    var p := Existing(ps, i);
    ExistingOk(ps, i, g, infos);
    GrowOk(p, g, infos, proven);
    GrowSectors(p, g, infos, proven);
    if i < |ps| {
      FilledOld(ps, i, g, infos, proven);
    } else {
      FilledNew(ps, g, infos, proven);
    }
  }

  lemma FilledTally(ps: seq<Partition>, i: nat, g: set<SectorNumber>, infos: Sectors, proven: bool)
    requires TableOk(ps, infos) && i <= |ps| && g !! AllSectors(ps)
    ensures TallyAll(Filled(ps, i, g, infos, proven))
         == TallyAll(ps).Plus(Tally(|g|, |g|, Total(infos, g).power))
  {
    hide PartitionOk, Grow, TallyOf, TallyAll, Total, AllSectors, TableOk;
    var p := Existing(ps, i);
    ExistingOk(ps, i, g, infos);
    GrowTally(p, g, infos, proven);
    if i < |ps| {
      TallySet(ps, i, Grow(p, g, infos, proven));
    } else {
      TallyMore(ps, Grow(p, g, infos, proven));
      NewTally();
    }
  }

  lemma ExistingOk(ps: seq<Partition>, i: nat, g: set<SectorNumber>, infos: Sectors)
    requires TableOk(ps, infos) && g !! AllSectors(ps)
    ensures PartitionOk(Existing(ps, i), infos) && g !! Existing(ps, i).sectors
  {
    hide PartitionOk;
    NewOk(infos);
    assert forall n <- Existing(ps, i).sectors :: n in AllSectors(ps);
  }

  lemma GrowSectors(p: Partition, g: set<SectorNumber>, infos: Sectors, proven: bool)
    ensures Grow(p, g, infos, proven).sectors == p.sectors + g
  {
  }

  lemma NewTally()
    ensures TallyOf(NEW_PARTITION) == NO_TALLY && NEW_PARTITION.Live() == {}
  {
  }

  lemma FilledOld(ps: seq<Partition>, i: nat, g: set<SectorNumber>, infos: Sectors, proven: bool)
    requires TableOk(ps, infos) && i < |ps| && g !! AllSectors(ps)
    requires PartitionOk(Grow(ps[i], g, infos, proven), infos)
    requires Grow(ps[i], g, infos, proven).Live() == ps[i].Live() + g
    requires Grow(ps[i], g, infos, proven).sectors == ps[i].sectors + g
    ensures var ps' := ps[i := Grow(ps[i], g, infos, proven)];
            && TableOk(ps', infos) && AllSectors(ps') == AllSectors(ps) + g && AllLive(ps') == AllLive(ps) + g
  {
    hide PartitionOk, Grow, Partition.Live;
    var ps' := ps[i := Grow(ps[i], g, infos, proven)];
    forall j | 0 <= j < |ps| && j != i
      ensures ps[j].sectors !! g
    {
      assert forall n <- ps[j].sectors :: n in AllSectors(ps);
    }
    forall n
      ensures n in AllSectors(ps') <==> n in AllSectors(ps) || n in g
      ensures n in AllLive(ps') <==> n in AllLive(ps) || n in g
    {
      assert n in ps'[i].sectors <==> n in ps[i].sectors || n in g;
      assert n in ps'[i].Live() <==> n in ps[i].Live() || n in g;
      assert forall j :: 0 <= j < |ps| && j != i ==> ps'[j] == ps[j];
    }
  }

  lemma FilledNew(ps: seq<Partition>, g: set<SectorNumber>, infos: Sectors, proven: bool)
    requires TableOk(ps, infos) && g !! AllSectors(ps)
    requires PartitionOk(Grow(NEW_PARTITION, g, infos, proven), infos)
    requires Grow(NEW_PARTITION, g, infos, proven).Live() == NEW_PARTITION.Live() + g
    requires Grow(NEW_PARTITION, g, infos, proven).sectors == NEW_PARTITION.sectors + g
    ensures var ps' := ps + [Grow(NEW_PARTITION, g, infos, proven)];
            && TableOk(ps', infos) && AllSectors(ps') == AllSectors(ps) + g && AllLive(ps') == AllLive(ps) + g
  {
    hide PartitionOk, Grow;
    var ps' := ps + [Grow(NEW_PARTITION, g, infos, proven)];
    forall j | 0 <= j < |ps|
      ensures ps[j].sectors !! g
    {
      assert forall n <- ps[j].sectors :: n in AllSectors(ps);
    }
    forall n
      ensures n in AllSectors(ps') <==> n in AllSectors(ps) || n in g
      ensures n in AllLive(ps') <==> n in AllLive(ps) || n in g
    {
      assert n in ps'[|ps|].sectors <==> n in g;
      assert n in ps'[|ps|].Live() <==> n in g;
      assert forall j :: 0 <= j < |ps| ==> ps'[j] == ps[j];
    }
  }
}
