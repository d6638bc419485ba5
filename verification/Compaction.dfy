/** Removing partitions from a deadline: what is kept is renumbered, what is live is put back, what is
    dead goes. */
module Compaction {
  import opened Arithmetic
  import opened ExpirationBook
  import ExpirationQueue
  import opened PartitionTable
  import opened Quantization

  ghost function Listed(queue: map<Epoch, set<nat>>, e: Epoch): set<nat> {
    if e in queue then queue[e] else {}
  }

  /** Partition numbers by the quantised epoch at which some of their sectors expire. */
  class BitFieldQueue {
    var amt: map<Epoch, set<nat>>
    const quant: QuantSpec

    constructor (amt: map<Epoch, set<nat>>, quant: QuantSpec)
      ensures this.amt == amt && this.quant == quant
    {
      this.amt, this.quant := amt, quant;
    }

    method AddToQueue(rawEpoch: Epoch, values: set<nat>)
      requires quant.unit > 0
      modifies this
      ensures forall e :: Listed(amt, e)
                       == Listed(old(amt), e) + if e == QuantizeUp(quant, rawEpoch) then values else {}
      ensures forall e <- amt :: amt[e] == {} ==> e in old(amt) && old(amt)[e] == {}
      ensures amt.Keys == old(amt.Keys) + if values == {} then {} else {QuantizeUp(quant, rawEpoch)}
    {
      hide QuantizeUp;
      if values == {} {
        return;
      }
      var epoch := QuantizeUp(quant, rawEpoch);
      var listed := if epoch in amt then amt[epoch] else {};
      amt := amt[epoch := listed + values];
    }

    /** Adds each number at its quantised epoch; how the additions are batched makes no difference. */
    method AddManyToQueueValues(values: seq<(Epoch, nat)>)
      requires quant.unit > 0
      modifies this
      ensures forall e, i :: i in Listed(amt, e) <==> i in Listed(old(amt), e) || Updated(values, quant, e, i)
      ensures forall e <- amt :: e in old(amt) || OnGrid(quant, e)
      ensures forall e <- amt :: amt[e] == {} ==> e in old(amt) && old(amt)[e] == {}
    {
      hide QuantizeUp, OnGrid, Updated;
      NoUpdates(quant);
      for k := 0 to |values|
        invariant forall e, i :: i in Listed(amt, e) <==> i in Listed(old(amt), e) || Updated(values[..k], quant, e, i)
        invariant forall e <- amt :: e in old(amt) || OnGrid(quant, e)
        invariant forall e <- amt :: amt[e] == {} ==> e in old(amt) && old(amt)[e] == {}
      {
        QuantizeUpIsNearest(quant, values[k].0);
        MoreUpdates(values, k, quant);
        AddToQueue(values[k].0, {values[k].1});
      }
      assert values[..|values|] == values;
    }

    /** Cuts partitions out of every entry, and deletes the entries this leaves empty. */
    method Cut(toCut: set<nat>)
      modifies this
      ensures forall e :: Listed(amt, e) == CutSet(Listed(old(amt), e), toCut)
      ensures forall e <- amt :: e in old(amt) && amt[e] != {}
    {
      hide CutSet;
      CutNothing(toCut);
      var emptied: set<Epoch> := {};
      var todo := amt.Keys;
      while todo != {}
        invariant todo <= amt.Keys == old(amt).Keys && emptied <= amt.Keys - todo
        invariant forall e <- todo :: amt[e] == old(amt)[e]
        invariant forall e <- amt.Keys - todo :: e in emptied <==> CutSet(old(amt)[e], toCut) == {}
        invariant forall e <- amt.Keys - todo - emptied :: amt[e] == CutSet(old(amt)[e], toCut)
      {
        ExpirationQueue.SomeEpoch(todo);
        var e :| e in todo;
        todo := todo - {e};
        var left := CutSet(amt[e], toCut);
        if left == {} {
          emptied := emptied + {e};
        } else {
          amt := amt[e := left];
        }
      }
      amt := amt - emptied;
    }
  }

  lemma NoUpdates(quant: QuantSpec)
    requires quant.unit > 0
    ensures forall e, i :: !Updated([], quant, e, i)
  {
  }

  lemma MoreUpdates(values: seq<(Epoch, nat)>, k: nat, quant: QuantSpec)
    requires quant.unit > 0 && k < |values|
    ensures forall e, i :: Updated(values[..k + 1], quant, e, i) <==>
                             Updated(values[..k], quant, e, i)
                               || (QuantizeUp(quant, values[k].0) == e && values[k].1 == i)
  {
    hide QuantizeUp;
    forall e, i
      ensures Updated(values[..k + 1], quant, e, i) <==>
                Updated(values[..k], quant, e, i) || (QuantizeUp(quant, values[k].0) == e && values[k].1 == i)
    {
      assert forall j :: 0 <= j < k ==> values[..k + 1][j] == values[..k][j];
      assert values[..k + 1][k] == values[k];
    }
  }

  lemma CutNothing(cut: set<nat>)
    ensures CutSet({}, cut) == {}
  {
  }

  // ---- sector lists ----

  function Numbers(sectors: seq<SectorNumber>): set<SectorNumber> {
    set n | n in sectors
  }

  ghost predicate NoRepeats(sectors: seq<SectorNumber>) {
    forall i, j :: 0 <= i < j < |sectors| ==> sectors[i] != sectors[j]
  }

  lemma SplitList(sectors: seq<SectorNumber>, k: nat)
    requires NoRepeats(sectors) && k <= |sectors|
    ensures var a, b := sectors[..k], sectors[k..];
            && NoRepeats(a) && NoRepeats(b) && Numbers(a) !! Numbers(b)
            && Numbers(sectors) == Numbers(a) + Numbers(b)
  {
    var a, b := sectors[..k], sectors[k..];
    assert sectors == a + b;
    forall n | n in a
      ensures n !in b
    {
      var i :| 0 <= i < k && sectors[i] == n;
      assert forall j :: 0 <= j < |b| ==> b[j] == sectors[k + j];
    }
  }

  lemma {:induction false} CountList(sectors: seq<SectorNumber>)
    requires NoRepeats(sectors)
    ensures |Numbers(sectors)| == |sectors|
  {
    if sectors != [] {
      var rest := sectors[1..];
      CountList(rest);
      assert Numbers(sectors) == Numbers(rest) + {sectors[0]};
    }
  }

  ghost predicate Ascending(sectors: seq<SectorNumber>) {
    forall i, j :: 0 <= i < j < |sectors| ==> sectors[i] < sectors[j]
  }

  lemma {:induction false} LeastNumber(numbers: set<SectorNumber>) returns (least: SectorNumber)
    requires numbers != {}
    ensures least in numbers && forall m: SectorNumber :: m in numbers ==> least <= m
  {
    var n: SectorNumber :| n in numbers;
    var rest := numbers - {n};
    least := n;
    if rest != {} {
      var l := LeastNumber(rest);
      least := if l < n then l else n;
    }
    forall m: SectorNumber | m in numbers ensures least <= m {
      assert m == n || m in rest;
    }
  }

  method ListOf(numbers: set<SectorNumber>) returns (sectors: seq<SectorNumber>)
    ensures NoRepeats(sectors) && Numbers(sectors) == numbers && Ascending(sectors)
  {
    sectors := [];
    var rest := numbers;
    while rest != {}
      invariant rest <= numbers && NoRepeats(sectors) && Numbers(sectors) == numbers - rest && Ascending(sectors)
      invariant forall i, n: SectorNumber :: 0 <= i < |sectors| && n in rest ==> sectors[i] < n
    {
      ghost var least := LeastNumber(rest);
      var n: SectorNumber :| n in rest && forall m: SectorNumber :: m in rest ==> n <= m;
      assert n !in Numbers(sectors) && Numbers(sectors + [n]) == Numbers(sectors) + {n};
      sectors := sectors + [n];
      rest := rest - {n};
    }
  }

  // ---- where new sectors go ----

  /** The first partition with room: the last one there is, unless it is full. */
  ghost function FirstOpen(base: seq<Partition>, size: nat): nat {
    var last := if |base| > 0 then |base| - 1 else 0;
    if |Existing(base, last).sectors| < size then last else last + 1
  }

  /** The partition of the `j`th new sector, when each is filled before the next. */
  ghost function PlaceOf(base: seq<Partition>, size: nat, j: nat): nat
    requires size > 0
  {
    FirstOpen(base, size) + (|Existing(base, FirstOpen(base, size)).sectors| + j) / size
  }

  /** The first `n` sectors are in their places. */
  ghost predicate InOrder(base: seq<Partition>, size: nat, all: seq<SectorNumber>, put: map<SectorNumber, nat>, n: nat)
    requires size > 0
  {
    n <= |all| && forall j: nat :: j < n ==> all[j] in put && put[all[j]] == PlaceOf(base, size, j)
  }

  /** Partition `i` is the one to look at, with `n` sectors placed and some left. */
  ghost predicate AtTurn(base: seq<Partition>, size: nat, ps: seq<Partition>, n: nat, i: nat) {
    var first := FirstOpen(base, size);
    if i <= first then n == 0 && ps == base && (i == first || (i + 1 == first && |Existing(base, i).sectors| >= size))
    else i == |ps| && |Existing(base, first).sectors| + n == size * (i - first)
  }

  lemma TurnStart(base: seq<Partition>, size: nat)
    ensures AtTurn(base, size, base, 0, if |base| > 0 then |base| - 1 else 0)
  {
  }

  lemma TurnSkips(base: seq<Partition>, size: nat, ps: seq<Partition>, n: nat, i: nat)
    requires size > 0 && AtTurn(base, size, ps, n, i) && i <= |ps| && |Existing(ps, i).sectors| >= size
    ensures AtTurn(base, size, ps, n, i + 1) && i < |ps|
  {
    FirstHasRoom(base, size);
  }

  lemma FirstHasRoom(base: seq<Partition>, size: nat)
    requires size > 0
    ensures FirstOpen(base, size) <= |base| && |Existing(base, FirstOpen(base, size)).sectors| < size
    ensures FirstOpen(base, size) + 1 >= |base|
  {
    assert |NEW_PARTITION.sectors| == 0;
  }

  /** How far the filling has come: `n` sectors are placed, and partition `i` is next. */
  ghost predicate Placing(base: seq<Partition>, size: nat, all: seq<SectorNumber>, ps: seq<Partition>,
                          put: map<SectorNumber, nat>, n: nat, i: nat)
    requires size > 0
  {
    && n <= |all| && i <= |ps| && InOrder(base, size, all, put, n)
    && (n < |all| ==> AtTurn(base, size, ps, n, i))
    && |ps| == if n == 0 then |base| else Max(|base|, PlaceOf(base, size, n - 1) + 1)
  }

  lemma NonePlaced(base: seq<Partition>, size: nat)
    requires size > 0
    ensures InOrder(base, size, [], map[], 0)
  {
  }

  lemma PlacingStart(base: seq<Partition>, size: nat, all: seq<SectorNumber>)
    requires size > 0
    ensures Placing(base, size, all, base, map[], 0, if |base| > 0 then |base| - 1 else 0)
  {
    TurnStart(base, size);
  }

  lemma PlacingSkips(base: seq<Partition>, size: nat, all: seq<SectorNumber>, ps: seq<Partition>,
                     put: map<SectorNumber, nat>, n: nat, i: nat)
    requires size > 0 && Placing(base, size, all, ps, put, n, i) && n < |all| && |Existing(ps, i).sectors| >= size
    ensures i < |ps| && Placing(base, size, all, ps, put, n, i + 1)
  {
    hide InOrder, AtTurn, PlaceOf;
    TurnSkips(base, size, ps, n, i);
  }

  lemma PlacingMore(base: seq<Partition>, size: nat, all: seq<SectorNumber>, ps: seq<Partition>, ps': seq<Partition>,
                    put: map<SectorNumber, nat>, n: nat, i: nat, k: nat)
    requires size > 0 && Placing(base, size, all, ps, put, n, i) && n < |all| && NoRepeats(all)
    requires |Existing(ps, i).sectors| < size && k == Min(size - |Existing(ps, i).sectors|, |all| - n)
    requires |ps'| == if i < |ps| then |ps| else i + 1
    ensures Placing(base, size, all, ps', PutMore(put, Numbers(all[n..n + k]), i), n + k, i + 1)
  {
    hide InOrder, PlaceOf, PutMore, Numbers, NoRepeats, FirstOpen, Existing;
    ChunkPlaces(base, size, ps, n, i, k);
    PlaceChunk(base, size, all, put, n, i, k);
    TurnSize(base, size, ps, n, i);
  }

  lemma PlacingDone(base: seq<Partition>, size: nat, all: seq<SectorNumber>, ps: seq<Partition>,
                    put: map<SectorNumber, nat>, i: nat)
    requires size > 0 && Placing(base, size, all, ps, put, |all|, i)
    ensures InOrder(base, size, all, put, |all|)
    ensures |ps| == if all == [] then |base| else Max(|base|, PlaceOf(base, size, |all| - 1) + 1)
  {
  }

  lemma TurnSize(base: seq<Partition>, size: nat, ps: seq<Partition>, n: nat, i: nat)
    requires size > 0 && AtTurn(base, size, ps, n, i) && i <= |ps| && |Existing(ps, i).sectors| < size
    ensures FirstOpen(base, size) <= i && |base| <= i + 1
    ensures if n == 0 then |ps| == |base| else i == |ps|
  {
    FirstHasRoom(base, size);
  }

  /** The chunk for partition `i` belongs there, and fills it if it takes all the room. */
  lemma ChunkPlaces(base: seq<Partition>, size: nat, ps: seq<Partition>, n: nat, i: nat, k: nat)
    requires size > 0 && AtTurn(base, size, ps, n, i) && i <= |ps|
    requires |Existing(ps, i).sectors| + k <= size && k > 0
    ensures i >= FirstOpen(base, size) && forall j: nat :: n <= j < n + k ==> PlaceOf(base, size, j) == i
    ensures |Existing(ps, i).sectors| + k == size ==>
      && i + 1 == (if i < |ps| then |ps| else i + 1)
      && |Existing(base, FirstOpen(base, size)).sectors| + n + k == size * (i + 1 - FirstOpen(base, size))
  {
    FirstHasRoom(base, size);
    assert |NEW_PARTITION.sectors| == 0;
    var first := FirstOpen(base, size);
    var c := |Existing(base, first).sectors|;
    forall j: nat | n <= j < n + k ensures PlaceOf(base, size, j) == i {
      Quotient(c + j, size, i - first);
    }
    assert size * (i + 1 - first) == size * (i - first) + size;
  }

  lemma Quotient(x: int, size: int, q: int)
    requires size > 0 && size * q <= x < size * q + size
    ensures x / size == q
  {
    DivModUnique(x, size, q, x - size * q);
  }

  lemma PlaceChunk(base: seq<Partition>, size: nat, all: seq<SectorNumber>, put: map<SectorNumber, nat>, n: nat,
                   i: nat, k: nat)
    requires size > 0 && InOrder(base, size, all, put, n) && NoRepeats(all) && n + k <= |all|
    requires forall j: nat :: n <= j < n + k ==> PlaceOf(base, size, j) == i
    ensures InOrder(base, size, all, PutMore(put, Numbers(all[n..n + k]), i), n + k)
  {
    hide PlaceOf;
    var chunk := all[n..n + k];
    forall j: nat | j < n + k
      ensures all[j] in PutMore(put, Numbers(chunk), i)
      ensures PutMore(put, Numbers(chunk), i)[all[j]] == PlaceOf(base, size, j)
    {
      if j < n {
        assert all[j] !in chunk;
      } else {
        assert chunk[j - n] == all[j];
      }
    }
  }

  /** Where placed sectors have to be listed: their declared expiration, and the partition they are in. */
  ghost function Entries(put: map<SectorNumber, nat>, infos: Sectors): set<(Epoch, nat)>
    requires put.Keys <= infos.Keys
  {
    set n | n in put :: (infos[n].expiration, put[n])
  }

  ghost function Pairs(updates: seq<(Epoch, nat)>): set<(Epoch, nat)> {
    set u | u in updates
  }

  lemma MoreEntries(
      put: map<SectorNumber, nat>, infos: Sectors, updates: seq<(Epoch, nat)>, chunk: seq<SectorNumber>, i: nat,
      more: seq<(Epoch, nat)>)
    requires put.Keys <= infos.Keys && Numbers(chunk) <= infos.Keys && put.Keys !! Numbers(chunk)
    requires Pairs(updates) == Entries(put, infos)
    requires |more| == |chunk| && forall k :: 0 <= k < |chunk| ==> more[k] == (infos[chunk[k]].expiration, i)
    ensures PutMore(put, Numbers(chunk), i).Keys == put.Keys + Numbers(chunk)
    ensures Pairs(updates + more) == Entries(PutMore(put, Numbers(chunk), i), infos)
  {
    var put' := PutMore(put, Numbers(chunk), i);
    forall u | u in more
      ensures u in Entries(put', infos)
    {
      var k :| 0 <= k < |more| && more[k] == u;
      assert chunk[k] in Numbers(chunk) && chunk[k] in put';
    }
    forall u | u in Entries(put, infos)
      ensures u in Entries(put', infos)
    {
      var n :| n in put && u == (infos[n].expiration, put[n]);
      assert n in put' && put'[n] == put[n];
    }
    forall u | u in Entries(put', infos)
      ensures u in Pairs(updates + more)
    {
      var n :| n in put' && u == (infos[n].expiration, put'[n]);
      if n in Numbers(chunk) {
        var k :| 0 <= k < |chunk| && chunk[k] == n;
        assert more[k] == u;
      } else {
        assert u in Entries(put, infos);
      }
    }
  }

  // ---- the index ----

  /** Entries are quantised and not empty and name partitions that exist, and every live sector's
      partition is listed at the sector's expiration. */
  ghost predicate IndexOk(ps: seq<Partition>, queue: map<Epoch, set<nat>>, infos: Sectors, quant: QuantSpec) {
    && quant.unit > 0
    && (forall e <- queue :: queue[e] != {} && OnGrid(quant, e))
    && (forall e, i | i in Listed(queue, e) :: i < |ps|)
    && (forall i, n | 0 <= i < |ps| && n in ps[i].Live() && n in infos ::
          i in Listed(queue, QuantizeUp(quant, infos[n].expiration)))
  }

  /** Some placed sector expires at `e` in partition `i`. */
  ghost predicate Expires(put: map<SectorNumber, nat>, infos: Sectors, quant: QuantSpec, e: Epoch, i: nat)
    requires quant.unit > 0 && put.Keys <= infos.Keys
  {
    exists n <- put :: QuantizeUp(quant, infos[n].expiration) == e && put[n] == i
  }

  ghost predicate Updated(updates: seq<(Epoch, nat)>, quant: QuantSpec, e: Epoch, i: nat)
    requires quant.unit > 0
  {
    exists k | 0 <= k < |updates| :: QuantizeUp(quant, updates[k].0) == e && updates[k].1 == i
  }

  /** The index once placed sectors have been listed. */
  ghost predicate IndexedMore(
      queue: map<Epoch, set<nat>>, queue': map<Epoch, set<nat>>, put: map<SectorNumber, nat>, infos: Sectors,
      quant: QuantSpec)
    requires quant.unit > 0 && put.Keys <= infos.Keys
  {
    && (forall e, i :: i in Listed(queue', e) <==> i in Listed(queue, e) || Expires(put, infos, quant, e, i))
    && (forall e <- queue' :: e in queue || OnGrid(quant, e))
    && (forall e <- queue' :: queue'[e] == {} ==> e in queue && queue[e] == {})
  }

  lemma IndexGrows(
      base: seq<Partition>, ps: seq<Partition>, queue: map<Epoch, set<nat>>, queue': map<Epoch, set<nat>>,
      put: map<SectorNumber, nat>, infos: Sectors, quant: QuantSpec, proven: bool)
    requires IndexOk(base, queue, infos, quant) && PutIn(base, ps, put, infos, proven) && put.Keys <= infos.Keys
    requires IndexedMore(queue, queue', put, infos, quant)
    ensures IndexOk(ps, queue', infos, quant)
  {
    hide QuantizeUp, OnGrid, Total;
    forall e, i | i in Listed(queue', e)
      ensures i < |ps|
    {
      if i !in Listed(queue, e) {
        assert Expires(put, infos, quant, e, i);
      }
    }
    forall i, n | 0 <= i < |ps| && n in ps[i].Live() && n in infos
      ensures i in Listed(queue', QuantizeUp(quant, infos[n].expiration))
    {
      if n in PutAt(put, i) {
        assert Expires(put, infos, quant, QuantizeUp(quant, infos[n].expiration), i);
      } else {
        assert n in Existing(base, i).Live();
        assert i < |base|;
      }
    }
  }

  lemma ListedEntries(
      updates: seq<(Epoch, nat)>, put: map<SectorNumber, nat>, infos: Sectors, quant: QuantSpec,
      queue: map<Epoch, set<nat>>, queue': map<Epoch, set<nat>>)
    requires quant.unit > 0 && put.Keys <= infos.Keys && Pairs(updates) == Entries(put, infos)
    requires forall e, i :: i in Listed(queue', e) <==> i in Listed(queue, e) || Updated(updates, quant, e, i)
    requires forall e <- queue' :: e in queue || OnGrid(quant, e)
    requires forall e <- queue' :: queue'[e] == {} ==> e in queue && queue[e] == {}
    ensures IndexedMore(queue, queue', put, infos, quant)
  {
    hide QuantizeUp, OnGrid, Listed;
    forall e, i
      ensures Updated(updates, quant, e, i) <==> Expires(put, infos, quant, e, i)
    {
      if Updated(updates, quant, e, i) {
        var k :| 0 <= k < |updates| && QuantizeUp(quant, updates[k].0) == e && updates[k].1 == i;
        assert updates[k] in Pairs(updates);
      }
      if Expires(put, infos, quant, e, i) {
        var n :| n in put && QuantizeUp(quant, infos[n].expiration) == e && put[n] == i;
        assert (infos[n].expiration, put[n]) in Entries(put, infos);
      }
    }
  }

  /** Cutting the index in step with the table keeps it covering the table. */
  lemma IndexCut(
      ps: seq<Partition>, cut: set<nat>, queue: map<Epoch, set<nat>>, queue': map<Epoch, set<nat>>, infos: Sectors,
      quant: QuantSpec)
    requires IndexOk(ps, queue, infos, quant)
    requires forall e :: Listed(queue', e) == CutSet(Listed(queue, e), cut)
    requires forall e <- queue' :: e in queue && queue'[e] != {}
    ensures IndexOk(Kept(ps, cut), queue', infos, quant)
  {
    hide QuantizeUp, OnGrid, Kept, Rank;
    var kept := Kept(ps, cut);
    forall e, k | k in Listed(queue', e)
      ensures k < |kept|
    {
      var i :| i in Listed(queue, e) && i !in cut && Rank(i, cut) == k;
      KeptAt(ps, cut, i);
    }
    forall k, n | 0 <= k < |kept| && n in kept[k].Live() && n in infos
      ensures k in Listed(queue', QuantizeUp(quant, infos[n].expiration))
    {
      var i := KeptFrom(ps, cut, k);
      assert i in Listed(queue, QuantizeUp(quant, infos[n].expiration));
    }
  }

  // ---- scanning half way: the first partitions have been sorted into those kept and those gone ----

  ghost predicate Scanned(
      ps: seq<Partition>, cut: set<nat>, infos: Sectors, kept: seq<Partition>, dead: set<SectorNumber>,
      live: set<SectorNumber>, power: Power)
  {
    && kept == Kept(ps, cut) && dead == AllDead(Gone(ps, cut)) && live == AllLive(Gone(ps, cut))
    && live <= infos.Keys && power == Total(infos, live).power && live !! dead
    && TallyAll(Gone(ps, cut)) == Tally(|live|, |live| + |dead|, power)
  }

  lemma ScanStart(cut: set<nat>, infos: Sectors)
    ensures Scanned([], cut, infos, [], {}, {}, NO_POWER)
  {
    hide Total;
    NoTotal(infos);
  }

  lemma ScanStep(
      ps: seq<Partition>, n: nat, cut: set<nat>, infos: Sectors, kept: seq<Partition>, dead: set<SectorNumber>,
      live: set<SectorNumber>, power: Power)
    requires TableOk(ps, infos) && n < |ps| && Scanned(ps[..n], cut, infos, kept, dead, live, power)
    ensures if n in cut then
              Scanned(ps[..n + 1], cut, infos, kept, dead + ps[n].terminated, live + ps[n].Live(),
                      power.Plus(ps[n].livePower))
            else
              Scanned(ps[..n + 1], cut, infos, kept + [ps[n]], dead, live, power)
  {
    hide Kept, Gone, TallyAll, Total, AllDead, AllLive, PartitionOk, TableOk, Partition.Live;
    var more := ps[..n + 1];
    assert more[..n] == ps[..n] && more[n] == ps[n];
    CutStep(more, cut);
    if n in cut {
      GoneMore(ps, n, cut, infos);
      TallyMore(Gone(ps[..n], cut), ps[n]);
      ScanCounts(dead, live, ps[n], infos);
    }
  }

  lemma ScanCounts(dead: set<SectorNumber>, live: set<SectorNumber>, p: Partition, infos: Sectors)
    requires PartitionOk(p, infos) && p.sectors !! dead && p.sectors !! live && live !! dead
    ensures var live', dead' := live + p.Live(), dead + p.terminated;
            && live' !! dead'
            && Tally(|live|, |live| + |dead|, Total(infos, live).power).Plus(TallyOf(p))
            == Tally(|live'|, |live'| + |dead'|, Total(infos, live').power)
  {
    hide Total, Partition.Live, PartitionOk;
    LiveCount(p, infos);
    JoinCounts(live, p.Live(), infos);
    JoinCounts(dead, p.terminated, infos);
  }

  lemma LiveCount(p: Partition, infos: Sectors)
    requires PartitionOk(p, infos)
    ensures |p.sectors| == |p.Live()| + |p.terminated| && p.Live() !! p.terminated
    ensures p.Live() <= p.sectors && p.terminated <= p.sectors && p.livePower == Total(infos, p.Live()).power
  {
    hide Total;
    CountUnion(p.Live(), p.terminated);
    assert p.Live() + p.terminated == p.sectors;
  }

  lemma JoinCounts(a: set<SectorNumber>, b: set<SectorNumber>, infos: Sectors)
    requires a !! b
    ensures |a + b| == |a| + |b| && Total(infos, a + b).power == Total(infos, a).power.Plus(Total(infos, b).power)
  {
    hide Total;
    CountUnion(a, b);
    TotalUnion(infos, a, b);
  }

  lemma GoneMore(ps: seq<Partition>, n: nat, cut: set<nat>, infos: Sectors)
    requires TableOk(ps, infos) && n < |ps|
    ensures var gone := Gone(ps[..n], cut);
            && PartitionOk(ps[n], infos)
            && AllDead(gone + [ps[n]]) == AllDead(gone) + ps[n].terminated
            && AllLive(gone + [ps[n]]) == AllLive(gone) + ps[n].Live()
            && ps[n].sectors !! AllDead(gone) && ps[n].sectors !! AllLive(gone) && ps[n].Live() <= infos.Keys
  {
    hide Gone;
    var gone := Gone(ps[..n], cut);
    forall k | 0 <= k < |gone|
      ensures gone[k].sectors !! ps[n].sectors && gone[k].terminated <= gone[k].sectors
    {
      var i := GoneFrom(ps[..n], cut, k);
      assert ps[..n][i] == ps[i] && PartitionOk(ps[i], infos);
    }
    var all := gone + [ps[n]];
    assert forall k :: 0 <= k < |gone| ==> all[k] == gone[k];
    assert all[|gone|] == ps[n];
    forall x
      ensures x in AllDead(all) <==> x in AllDead(gone) || x in ps[n].terminated
      ensures x in AllLive(all) <==> x in AllLive(gone) || x in ps[n].Live()
    {
    }
  }

  // ---- filling half way: the sectors of `put` are in their partitions ----

  ghost predicate Filling(
      base: seq<Partition>, ps: seq<Partition>, infos: Sectors, proven: bool, size: nat,
      put: map<SectorNumber, nat>, power: Power)
  {
    FilledTable(base, ps, infos, proven, put) && FilledCounts(base, ps, infos, size, put, power)
  }

  ghost predicate FilledTable(
      base: seq<Partition>, ps: seq<Partition>, infos: Sectors, proven: bool, put: map<SectorNumber, nat>)
  {
    && TableOk(ps, infos) && put.Keys <= infos.Keys && PutIn(base, ps, put, infos, proven)
    && AllSectors(ps) == AllSectors(base) + put.Keys && AllLive(ps) == AllLive(base) + put.Keys
  }

  ghost predicate NoneOverfull(ps: seq<Partition>, size: nat, put: map<SectorNumber, nat>) {
    forall n <- put :: put[n] < |ps| && |ps[put[n]].sectors| <= size
  }

  ghost predicate FilledCounts(
      base: seq<Partition>, ps: seq<Partition>, infos: Sectors, size: nat, put: map<SectorNumber, nat>, power: Power)
  {
    && NoneOverfull(ps, size, put) && power == Total(infos, put.Keys).power
    && TallyAll(ps) == TallyAll(base).Plus(Tally(|put.Keys|, |put.Keys|, power))
  }

  lemma FillStart(ps: seq<Partition>, infos: Sectors, proven: bool, size: nat)
    requires TableOk(ps, infos)
    ensures Filling(ps, ps, infos, proven, size, map[], NO_POWER) && Pairs([]) == Entries(map[], infos)
  {
    hide TableOk, TallyAll, Total, PutIn, AllSectors, AllLive;
    PutInNone(ps, infos, proven);
    NoTotal(infos);
    var none: map<SectorNumber, nat> := map[];
    assert none.Keys == {};
  }

  lemma FillStep(
      base: seq<Partition>, ps: seq<Partition>, infos: Sectors, proven: bool, size: nat,
      put: map<SectorNumber, nat>, power: Power, i: nat, g: set<SectorNumber>)
    requires Filling(base, ps, infos, proven, size, put, power) && i <= |ps|
    requires g <= infos.Keys && g !! put.Keys && g !! AllSectors(base)
    requires |Existing(ps, i).sectors| + |g| <= size
    ensures Filling(base, Filled(ps, i, g, infos, proven), infos, proven, size, PutMore(put, g, i),
                    power.Plus(Total(infos, g).power))
  {
    hide TableOk, PutIn, Grow, AllSectors, AllLive, PutMore, Filled, FilledCounts, FilledTable, NoneOverfull, Existing,
      Total, TallyAll, Tally.Plus, Power.Plus;
    FilledApart(base, ps, infos, proven, put, g);
    FillStepTable(base, ps, infos, proven, put, i, g);
    FilledPower(base, ps, infos, size, put, power);
    FillSizes(ps, infos, proven, size, put, i, g);
    PutCounts(put, g, i, infos);
    FilledTally(ps, i, g, infos, proven);
    FillStepCounts(base, ps, Filled(ps, i, g, infos, proven), infos, size, put, PutMore(put, g, i), power, |g|,
                   Total(infos, g).power);
  }

  lemma FilledApart(
      base: seq<Partition>, ps: seq<Partition>, infos: Sectors, proven: bool, put: map<SectorNumber, nat>,
      g: set<SectorNumber>)
    requires FilledTable(base, ps, infos, proven, put) && g !! put.Keys && g !! AllSectors(base)
    ensures g !! AllSectors(ps) && TableOk(ps, infos)
  {
    hide TableOk, PutIn, AllSectors, AllLive;
  }

  lemma FillStepTable(
      base: seq<Partition>, ps: seq<Partition>, infos: Sectors, proven: bool, put: map<SectorNumber, nat>, i: nat,
      g: set<SectorNumber>)
    requires FilledTable(base, ps, infos, proven, put) && i <= |ps| && g <= infos.Keys && g !! put.Keys
    requires g !! AllSectors(ps)
    ensures FilledTable(base, Filled(ps, i, g, infos, proven), infos, proven, PutMore(put, g, i))
  {
    hide TableOk, PutIn, Grow, AllSectors, AllLive, PutMore, Filled;
    FilledOk(ps, i, g, infos, proven);
    PutInMore(base, ps, put, infos, proven, i, g);
    PutKeys(put, g, i);
    Regrouped(AllSectors(base), put.Keys, g);
    Regrouped(AllLive(base), put.Keys, g);
  }

  lemma Regrouped(a: set<SectorNumber>, b: set<SectorNumber>, c: set<SectorNumber>)
    ensures a + b + c == a + (b + c)
  {
  }

  lemma FillStepCounts(
      base: seq<Partition>, ps: seq<Partition>, ps': seq<Partition>, infos: Sectors, size: nat,
      put: map<SectorNumber, nat>, put': map<SectorNumber, nat>, power: Power, n: nat, more: Power)
    requires FilledCounts(base, ps, infos, size, put, power) && NoneOverfull(ps', size, put')
    requires |put'.Keys| == |put.Keys| + n && Total(infos, put'.Keys).power == power.Plus(more)
    requires TallyAll(ps') == TallyAll(ps).Plus(Tally(n, n, more))
    ensures FilledCounts(base, ps', infos, size, put', power.Plus(more))
  {
    hide TallyAll, Total, Tally.Plus, Power.Plus, NoneOverfull;
    TallyTwice(TallyAll(base), |put.Keys|, power, n, more);
  }

  lemma FilledPower(
      base: seq<Partition>, ps: seq<Partition>, infos: Sectors, size: nat, put: map<SectorNumber, nat>, power: Power)
    requires FilledCounts(base, ps, infos, size, put, power)
    ensures NoneOverfull(ps, size, put) && power == Total(infos, put.Keys).power
  {
    hide Total, TallyAll;
  }

  lemma PutCounts(put: map<SectorNumber, nat>, g: set<SectorNumber>, i: nat, infos: Sectors)
    requires g !! put.Keys
    ensures |PutMore(put, g, i).Keys| == |put.Keys| + |g|
    ensures Total(infos, PutMore(put, g, i).Keys).power == Total(infos, put.Keys).power.Plus(Total(infos, g).power)
  {
    hide Total;
    PutKeys(put, g, i);
    TotalUnion(infos, put.Keys, g);
    CountUnion(put.Keys, g);
  }

  lemma TallyTwice(t: Tally, a: int, p: Power, b: int, q: Power)
    ensures t.Plus(Tally(a, a, p)).Plus(Tally(b, b, q)) == t.Plus(Tally(a + b, a + b, p.Plus(q)))
  {
  }

  lemma PutKeys(put: map<SectorNumber, nat>, g: set<SectorNumber>, i: nat)
    ensures PutMore(put, g, i).Keys == put.Keys + g
  {
  }

  lemma FillSizes(
      ps: seq<Partition>, infos: Sectors, proven: bool, size: nat, put: map<SectorNumber, nat>, i: nat,
      g: set<SectorNumber>)
    requires i <= |ps| && |Existing(ps, i).sectors| + |g| <= size
    requires NoneOverfull(ps, size, put)
    ensures NoneOverfull(Filled(ps, i, g, infos, proven), size, PutMore(put, g, i))
  {
    hide Total;
    CountUnionAtMost(Existing(ps, i).sectors, g);
    GrowSectors(Existing(ps, i), g, infos, proven);
  }

  lemma CountUnionAtMost(a: set<SectorNumber>, b: set<SectorNumber>)
    ensures |a + b| <= |a| + |b|
  {
    assert a + b == a + (b - a);
    CountUnion(a, b - a);
    CountUnion(b - a, b * a);
    assert b - a + b * a == b;
  }

  // ---- a deadline ----

  class Deadline {
    var partitions: seq<Partition>
    var expirations: map<Epoch, set<nat>>
    var earlyTerminations: set<nat>
    var liveSectors: int
    var totalSectors: int
    var livePower: Power

    /** No sector is in two partitions, the memoised counts and power are what the partitions add up to,
        and the index covers them. */
    ghost predicate Valid(infos: Sectors, quant: QuantSpec)
      reads this
    {
      && TableOk(partitions, infos)
      && Tally(liveSectors, totalSectors, livePower) == TallyAll(partitions)
      && IndexOk(partitions, expirations, infos, quant)
    }

    /** Fills the last partition, then as many new ones as it takes. None is filled beyond its size. */
    method FillPartitions(infos: Sectors, size: nat, proven: bool, all: seq<SectorNumber>)
        returns (power: Power, updates: seq<(Epoch, nat)>, ghost put: map<SectorNumber, nat>)
      requires size > 0 && TableOk(partitions, infos)
      requires NoRepeats(all) && Numbers(all) <= infos.Keys && Numbers(all) !! AllSectors(partitions)
      modifies this`partitions
      ensures put.Keys == Numbers(all) && Pairs(updates) == Entries(put, infos)
      ensures Filling(old(partitions), partitions, infos, proven, size, put, power)
      ensures InOrder(old(partitions), size, all, put, |all|)
      ensures |partitions| == if all == [] then |old(partitions)|
                              else Max(|old(partitions)|, PlaceOf(old(partitions), size, |all| - 1) + 1)
    {
      hide Filling, TableOk, AllSectors, Numbers, NoRepeats, PutMore, Total, Pairs, Entries, Filled, InOrder, Placing,
        PlaceOf;
      power, updates, put := NO_POWER, [], map[];
      FillStart(partitions, infos, proven, size);
      var sectors := all;
      ghost var base := partitions;
      var i: nat := if |partitions| > 0 then |partitions| - 1 else 0;
      ghost var n: nat := 0;
      PlacingStart(base, size, all);
      while sectors != []
        invariant i <= |partitions| && NoRepeats(sectors)
        invariant n <= |all| && sectors == all[n..] && Placing(base, size, all, partitions, put, n, i)
        invariant put.Keys !! Numbers(sectors) && put.Keys + Numbers(sectors) == Numbers(all)
        invariant Filling(base, partitions, infos, proven, size, put, power)
        invariant Pairs(updates) == Entries(put, infos)
        decreases |sectors|, |partitions| - i
      {
        var partition := if i < |partitions| then partitions[i] else NEW_PARTITION;
        if |partition.sectors| >= size {
          PlacingSkips(base, size, all, partitions, put, n, i);
          i := i + 1;
          continue;
        }
        var k := if size - |partition.sectors| < |sectors| then size - |partition.sectors| else |sectors|;
        SplitList(sectors, k);
        assert all[n..n + k] == sectors[..k];
        ghost var ps, was := partitions, put;
        var p, more;
        p, more := FillOne(infos, size, proven, i, sectors[..k], power, base, updates, put);
        power := power.Plus(p);
        updates := updates + more;
        put := PutMore(put, Numbers(sectors[..k]), i);
        sectors := sectors[k..];
        PlacingMore(base, size, all, ps, partitions, was, n, i, k);
        i, n := i + 1, n + k;
      }
      NoNumbers();
      PlacingDone(base, size, all, partitions, put, i);
    }

    /** Puts the sectors of a chunk in partition `i`, and lists them for the index. */
    method FillOne(
        infos: Sectors, size: nat, proven: bool, i: nat, chunk: seq<SectorNumber>, ghost before: Power,
        ghost base: seq<Partition>, ghost updates: seq<(Epoch, nat)>, ghost put: map<SectorNumber, nat>)
        returns (power: Power, more: seq<(Epoch, nat)>)
      requires i <= |partitions| && NoRepeats(chunk) && Numbers(chunk) <= infos.Keys
      requires Numbers(chunk) !! put.Keys && Numbers(chunk) !! AllSectors(base)
      requires |Existing(partitions, i).sectors| + |chunk| <= size
      requires put.Keys <= infos.Keys && Pairs(updates) == Entries(put, infos)
      requires Filling(base, partitions, infos, proven, size, put, before)
      modifies this`partitions
      ensures PutMore(put, Numbers(chunk), i).Keys == put.Keys + Numbers(chunk)
      ensures Filling(base, partitions, infos, proven, size, PutMore(put, Numbers(chunk), i), before.Plus(power))
      ensures Pairs(updates + more) == Entries(PutMore(put, Numbers(chunk), i), infos)
      ensures |partitions| == if i < |old(partitions)| then |old(partitions)| else i + 1
    {
      hide Filling, TableOk, AllSectors, NoRepeats, PutMore, Total, Pairs, Entries, Grow;
      var g := Numbers(chunk);
      CountList(chunk);
      assert forall j :: 0 <= j < |chunk| ==> chunk[j] in g;
      var t := ExpirationQueue.GroupTotals(infos, g);
      power := t.power;
      more := seq(|chunk|, j requires 0 <= j < |chunk| => (infos[chunk[j]].expiration, i));
      MoreEntries(put, infos, updates, chunk, i, more);
      FillStep(base, partitions, infos, proven, size, put, before, i, g);
      if i < |partitions| {
        partitions := partitions[i := AddToPartition(partitions[i], g, infos, power, proven)];
      } else {
        partitions := partitions + [AddToPartition(NEW_PARTITION, g, infos, power, proven)];
      }
    }

    /** A partition with new sectors, given their power. */
    function AddToPartition(p: Partition, g: set<SectorNumber>, ghost infos: Sectors, power: Power,
                            proven: bool): (r: Partition)
      requires power == Total(infos, g).power
      ensures r == Grow(p, g, infos, proven)
    {
      var grown := p.(sectors := p.sectors + g, livePower := p.livePower.Plus(power));
      if proven then grown else grown.(unproven := grown.unproven + g)
    }

    /** Adds live sectors that are new to the deadline. */
    method AddSectors(infos: Sectors, size: nat, proven: bool, sectors: seq<SectorNumber>, quant: QuantSpec)
        returns (power: Power, ghost put: map<SectorNumber, nat>)
      requires Valid(infos, quant) && size > 0
      requires NoRepeats(sectors) && Numbers(sectors) <= infos.Keys && Numbers(sectors) !! AllSectors(partitions)
      modifies this
      ensures Valid(infos, quant) && put.Keys == Numbers(sectors) && earlyTerminations == old(earlyTerminations)
      ensures Filling(old(partitions), partitions, infos, proven, size, put, power)
      ensures InOrder(old(partitions), size, sectors, put, |sectors|)
      ensures |partitions| == if sectors == [] then |old(partitions)|
                              else Max(|old(partitions)|, PlaceOf(old(partitions), size, |sectors| - 1) + 1)
      ensures IndexedMore(old(expirations), expirations, put, infos, quant)
      ensures liveSectors == old(liveSectors) + |sectors| && totalSectors == old(totalSectors) + |sectors|
      ensures livePower == old(livePower).Plus(power)
    {
      hide TableOk, AllSectors, AllLive, NoRepeats, Numbers, TallyAll, PutIn, IndexedMore, IndexOk, Pairs, Entries,
        QuantizeUp, OnGrid, Total, Filling, Updated, Power.Plus, InOrder, PlaceOf;
      IndexUnit(partitions, expirations, infos, quant);
      if sectors == [] {
        power, put := NO_POWER, map[];
        NoNumbers();
        NonePlaced(partitions, size);
        NoUpdates(quant);
        FillStart(partitions, infos, proven, size);
        PlusNothing(livePower);
        ListedEntries([], put, infos, quant, expirations, expirations);
        return;
      }
      liveSectors, totalSectors := liveSectors + |sectors|, totalSectors + |sectors|;
      var updates;
      ghost var was := Tally(old(liveSectors), old(totalSectors), livePower);
      power, updates, put := FillPartitions(infos, size, proven, sectors);
      CountList(sectors);
      FillingGives(old(partitions), partitions, infos, proven, size, put, power, was);
      var queue := new BitFieldQueue(expirations, quant);
      queue.AddManyToQueueValues(updates);
      ListedEntries(updates, put, infos, quant, expirations, queue.amt);
      IndexGrows(old(partitions), partitions, expirations, queue.amt, put, infos, quant, proven);
      expirations := queue.amt;
      livePower := livePower.Plus(power);
    }

    /** Sorts the partitions into those kept and those removed; none of the latter may have faults or
        unproven sectors. */
    method ScanPartitions(infos: Sectors, toRemove: set<nat>)
        returns (ok: bool, kept: seq<Partition>, dead: set<SectorNumber>, live: set<SectorNumber>, power: Power)
      requires TableOk(partitions, infos)
      ensures ok <==> forall i <- toRemove :: i < |partitions| ==>
                        partitions[i].faults == {} && partitions[i].unproven == {}
      ensures ok ==> Scanned(partitions, toRemove, infos, kept, dead, live, power)
    {
      hide Scanned, TableOk, Partition.Live;
      ok, kept, dead, live, power := true, [], {}, {}, NO_POWER;
      ScanStart(toRemove, infos);
      assert partitions[..0] == [];
      for n := 0 to |partitions|
        invariant ok && Scanned(partitions[..n], toRemove, infos, kept, dead, live, power)
        invariant forall i <- toRemove :: i < n ==> partitions[i].faults == {} && partitions[i].unproven == {}
      {
        ScanStep(partitions, n, toRemove, infos, kept, dead, live, power);
        var partition := partitions[n];
        if n !in toRemove {
          kept := kept + [partition];
          continue;
        }
        if partition.faults != {} || partition.unproven != {} {
          ok := false;
          return;
        }
        dead, live, power := dead + partition.terminated, live + partition.Live(), power.Plus(partition.livePower);
      }
      assert partitions[..|partitions|] == partitions;
    }

    /** Removes partitions. Those kept close ranks, in the table and in the index alike; the live sectors
        of those removed are put back, and listed at their expirations; the dead ones are gone. */
    method CompactPartitions(infos: Sectors, size: nat, toRemove: set<nat>, quant: QuantSpec)
        returns (ok: bool, dead: set<SectorNumber>, ghost put: map<SectorNumber, nat>, ghost moved: seq<SectorNumber>)
      requires Valid(infos, quant) && size > 0
      modifies this
      ensures ok <==> toRemove == {} || Removable(old(partitions), old(earlyTerminations), toRemove)
      ensures !ok ==> unchanged(this)
      ensures Valid(infos, quant)
      ensures ok ==> liveSectors == old(liveSectors) && livePower == old(livePower)
      ensures ok ==> totalSectors == old(totalSectors) - |dead|
      ensures ok ==> Compacted(old(partitions), partitions, old(expirations), expirations, toRemove, infos, quant, size,
                               dead, put)
      ensures ok ==> Ascending(moved) && Numbers(moved) == put.Keys
      ensures ok ==> InOrder(Kept(old(partitions), toRemove), size, moved, put, |moved|)
    {
      hide TableOk, IndexOk, TallyAll, Kept, Gone, Total, Filling, IndexedMore, NoRepeats, AllSectors, AllLive, AllDead,
        CutSet, Compacted, Power.Plus, Scanned, Listed, InOrder, Numbers;
      ghost var ps, index := partitions, expirations;
      IndexUnit(ps, index, infos, quant);
      ok, dead, put, moved := false, {}, map[], [];
      if exists i <- toRemove :: i >= |partitions| {
        return;
      }
      if toRemove == {} {
        CompactedNone(ps, index, infos, quant, size);
        NonePlaced(Kept(ps, toRemove), size);
        NoNumbers();
        return true, {}, map[], [];
      }
      if earlyTerminations != {} {
        return;
      }
      var kept, live, removedPower;
      ok, kept, dead, live, removedPower := ScanPartitions(infos, toRemove);
      if !ok {
        return;
      }
      CutPartitions(infos, toRemove, kept, dead, live, removedPower, quant);
      ghost var mid, middle := partitions, expirations;
      var sectors := ListOf(live);
      CountList(sectors);
      var addedPower;
      addedPower, put := AddSectors(infos, size, true, sectors, quant);
      moved := sectors;
      FillingGives(mid, partitions, infos, true, size, put, addedPower, TallyAll(mid));
      CompactedSome(ps, partitions, index, middle, expirations, toRemove, infos, quant, size, dead, put, addedPower);
      if removedPower != addedPower {
        ok := false;
      }
    }

    /** Leaves only the partitions kept, and renumbers the index with them. */
    method CutPartitions(
        infos: Sectors, toRemove: set<nat>, kept: seq<Partition>, dead: set<SectorNumber>, live: set<SectorNumber>,
        power: Power, quant: QuantSpec)
      requires Valid(infos, quant) && Scanned(partitions, toRemove, infos, kept, dead, live, power)
      modifies this
      ensures Valid(infos, quant) && partitions == Kept(old(partitions), toRemove)
      ensures live !! AllSectors(partitions) && live <= infos.Keys && power == Total(infos, live).power
      ensures dead == AllDead(Gone(old(partitions), toRemove)) && live == AllLive(Gone(old(partitions), toRemove))
      ensures liveSectors + |live| == old(liveSectors) && totalSectors + |live| == old(totalSectors) - |dead|
      ensures livePower.Plus(power) == old(livePower)
      ensures earlyTerminations == old(earlyTerminations)
      ensures forall e :: Listed(expirations, e) == CutSet(Listed(old(expirations), e), toRemove)
    {
      hide TableOk, IndexOk, TallyAll, Kept, Gone, Total, QuantizeUp, OnGrid, AllSectors, AllLive, AllDead, CutSet,
        Tally.Plus, Power.Plus, Listed;
      ghost var ps, index := partitions, expirations;
      CutSectors(ps, toRemove, infos);
      KeptAndGone(ps, toRemove);
      LiveIsGone(ps, toRemove);
      TallySplit(TallyAll(ps), TallyAll(kept), |live|, |dead|, power);
      partitions := kept;
      liveSectors := liveSectors - |live|;
      totalSectors := totalSectors - (|live| + |dead|);
      livePower := livePower.Minus(power);
      var queue := new BitFieldQueue(expirations, quant);
      queue.Cut(toRemove);
      IndexCut(ps, toRemove, index, queue.amt, infos, quant);
      expirations := queue.amt;
    }
  }

  /** Partitions can be removed if they exist, have no faults or unproven sectors, and the deadline has
      no early terminations to process. */
  ghost predicate Removable(ps: seq<Partition>, earlyTerminations: set<nat>, toRemove: set<nat>) {
    earlyTerminations == {} &&
    forall i <- toRemove :: i < |ps| && ps[i].faults == {} && ps[i].unproven == {}
  }

  ghost predicate Compacted(
      ps: seq<Partition>, ps': seq<Partition>, queue: map<Epoch, set<nat>>, queue': map<Epoch, set<nat>>,
      toRemove: set<nat>, infos: Sectors, quant: QuantSpec, size: nat, dead: set<SectorNumber>,
      put: map<SectorNumber, nat>)
    requires quant.unit > 0
  {
    var gone := Gone(ps, toRemove);
    && dead == AllDead(gone) && put.Keys == AllLive(gone) && put.Keys <= infos.Keys
    && PutIn(Kept(ps, toRemove), ps', put, infos, true)
    && NoneOverfull(ps', size, put)
    && AllLive(ps') == AllLive(ps) && AllSectors(ps') == AllSectors(ps) - dead
    && (forall e, i :: i in Listed(queue', e) <==>
                         i in CutSet(Listed(queue, e), toRemove) || Expires(put, infos, quant, e, i))
  }

  lemma IndexUnit(ps: seq<Partition>, queue: map<Epoch, set<nat>>, infos: Sectors, quant: QuantSpec)
    requires IndexOk(ps, queue, infos, quant)
    ensures quant.unit > 0
  {
    hide QuantizeUp, OnGrid;
  }

  lemma TallySplit(all: Tally, kept: Tally, live: int, dead: int, power: Power)
    requires all == kept.Plus(Tally(live, live + dead, power))
    ensures kept == Tally(all.live - live, all.total - (live + dead), all.power.Minus(power))
    ensures all.power.Minus(power).Plus(power) == all.power
  {
  }

  lemma LiveIsGone(ps: seq<Partition>, cut: set<nat>)
    ensures AllLive(Gone(ps, cut)) <= AllSectors(Gone(ps, cut))
  {
    hide Gone;
  }

  lemma FillingGives(
      base: seq<Partition>, ps: seq<Partition>, infos: Sectors, proven: bool, size: nat,
      put: map<SectorNumber, nat>, power: Power, was: Tally)
    requires Filling(base, ps, infos, proven, size, put, power) && was == TallyAll(base)
    ensures TableOk(ps, infos) && put.Keys <= infos.Keys && PutIn(base, ps, put, infos, proven)
    ensures power == Total(infos, put.Keys).power
    ensures TallyAll(ps) == Tally(was.live + |put.Keys|, was.total + |put.Keys|, was.power.Plus(power))
  {
    hide Total, TableOk, PutIn, AllSectors, AllLive, TallyAll;
  }

  lemma CutSetNone(s: set<nat>)
    ensures CutSet(s, {}) == s
  {
    hide Rank;
    forall i | i in s
      ensures Rank(i, {}) == i
    {
      RankNone(i);
    }
  }

  lemma CompactedNone(
      ps: seq<Partition>, queue: map<Epoch, set<nat>>, infos: Sectors, quant: QuantSpec, size: nat)
    requires quant.unit > 0
    ensures Compacted(ps, ps, queue, queue, {}, infos, quant, size, {}, map[])
  {
    hide QuantizeUp, PutIn, Kept, Gone, Rank;
    CutNone(ps);
    PutInNone(ps, infos, true);
    forall e
      ensures CutSet(Listed(queue, e), {}) == Listed(queue, e)
    {
      CutSetNone(Listed(queue, e));
    }
    assert AllDead([]) == {} && AllLive([]) == {};
  }

  lemma CompactedSome(
      ps: seq<Partition>, ps': seq<Partition>, queue: map<Epoch, set<nat>>, mid: map<Epoch, set<nat>>,
      queue': map<Epoch, set<nat>>, cut: set<nat>, infos: Sectors, quant: QuantSpec, size: nat,
      dead: set<SectorNumber>, put: map<SectorNumber, nat>, power: Power)
    requires quant.unit > 0 && TableOk(ps, infos)
    requires dead == AllDead(Gone(ps, cut)) && put.Keys == AllLive(Gone(ps, cut)) && put.Keys <= infos.Keys
    requires Filling(Kept(ps, cut), ps', infos, true, size, put, power)
    requires forall e :: Listed(mid, e) == CutSet(Listed(queue, e), cut)
    requires IndexedMore(mid, queue', put, infos, quant)
    ensures Compacted(ps, ps', queue, queue', cut, infos, quant, size, dead, put)
  {
    hide QuantizeUp, OnGrid, PutIn, Kept, Gone, TableOk, CutSet, TallyAll, Total, Listed, AllSectors, AllLive, AllDead;
    CutSectors(ps, cut, infos);
    LiveAndDead(Gone(ps, cut));
    TakenOut(AllSectors(Kept(ps, cut)), AllSectors(Gone(ps, cut)), put.Keys, dead);
  }

  lemma TakenOut(k: set<SectorNumber>, g: set<SectorNumber>, live: set<SectorNumber>, dead: set<SectorNumber>)
    requires k !! g && g == live + dead && live !! dead
    ensures k + g - dead == k + live
  {
  }

  lemma LiveAndDead(ps: seq<Partition>)
    requires TableSound(ps)
    ensures AllSectors(ps) == AllLive(ps) + AllDead(ps) && AllLive(ps) !! AllDead(ps)
  {
    forall n | n in AllSectors(ps)
      ensures n in AllLive(ps) || n in AllDead(ps)
    {
      var i :| 0 <= i < |ps| && n in ps[i].sectors;
      assert n in ps[i].Live() || n in ps[i].terminated;
    }
  }

  lemma PlusNothing(p: Power)
    ensures p.Plus(NO_POWER) == p
  {
  }

  lemma NoNumbers()
    ensures Numbers([]) == {}
  {
  }
}
