/** The queue of expiration sets of a partition, updated in place. */
module ExpirationQueue {
  import opened ExpirationBook
  import opened ExpirationRules
  import opened ExpirationSteps
  import opened Quantization

  /** Sectors that leave on time at one epoch, their totals, and the set recorded there. */
  datatype Group = Group(epoch: Epoch, sectors: set<SectorNumber>, totals: Totals, entry: ExpirationSet)

  ghost function Members(groups: seq<Group>): set<SectorNumber> {
    set i, n | 0 <= i < |groups| && n in groups[i].sectors :: n
  }

  ghost predicate Apart(groups: seq<Group>) {
    forall i, j :: 0 <= i < j < |groups| ==>
                     groups[i].epoch != groups[j].epoch && groups[i].sectors !! groups[j].sectors
  }

  ghost predicate Summed(groups: seq<Group>, ss: Sectors) {
    forall i :: 0 <= i < |groups| ==>
                  && groups[i].sectors != {} && groups[i].sectors <= ss.Keys
                  && groups[i].totals == Total(ss, groups[i].sectors)
  }

  lemma MembersStep(groups: seq<Group>, i: nat)
    requires Apart(groups) && i < |groups|
    ensures Members(groups[..i + 1]) == Members(groups[..i]) + groups[i].sectors
    ensures Members(groups[..i]) !! groups[i].sectors
  {
    assert groups[..i + 1] == groups[..i] + [groups[i]];
  }

  lemma MembersMore(groups: seq<Group>, g: Group)
    ensures Members(groups + [g]) == Members(groups) + g.sectors
  {
    var more := groups + [g];
    assert forall n <- g.sectors :: n in more[|groups|].sectors;
    assert forall i | 0 <= i < |groups| :: more[i] == groups[i];
  }

  lemma ApartMore(groups: seq<Group>, g: Group)
    requires Apart(groups) && Members(groups) !! g.sectors
    requires forall i :: 0 <= i < |groups| ==> groups[i].epoch != g.epoch
    ensures Apart(groups + [g])
  {
    forall i | 0 <= i < |groups|
      ensures groups[i].sectors !! g.sectors
    {
      assert forall n <- groups[i].sectors :: n in Members(groups);
    }
  }

  lemma StoredElsewhere(groups: seq<Group>, i: nat, amt: map<Epoch, ExpirationSet>, entry: ExpirationSet)
    requires i < |groups| && Apart(groups)
    requires forall j :: i <= j < |groups| ==> groups[j].epoch in amt && groups[j].entry == amt[groups[j].epoch]
    ensures var amt' := Stored(amt, groups[i].epoch, entry);
            forall j :: i + 1 <= j < |groups| ==> groups[j].epoch in amt' && groups[j].entry == amt'[groups[j].epoch]
  {
  }

  method GroupTotals(ss: Sectors, ns: set<SectorNumber>) returns (t: Totals)
    requires ns <= ss.Keys
    ensures t == Total(ss, ns)
  {
    hide Total;
    t := NOTHING;
    NoTotal(ss);
    var rest := ns;
    assert ns - rest == {};
    while rest != {}
      invariant rest <= ns
      invariant t == Total(ss, ns - rest)
    {
      var n :| n in rest;
      assert ns - (rest - {n}) - {n} == ns - rest;
      TotalSplit(ss, ns - (rest - {n}), n);
      t := t.Plus(Totals(ss[n].power, ss[n].pledge, ss[n].dailyFee));
      rest := rest - {n};
    }
    assert ns - rest == ns;
  }

  lemma SomeEpoch(s: set<Epoch>)
    ensures s != {} ==> exists e :: e in s
  {
    if forall e :: e !in s {
      assert s == {};
    }
  }

  class ExpirationQueue {
    var amt: map<Epoch, ExpirationSet>
    const quant: QuantSpec
    ghost var book: Book

    /** The queue holds exactly the sets that the book of its sectors calls for. */
    ghost predicate Valid()
      reads this
    {
      Sound(book, quant) && amt == Queue(book)
    }

    constructor (quant: QuantSpec)
      requires quant.unit > 0
      ensures Valid() && this.quant == quant && book == map[]
    {
      this.quant := quant;
      amt, book := map[], map[];
    }

    method Add(rawEpoch: Epoch, s: ExpirationSet) returns (ok: bool)
      requires quant.unit > 0
      modifies this`amt
      ensures ok <==> Lookup(old(amt), QuantizeUp(quant, rawEpoch)).Added(s).NonNegative()
      ensures ok ==> amt == old(amt)[QuantizeUp(quant, rawEpoch)
                                     := Lookup(old(amt), QuantizeUp(quant, rawEpoch)).Added(s)]
      ensures !ok ==> amt == old(amt)
    {
      var epoch := QuantizeUp(quant, rawEpoch);
      var entry := Lookup(amt, epoch).Added(s);
      ok := entry.NonNegative();
      if ok {
        amt := amt[epoch := entry];
      }
    }

    method Remove(rawEpoch: Epoch, s: ExpirationSet) returns (ok: bool)
      requires quant.unit > 0
      modifies this`amt
      ensures var epoch := QuantizeUp(quant, rawEpoch);
              ok <==> && epoch in old(amt) && s.onTime <= old(amt)[epoch].onTime && s.early <= old(amt)[epoch].early
                      && old(amt)[epoch].Removed(s).NonNegative()
      ensures var epoch := QuantizeUp(quant, rawEpoch);
              amt == if ok then Stored(old(amt), epoch, old(amt)[epoch].Removed(s)) else old(amt)
    {
      var epoch := QuantizeUp(quant, rawEpoch);
      if epoch !in amt {
        return false;
      }
      var entry := amt[epoch];
      if !(s.onTime <= entry.onTime) || !(s.early <= entry.early) {
        return false;
      }
      entry := entry.Removed(s);
      ok := entry.NonNegative();
      if ok {
        amt := Stored(amt, epoch, entry);
      }
    }

    /** The sectors numbered `ns` by their quantised declared expiration. */
    method GroupNewSectors(sectors: Sectors, ns: set<SectorNumber>) returns (groups: seq<Group>)
      requires quant.unit > 0 && ns <= sectors.Keys
      ensures Apart(groups) && Summed(groups, sectors) && Members(groups) == ns
      ensures forall i :: 0 <= i < |groups| ==>
                            forall n <- groups[i].sectors :: QuantizeUp(quant, sectors[n].expiration) == groups[i].epoch
    {
      hide Total, QuantizeUp;
      groups := [];
      var rest := ns;
      while rest != {}
        invariant rest <= ns && Members(groups) == ns - rest
        invariant Apart(groups) && Summed(groups, sectors)
        invariant forall i :: 0 <= i < |groups| ==>
                                forall n <- groups[i].sectors ::
                                  QuantizeUp(quant, sectors[n].expiration) == groups[i].epoch
        invariant forall i :: 0 <= i < |groups| ==>
                                forall n <- rest :: QuantizeUp(quant, sectors[n].expiration) != groups[i].epoch
      {
        var m :| m in rest;
        var e := QuantizeUp(quant, sectors[m].expiration);
        var same := set n | n in rest && QuantizeUp(quant, sectors[n].expiration) == e;
        var t := GroupTotals(sectors, same);
        var g := Group(e, same, t, EMPTY);
        MembersMore(groups, g);
        assert m in same;
        groups := groups + [g];
        rest := rest - same;
      }
    }

    /** Schedules new active sectors at their declared expirations. It cannot fail. */
    method AddActiveSectors(sectors: Sectors, ns: set<SectorNumber>)
        returns (ok: bool, numbers: set<SectorNumber>, totals: Totals)
      requires Valid() && ns <= sectors.Keys && ns !! book.Keys
      requires forall n <- sectors :: sectors[n].Sound()
      modifies this
      ensures ok && Valid()
      ensures book == PutDeclared(old(book), quant, sectors, ns)
      ensures numbers == ns && totals == Total(sectors, ns)
    {
      hide Total, QuantizeUp, OnGrid, Queue, Lookup, Grouped, Members, Apart, Put, PutDeclared;
      var groups := GroupNewSectors(sectors, ns);
      ok, numbers, totals := true, {}, NOTHING;
      NoTotal(sectors);
      ghost var start := book;
      NoMembers(groups);
      DeclaredNone(start, quant, sectors);
      for i := 0 to |groups|
        invariant Valid() && ok && numbers <= ns
        invariant numbers == Members(groups[..i]) && totals == Total(sectors, numbers)
        invariant book == PutDeclared(start, quant, sectors, numbers)
      {
        var g := groups[i];
        MembersStep(groups, i);
        MembersPart(groups, i);
        TotalUnion(sectors, numbers, g.sectors);
        DeclaredEpoch(quant, sectors, g);
        DeclaredMore(start, quant, sectors, numbers, g.sectors, g.epoch);
        PutStep(book, quant, sectors, g.sectors, g.epoch, Active);
        ok := Add(g.epoch, Grouped(g.totals, g.sectors, Active));
        if !ok {
          return;
        }
        book := Put(book, sectors, g.sectors, g.epoch, Active);
        numbers := numbers + g.sectors;
        totals := totals.Plus(g.totals);
      }
      assert groups[..|groups|] == groups;
    }

    lemma MembersPart(groups: seq<Group>, i: nat)
      requires i < |groups|
      ensures groups[i].sectors <= Members(groups)
    {
    }

    lemma NoMembers(groups: seq<Group>)
      ensures Members(groups[..0]) == {}
    {
    }

    lemma DeclaredEpoch(quant: QuantSpec, sectors: Sectors, g: Group)
      requires quant.unit > 0 && g.sectors != {} && g.sectors <= sectors.Keys
      requires forall n <- sectors :: sectors[n].Sound()
      requires forall n <- g.sectors :: QuantizeUp(quant, sectors[n].expiration) == g.epoch
      ensures g.epoch >= 0 && OnGrid(quant, g.epoch) && QuantizeUp(quant, g.epoch) == g.epoch
    {
      hide OnGrid, QuantizeUp;
      var n :| n in g.sectors;
      QuantizeUpIsNearest(quant, sectors[n].expiration);
      QuantizeFixed(quant, g.epoch);
    }

    method GroupExpirationSet(sectors: Sectors, wanted: set<SectorNumber>, entry: ExpirationSet, epoch: Epoch)
        returns (g: Group)
      requires wanted <= sectors.Keys
      ensures g.epoch == epoch && g.entry == entry && g.sectors == entry.onTime * wanted
      ensures g.totals == Total(sectors, g.sectors)
    {
      var t := GroupTotals(sectors, entry.onTime * wanted);
      g := Group(epoch, entry.onTime * wanted, t, entry);
    }

    ghost predicate Located(groups: seq<Group>)
      reads this
    {
      forall i :: 0 <= i < |groups| ==>
                    && groups[i].epoch in amt && groups[i].entry == amt[groups[i].epoch]
                    && groups[i].sectors <= groups[i].entry.onTime
    }

    /** The groups account for the sectors numbered `done`. */
    ghost predicate Grouping(groups: seq<Group>, sectors: Sectors, done: set<SectorNumber>)
      reads this
    {
      && Members(groups) == done
      && Apart(groups) && Summed(groups, sectors) && Located(groups)
    }

    lemma MoreGroups(
        groups: seq<Group>, g: Group, sectors: Sectors, seen: set<Epoch>, done: set<SectorNumber>,
        wanted: set<SectorNumber>)
      requires Grouping(groups, sectors, done) && done !! wanted && wanted <= sectors.Keys
      requires g.epoch in amt && g.entry == amt[g.epoch] && g.sectors == g.entry.onTime * wanted && g.sectors != {}
      requires g.totals == Total(sectors, g.sectors)
      requires g.epoch !in seen && forall i :: 0 <= i < |groups| ==> groups[i].epoch in seen
      ensures var more := groups + [g];
              && Grouping(more, sectors, done + g.sectors)
              && forall i :: 0 <= i < |more| ==> more[i].epoch in seen + {g.epoch}
    {
      hide Total, Members, Apart;
      MembersMore(groups, g);
      ApartMore(groups, g);
      var more := groups + [g];
      assert forall i :: 0 <= i < |groups| ==> more[i] == groups[i];
    }

    /** Adds the sectors of `wanted` that leave on time at `epoch` to the groups. */
    method Collect(
        sectors: Sectors, wanted: set<SectorNumber>, epoch: Epoch, groups: seq<Group>,
        ghost ns: set<SectorNumber>, ghost seen: set<Epoch>)
        returns (rest: set<SectorNumber>, more: seq<Group>)
      requires wanted <= ns <= sectors.Keys && Grouping(groups, sectors, ns - wanted)
      requires epoch !in seen && forall i :: 0 <= i < |groups| ==> groups[i].epoch in seen
      ensures rest == wanted - Lookup(amt, epoch).onTime && Grouping(more, sectors, ns - rest)
      ensures forall i :: 0 <= i < |more| ==> more[i].epoch in seen + {epoch}
    {
      hide Total, Members, Apart, Summed;
      var g := GroupExpirationSet(sectors, wanted, Lookup(amt, epoch), epoch);
      rest, more := wanted - g.sectors, groups;
      if g.sectors != {} {
        MoreGroups(groups, g, sectors, seen, ns - wanted, wanted);
        assert ns - rest == ns - wanted + g.sectors;
        more := groups + [g];
      }
    }

    ghost predicate OnTimeIn(n: SectorNumber, epochs: set<Epoch>)
      reads this
    {
      exists e <- epochs :: n in Lookup(amt, e).onTime
    }

    lemma OnTimeSomewhere(declared: set<Epoch>)
      requires Valid()
      ensures forall n :: OnTimeIn(n, declared) || OnTimeIn(n, amt.Keys - declared)
                     <==> n in book && book[n].status != Early
    {
      hide Queue;
      QueueMembers(book);
      forall n: SectorNumber | n in book && book[n].status != Early
        ensures OnTimeIn(n, declared) || OnTimeIn(n, amt.Keys - declared)
      {
        assert n in Lookup(amt, book[n].epoch).onTime;
      }
    }

    /** Looks for the given sectors at their declared expirations. */
    method FindDeclared(sectors: Sectors, ns: set<SectorNumber>, declared: set<Epoch>)
        returns (remaining: set<SectorNumber>, groups: seq<Group>)
      requires ns <= sectors.Keys
      ensures remaining <= ns && Grouping(groups, sectors, ns - remaining)
      ensures forall i :: 0 <= i < |groups| ==> groups[i].epoch in declared
      ensures forall n <- ns :: n in remaining <==> !OnTimeIn(n, declared)
    {
      hide Grouping;
      NoGroups(sectors);
      remaining, groups := ns, [];
      assert ns - remaining == {};
      var todo := declared;
      while todo != {}
        invariant todo <= declared && remaining <= ns && Grouping(groups, sectors, ns - remaining)
        invariant forall i :: 0 <= i < |groups| ==> groups[i].epoch in declared - todo
        invariant forall n <- ns :: n in remaining <==> !OnTimeIn(n, declared - todo)
      {
        SomeEpoch(todo);
        var e :| e in todo;
        remaining, groups := Collect(sectors, remaining, e, groups, ns, declared - todo);
        todo := todo - {e};
      }
    }

    /** Looks for the remaining sectors in the entries of `epochs`. It fails if it comes across one
        that leaves early; otherwise it stops once none remains. */
    method FindElsewhere(
        sectors: Sectors, wanted: set<SectorNumber>, found: seq<Group>, epochs: set<Epoch>, ghost ns: set<SectorNumber>)
        returns (ok: bool, remaining: set<SectorNumber>, groups: seq<Group>)
      requires epochs <= amt.Keys && wanted <= ns <= sectors.Keys && Grouping(found, sectors, ns - wanted)
      requires forall i :: 0 <= i < |found| ==> found[i].epoch !in epochs
      ensures ok ==> Grouping(groups, sectors, ns - remaining) && remaining <= wanted
      ensures ok ==> forall n <- wanted :: n in remaining <==> !OnTimeIn(n, epochs)
      ensures !ok ==> exists e, n | e in epochs && n in wanted :: n in amt[e].early
    {
      hide Grouping;
      ok, remaining, groups := true, wanted, found;
      var todo := epochs;
      while todo != {}
        invariant todo <= epochs && remaining <= wanted && Grouping(groups, sectors, ns - remaining) && ok
        invariant forall i :: 0 <= i < |groups| ==> groups[i].epoch !in todo
        invariant forall n <- wanted :: n in remaining <==> !OnTimeIn(n, epochs - todo)
      {
        if remaining == {} {
          break;
        }
        SomeEpoch(todo);
        var e :| e in todo;
        if !(amt[e].early !! remaining) {
          ok := false;
          return;
        }
        ghost var seen := set i | 0 <= i < |groups| :: groups[i].epoch;
        remaining, groups := Collect(sectors, remaining, e, groups, ns, seen);
        todo := todo - {e};
      }
    }

    /** Finds where the sectors numbered `ns` leave on time. It succeeds exactly when all of them do. */
    method FindSectorsByExpiration(sectors: Sectors, ns: set<SectorNumber>) returns (ok: bool, groups: seq<Group>)
      requires Valid() && ns <= sectors.Keys
      ensures ok <==> forall n <- ns :: n in book && book[n].status != Early
      ensures ok ==> Grouping(groups, sectors, ns)
    {
      hide QuantizeUp, Queue, Grouping, OnTimeIn;
      QueueMembers(book);
      var declared := set n | n in ns :: QuantizeUp(quant, sectors[n].expiration);
      var remaining;
      OnTimeSomewhere(declared);
      remaining, groups := FindDeclared(sectors, ns, declared);
      ok := true;
      if remaining != {} {
        ok, remaining, groups := FindElsewhere(sectors, remaining, groups, amt.Keys - declared, ns);
      }
      ok := ok && remaining == {};
      assert ok ==> ns - remaining == ns;
    }

    lemma NoGroups(sectors: Sectors)
      ensures Grouping([], sectors, {})
    {
      hide Total;
    }

    /** Takes active sectors out. It succeeds exactly when all of them are in the queue and active. */
    method RemoveActiveSectors(sectors: Sectors, ns: set<SectorNumber>)
        returns (ok: bool, numbers: set<SectorNumber>, totals: Totals)
      requires Valid() && Known(book, sectors) && ns <= sectors.Keys
      requires forall n <- ns :: n in book ==> book[n].status != Faulty
      modifies this
      ensures Valid()
      ensures ok <==> forall n <- ns :: n in old(book) && old(book)[n].status == Active
      ensures ok ==> book == old(book) - ns
      ensures ok ==> numbers == ns && totals == Total(sectors, ns)
      ensures !ok ==> book == old(book) && amt == old(amt)
    {
      hide Total, Members, Apart, QuantizeUp, Queue, OnGrid, Grouped, EntryAt, Stored, At;
      var groups;
      ok, groups := FindSectorsByExpiration(sectors, ns);
      numbers, totals := {}, NOTHING;
      if !ok {
        return;
      }
      ghost var start := book;
      NoTotal(sectors);
      NoMembers(groups);
      ActiveGroups(groups, sectors, ns);
      for i := 0 to |groups|
        invariant Valid() && ok && numbers <= ns
        invariant numbers == Members(groups[..i]) && totals == Total(sectors, numbers)
        invariant book == start - numbers
      {
        var g := groups[i];
        MembersStep(groups, i);
        MembersPart(groups, i);
        TotalUnion(sectors, numbers, g.sectors);
        StillAt(start, numbers, g.epoch, g.sectors);
        KnownTotal(book, sectors, g.sectors);
        KeyFixed(book, quant, g.epoch, g.sectors);
        DropStep(book, quant, g.epoch, g.sectors, Active);
        ok := Remove(g.epoch, Grouped(g.totals, g.sectors, Active));
        if !ok {
          return;
        }
        numbers := numbers + g.sectors;
        totals := totals.Plus(g.totals);
        book := book - g.sectors;
        assert book == start - numbers;
      }
      assert groups[..|groups|] == groups;
    }

    lemma ActiveGroups(groups: seq<Group>, sectors: Sectors, ns: set<SectorNumber>)
      requires Valid() && Grouping(groups, sectors, ns)
      requires forall n <- ns :: n in book && book[n].status == Active
      ensures forall i :: 0 <= i < |groups| ==> groups[i].sectors <= At(book, groups[i].epoch, Active)
    {
      hide Queue, Total, Apart, Members;
      QueueMembers(book);
      forall i | 0 <= i < |groups|
        ensures groups[i].sectors <= At(book, groups[i].epoch, Active)
      {
        MembersPart(groups, i);
      }
    }

    lemma StillAt(start: Book, done: set<SectorNumber>, e: Epoch, g: set<SectorNumber>)
      requires g <= At(start, e, Active) && done !! g
      ensures g <= At(start - done, e, Active) && g <= (start - done).Keys
    {
    }

    lemma KeyFixed(book: Book, quant: QuantSpec, e: Epoch, g: set<SectorNumber>)
      requires Sound(book, quant) && g != {} && g <= At(book, e, Active)
      ensures QuantizeUp(quant, e) == e
    {
      hide QuantizeUp, OnGrid;
      var n :| n in g;
      QuantizeFixed(quant, book[n].epoch);
    }

    /** Moves active sectors to one new expiration. It succeeds exactly when all of them are active. */
    method RescheduleExpirations(newExpiration: Epoch, sectors: Sectors) returns (ok: bool)
      requires Valid() && Known(book, sectors) && newExpiration >= 0
      requires forall n <- sectors :: sectors[n].Sound() && (n in book ==> book[n].status != Faulty)
      modifies this
      ensures Valid()
      ensures ok <==> forall n <- sectors :: n in old(book) && old(book)[n].status == Active
      ensures book.Keys == old(book).Keys
      ensures forall n <- book ::
                book[n] == if ok && n in sectors then Placed(sectors[n], QuantizeUp(quant, newExpiration), Active)
                           else old(book)[n]
    {
      hide Total, Queue, QuantizeUp, OnGrid, Lookup, Grouped;
      if sectors.Keys == {} {
        return true;
      }
      var numbers, totals;
      ok, numbers, totals := RemoveActiveSectors(sectors, sectors.Keys);
      if !ok {
        return;
      }
      QuantizeUpIsNearest(quant, newExpiration);
      PutStep(book, quant, sectors, numbers, QuantizeUp(quant, newExpiration), Active);
      ok := Add(newExpiration, Grouped(totals, numbers, Active));
      book := Put(book, sectors, numbers, QuantizeUp(quant, newExpiration), Active);
    }

    /** Swaps active sectors for new ones. It succeeds exactly when all the old ones are active. */
    method ReplaceSectors(olds: Sectors, news: Sectors) returns (ok: bool, delta: Totals)
      requires Valid() && Known(book, olds)
      requires forall n <- olds :: n in book ==> book[n].status != Faulty
      requires news.Keys !! book.Keys - olds.Keys
      requires forall n <- news :: news[n].Sound()
      modifies this
      ensures Valid()
      ensures ok <==> forall n <- olds :: n in old(book) && old(book)[n].status == Active
      ensures ok ==> book == PutDeclared(old(book) - olds.Keys, quant, news, news.Keys)
      ensures ok ==> delta == Total(news, news.Keys).Minus(Total(olds, olds.Keys))
      ensures !ok ==> book == old(book)
    {
      hide Total, Queue, QuantizeUp, OnGrid, PutDeclared;
      var numbers, oldTotals, newTotals;
      delta := NOTHING;
      ok, numbers, oldTotals := RemoveActiveSectors(olds, olds.Keys);
      if !ok {
        return;
      }
      ok, numbers, newTotals := AddActiveSectors(news, news.Keys);
      delta := newTotals.Minus(oldTotals);
    }

    /** Fails active sectors, which then leave early if the fault's limit comes before their
        expiration. It succeeds exactly when all of them are active, and returns their power. */
    method RescheduleAsFaults(newExpiration: Epoch, sectors: Sectors) returns (ok: bool, power: Power)
      requires Valid() && Known(book, sectors) && newExpiration >= 0
      requires forall n <- sectors :: sectors[n].Sound() && (n in book ==> book[n].status != Faulty)
      modifies this
      ensures Valid()
      ensures ok <==> forall n <- sectors :: n in old(book) && old(book)[n].status == Active
      ensures ok ==> book == Fault(old(book), sectors.Keys, QuantizeUp(quant, newExpiration))
      ensures ok ==> power == Total(sectors, sectors.Keys).power
      ensures !ok ==> book == old(book) && amt == old(amt)
    {
      hide Total, Members, Apart, QuantizeUp, Queue, OnGrid, Grouped, EntryAt, Stored, At, Turned, Failing, Late,
        Turn, Put, Fault, ExpirationSet.Removed, ExpirationSet.Added, Lookup;
      power := NO_POWER;
      var groups;
      ok, groups := FindSectorsByExpiration(sectors, sectors.Keys);
      if !ok {
        return;
      }
      var q := QuantizeUp(quant, newExpiration);
      ghost var start := book;
      ghost var done: set<SectorNumber> := {};
      var moved: set<SectorNumber> := {};
      var expiring, rescheduled := NOTHING, NOTHING;
      NoTotal(sectors);
      NoMembers(groups);
      ActiveGroups(groups, sectors, sectors.Keys);
      FailStart(start, q);
      assert done - moved == {};
      for i := 0 to |groups|
        invariant Valid() && ok && done <= sectors.Keys && moved <= done
        invariant done == Members(groups[..i])
        invariant Failing(start, book, done, q) && moved == Late(start, done, q)
        invariant expiring == Total(sectors, done - moved) && rescheduled == Total(sectors, moved)
        invariant forall j :: i <= j < |groups| ==>
                                groups[j].epoch in amt && groups[j].entry == amt[groups[j].epoch]
      {
        var g := groups[i];
        MembersStep(groups, i);
        MembersPart(groups, i);
        FailHere(start, book, done, q, g.epoch, g.sectors);
        FailKnown(start, book, sectors, done, q, g.epoch, g.sectors);
        var entry;
        if g.epoch <= q {
          entry := Turned(g.entry, g.totals.power, Faulty);
          TurnStep(book, quant, g.epoch, g.sectors, Active, Faulty);
          book := Turn(book, g.sectors, Faulty);
          assert done + g.sectors - moved == done - moved + g.sectors;
          TotalUnion(sectors, done - moved, g.sectors);
          expiring := expiring.Plus(g.totals);
        } else {
          entry := g.entry.Removed(Grouped(g.totals, g.sectors, Active));
          DropStep(book, quant, g.epoch, g.sectors, Active);
          book := book - g.sectors;
          TotalUnion(sectors, moved, g.sectors);
          assert done + g.sectors - (moved + g.sectors) == done - moved;
          moved := moved + g.sectors;
          rescheduled := rescheduled.Plus(g.totals);
        }
        StoredElsewhere(groups, i, amt, entry);
        amt := Stored(amt, g.epoch, entry);
        done := done + g.sectors;
        if !entry.NonNegative() {
          return false, power;
        }
      }
      assert groups[..|groups|] == groups;
      FailDone(start, book, sectors, done, q);
      TotalMinus(sectors, done, moved);
      power := rescheduled.power.Plus(expiring.power);
      if moved != {} {
        QuantizeUpIsNearest(quant, newExpiration);
        PutStep(book, quant, sectors, moved, q, Early);
        ok := Add(newExpiration, Grouped(rescheduled, moved, Early));
        book := Put(book, sectors, moved, q, Early);
      } else {
        PutNothing(book, sectors, q);
      }
    }

    /** Reads the whole queue: what its entries up to `q` become when everything in them fails, and
        all that leaves later. It fails if any of that was to leave early already. */
    method ScanAll(q: Epoch)
        returns (ok: bool, changed: map<Epoch, ExpirationSet>, late: set<Epoch>, moved: set<SectorNumber>,
                 totals: Totals)
      requires Valid()
      ensures ok <==> forall n <- book :: book[n].status == Early ==> book[n].epoch <= q
      ensures ok ==> late == set e | e in amt && e > q
      ensures ok ==> forall e <- amt :: e in changed <==> e <= q
      ensures ok ==> forall e <- changed :: e in amt && changed[e] == Turned(amt[e], amt[e].active, Faulty)
      ensures ok ==> moved == Beyond(book, q)
      ensures ok ==> totals.power == Total(Infos(book), moved).power && totals.fee == Total(Infos(book), moved).fee
    {
      hide Total, Queue, Turned, Leaving, Beyond;
      ok, changed, late, moved, totals := true, map[], {}, {}, NOTHING;
      QueueMembers(book);
      NoTotal(Infos(book));
      LeavingNone(book);
      var todo := amt.Keys;
      while todo != {}
        invariant todo <= amt.Keys && ok
        invariant changed.Keys == set e | e in amt.Keys - todo && e <= q
        invariant late == set e | e in amt.Keys - todo && e > q
        invariant forall e <- changed :: changed[e] == Turned(amt[e], amt[e].active, Faulty)
        invariant forall e <- late :: amt[e].early == {}
        invariant moved == Leaving(book, late)
        invariant totals.power == Total(Infos(book), moved).power && totals.fee == Total(Infos(book), moved).fee
      {
        SomeEpoch(todo);
        var e :| e in todo;
        todo := todo - {e};
        if e <= q {
          changed := changed[e := Turned(amt[e], amt[e].active, Faulty)];
        } else {
          if amt[e].early != {} {
            ghost var n :| n in amt[e].early;
            assert n in book && book[n].status == Early && book[n].epoch > q;
            return false, changed, late, moved, totals;
          }
          LeavingMore(book, late, e);
          late := late + {e};
          moved := moved + amt[e].onTime;
          totals := Totals(totals.power.Plus(amt[e].active).Plus(amt[e].faulty), 0, totals.fee + amt[e].fee);
        }
      }
      LeavingLate(book, q, late);
    }

    /** Fails every sector. It succeeds exactly when none that is to leave early does so after the limit. */
    method RescheduleAllAsFaults(faultExpiration: Epoch) returns (ok: bool)
      requires Valid() && faultExpiration >= 0
      modifies this
      ensures Valid()
      ensures ok <==> forall n <- old(book) ::
                        old(book)[n].status == Early ==> old(book)[n].epoch <= QuantizeUp(quant, faultExpiration)
      ensures ok ==> book == Fault(old(book), old(book).Keys, QuantizeUp(quant, faultExpiration))
      ensures !ok ==> book == old(book) && amt == old(amt)
    {
      hide Total, Queue, QuantizeUp, OnGrid, Turned, Kept, Beyond, Infos, Put, Fault, Lookup, Grouped;
      var q := QuantizeUp(quant, faultExpiration);
      var changed, late, moved, totals;
      ok, changed, late, moved, totals := ScanAll(q);
      if !ok {
        return;
      }
      ghost var start, infos := book, Infos(book);
      BulkWrites(amt, start, quant, q, changed, late,
                 Lookup(Queue(Kept(start, q)), q).Added(Grouped(Total(infos, moved), moved, Early)));
      KeptSound(start, quant, q);
      KeptAndBeyond(start, q);
      LeavingLate(start, q, late);
      amt := amt + changed;
      if !forall e <- changed :: changed[e].NonNegative() {
        return false;
      }
      if late == {} {
        NoneBeyond(start, q);
        book := Kept(start, q);
        return;
      }
      QuantizeUpIsNearest(quant, faultExpiration);
      PutStep(Kept(start, q), quant, infos, moved, q, Early);
      EarlyGroup(totals, Total(infos, moved), moved);
      ok := Add(faultExpiration, Grouped(totals, moved, Early));
      if !ok {
        return;
      }
      amt := amt - late;
      book := Put(Kept(start, q), infos, moved, q, Early);
    }

    lemma EarlyGroup(s: Totals, t: Totals, g: set<SectorNumber>)
      requires s.power == t.power && s.fee == t.fee
      ensures Grouped(s, g, Early) == Grouped(t, g, Early)
    {
    }

    /** Makes the wanted sectors of one entry active: those that leave on time stay, and those that
        were to leave early are taken out. The entry may be left empty. */
    method RecoverEntry(e: Epoch, sectors: Sectors, wanted: set<SectorNumber>, ghost start: Book,
                        ghost done: set<SectorNumber>)
        returns (ok: bool, healed: set<SectorNumber>, unset: set<SectorNumber>, power: Power)
      requires Sound(book, quant) && Covers(amt, book) && e in amt
      requires wanted <= sectors.Keys && done !! wanted && Healing(start, book, done)
      requires Known(start, sectors) && forall n <- wanted :: n in start ==> start[n].status != Active
      modifies this
      ensures ok && Sound(book, quant) && Covers(amt, book)
      ensures amt.Keys == old(amt).Keys && forall i <- amt :: i != e ==> amt[i] == old(amt)[i]
      ensures healed == old(amt)[e].onTime * wanted && unset == old(amt)[e].early * wanted
      ensures Healing(start, book, done + healed + unset)
      ensures power == Total(sectors, healed + unset).power
      ensures forall n <- wanted :: n in healed + unset <==> n in start && start[n].epoch == e
      ensures forall n <- healed + unset :: n in unset <==> start[n].status == Early
    {
      hide Total, EntryAt, OnGrid, Turned, Grouped, Covers, HealEntry, ExpirationSet.Removed, Healing;
      var entry := amt[e];
      healed, unset := entry.onTime * wanted, entry.early * wanted;
      var th := GroupTotals(sectors, healed);
      var ty := GroupTotals(sectors, unset);
      power := th.power.Plus(ty.power);
      HealHere(amt, start, book, sectors, done, e, wanted);
      EntryHealed(book, quant, e, healed, unset);
      HealCovers(amt, book, e, healed, unset);
      entry := Turned(entry, th.power, Active).Removed(Grouped(ty, unset, Early));
      amt := amt[e := entry];
      book := HealEntry(book, healed, unset);
      TotalUnion(sectors, healed, unset);
      ok := entry.NonNegative();
    }

    /** Finds the given faulty sectors in one pass, makes them active, takes out those that were to
        leave early, and deletes the entries this leaves empty. */
    method FindRecovered(sectors: Sectors) returns (ok: bool, early: set<SectorNumber>, power: Power)
      requires Valid() && Known(book, sectors)
      requires forall n <- sectors :: n in book ==> book[n].status != Active
      modifies this
      ensures Valid()
      ensures ok <==> sectors.Keys <= old(book).Keys
      ensures Healing(old(book), book, sectors.Keys)
      ensures ok ==> early == set n | n in sectors && old(book)[n].status == Early
      ensures ok ==> power == Total(sectors, sectors.Keys).power
    {
      hide Total, Queue, Sound, Covers, Healing, Looking, ExpirationSet.IsEmpty;
      ghost var start := book;
      var ns := sectors.Keys;
      var remaining, emptied, todo := ns, {}, amt.Keys;
      early, power := {}, NO_POWER;
      QueueCovers(book);
      QueueNotEmpty(book);
      HealStart(book);
      LookStart(book, sectors, ns);
      assert ns - remaining == {};
      var going := true;
      while todo != {} && going
        invariant todo <= amt.Keys && remaining <= ns
        invariant Sound(book, quant) && Covers(amt, book)
        invariant Healing(start, book, ns - remaining)
        invariant forall e <- amt :: amt[e].IsEmpty() <==> e in emptied
        invariant forall e <- todo :: e !in emptied
        invariant Looking(start, sectors, ns, remaining, early, power, todo)
        invariant !going ==> remaining == {}
      {
        SomeEpoch(todo);
        var e :| e in todo;
        var healed, unset, p;
        ok, healed, unset, p := RecoverEntry(e, sectors, remaining, start, ns - remaining);
        if !ok {
          return;
        }
        if amt[e].IsEmpty() {
          emptied := emptied + {e};
        }
        LookStep(start, sectors, ns, remaining, early, power, todo, e, healed, unset);
        remaining, early, power := remaining - healed - unset, early + unset, power.Plus(p);
        todo := todo - {e};
        going := remaining != {};
      }
      LookDone(start, sectors, ns, remaining, early, power, todo);
      HealMissing(start, book, ns, remaining);
      CoversQueue(amt, book, emptied);
      amt := amt - emptied;
      ok := remaining == {};
    }

    /** Makes faulty sectors active again, at their declared expiration if they were to leave early.
        It succeeds exactly when all of them are in the queue, and returns their power. When it fails,
        those that were there are healed or taken out, and none is put back. */
    method RescheduleRecovered(sectors: Sectors) returns (ok: bool, power: Power)
      requires Valid() && Known(book, sectors)
      requires forall n <- sectors :: sectors[n].Sound() && (n in book ==> book[n].status != Active)
      modifies this
      ensures Valid()
      ensures ok <==> sectors.Keys <= old(book).Keys
      ensures ok ==> book == Recover(old(book), sectors.Keys, quant)
      ensures !ok ==> Healing(old(book), book, sectors.Keys)
      ensures ok ==> power == Total(sectors, sectors.Keys).power
    {
      hide Total, Queue, QuantizeUp, OnGrid, Healing, PutDeclared, Recover;
      ghost var start := book;
      var early;
      ok, early, power := FindRecovered(sectors);
      if !ok {
        return;
      }
      HealDone(start, book, quant, sectors, sectors.Keys, early);
      var numbers, totals;
      ok, numbers, totals := AddActiveSectors(sectors, early);
    }

    /** Takes the wanted faulty sectors out of one entry, which may be left empty. */
    method RemoveEntry(e: Epoch, sectors: Sectors, wanted: set<SectorNumber>, ghost start: Book,
                       ghost done: set<SectorNumber>)
        returns (ok: bool, onTime: set<SectorNumber>, early: set<SectorNumber>, tf: Totals, ty: Totals)
      requires Sound(book, quant) && book == start - done && Covers(amt, book) && e in amt
      requires wanted <= sectors.Keys && done !! wanted
      requires Known(start, sectors) && forall n <- wanted :: n in start ==> start[n].status != Active
      modifies this
      ensures ok && Sound(book, quant) && Covers(amt, book)
      ensures amt.Keys == old(amt).Keys && forall i <- amt :: i != e ==> amt[i] == old(amt)[i]
      ensures onTime <= wanted && early <= wanted && onTime !! early
      ensures book == start - (done + onTime + early)
      ensures tf == Total(sectors, onTime) && ty == Total(sectors, early)
      ensures forall n <- wanted :: n in onTime + early <==> n in start && start[n].epoch == e
      ensures forall n <- onTime + early :: n in early <==> start[n].status == Early
    {
      hide Total, EntryAt, OnGrid, Grouped, Covers, ExpirationSet.Removed;
      var entry := amt[e];
      onTime, early := entry.onTime * wanted, entry.early * wanted;
      tf := GroupTotals(sectors, onTime);
      ty := GroupTotals(sectors, early);
      RemoveHere(amt, start, sectors, done, e, wanted);
      EntryLess(book, quant, e, onTime, early);
      RemoveCovers(amt, book, e, onTime, early);
      entry := entry.Removed(Grouped(tf, onTime, Faulty)).Removed(Grouped(ty, early, Early));
      amt := amt[e := entry];
      book := book - (onTime + early);
      ok := entry.NonNegative();
    }

    /** Finds faulty sectors in one pass, takes them out, and deletes the entries this leaves empty. */
    method RemoveFaulty(
        sectors: Sectors, ns: set<SectorNumber>, recovering: set<SectorNumber>, first: ExpirationSet,
        ghost active: set<SectorNumber>)
        returns (ok: bool, removed: ExpirationSet, recoveringPower: Power)
      requires Valid() && Known(book, sectors) && ns <= sectors.Keys && active !! ns
      requires first == Recorded(sectors, active, {}, {})
      requires forall n <- ns :: n in book ==> book[n].status != Active
      modifies this
      ensures Valid()
      ensures ok <==> ns <= old(book).Keys
      ensures book == old(book) - ns
      ensures ok ==> removed == Recorded(sectors, active, Those(old(book), ns, Faulty), Those(old(book), ns, Early))
      ensures ok ==> recoveringPower == Total(sectors, ns * recovering).power
    {
      hide Total, Queue, Sound, Covers, Looking, ExpirationSet.IsEmpty, ExpirationSet.Added, Recorded, Grouped;
      ghost var start := book;
      var remaining, emptied, todo := ns, {}, amt.Keys;
      ghost var early: set<SectorNumber>, power := {}, NO_POWER;
      removed, recoveringPower := first, NO_POWER;
      QueueCovers(book);
      QueueNotEmpty(book);
      LookStart(book, sectors, ns);
      NoTotal(sectors);
      assert (ns - remaining) * recovering == {} && ns - remaining == {} && ns - remaining - early == {};
      var going := true;
      while todo != {} && going
        invariant todo <= amt.Keys && remaining <= ns
        invariant Sound(book, quant) && Covers(amt, book)
        invariant book == start - (ns - remaining)
        invariant forall e <- amt :: amt[e].IsEmpty() <==> e in emptied
        invariant forall e <- todo :: e !in emptied
        invariant Looking(start, sectors, ns, remaining, early, power, todo)
        invariant early <= ns - remaining
        invariant removed == Recorded(sectors, active, ns - remaining - early, early)
        invariant recoveringPower == Total(sectors, (ns - remaining) * recovering).power
        invariant !going ==> remaining == {}
      {
        SomeEpoch(todo);
        var e :| e in todo;
        var f, y, tf, ty;
        ok, f, y, tf, ty := RemoveEntry(e, sectors, remaining, start, ns - remaining);
        if !ok {
          return;
        }
        if amt[e].IsEmpty() {
          emptied := emptied + {e};
        }
        var again := GroupTotals(sectors, (f + y) * recovering);
        LookStep(start, sectors, ns, remaining, early, power, todo, e, f, y);
        RemovedMore(sectors, active, ns, remaining, early, f, y, recovering);
        removed := removed.Added(Grouped(tf, f, Faulty)).Added(Grouped(ty, y, Early));
        recoveringPower := recoveringPower.Plus(again.power);
        remaining := remaining - f - y;
        early, power := early + y, power.Plus(Total(sectors, f + y).power);
        todo := todo - {e};
        going := remaining != {};
      }
      LookDone(start, sectors, ns, remaining, early, power, todo);
      assert start - (ns - remaining) == start - ns;
      CoversQueue(amt, book, emptied);
      amt := amt - emptied;
      ok := remaining == {};
      assert ok ==> early == Those(start, ns, Early) && ns - early == Those(start, ns, Faulty);
    }

    /** Removes sectors, active or faulty. It succeeds exactly when all of them are in the queue, and
        returns what was recorded of them and the power of those recovering. When it fails for want of an
        active sector nothing has changed; when it fails for want of a faulty one the rest are gone. */
    method RemoveSectors(sectors: Sectors, faults: set<SectorNumber>, recovering: set<SectorNumber>)
        returns (ok: bool, removed: ExpirationSet, recoveringPower: Power)
      requires Valid() && Known(book, sectors)
      requires forall n <- sectors :: n in book ==> (n in faults <==> book[n].status != Active)
      modifies this
      ensures Valid()
      ensures ok <==> sectors.Keys <= old(book).Keys
      ensures book == if sectors.Keys - faults <= old(book).Keys then old(book) - sectors.Keys else old(book)
      ensures ok ==> removed == RecordOf(old(book), sectors.Keys)
      ensures ok ==> recoveringPower == Total(sectors, sectors.Keys * faults * recovering).power
    {
      hide Total, Queue, Sound, Recorded;
      ghost var start := book;
      var active, faulty := sectors.Keys - faults, sectors.Keys * faults;
      removed, recoveringPower := EMPTY, NO_POWER;
      var numbers, totals;
      ok, numbers, totals := RemoveActiveSectors(sectors, active);
      if !ok {
        return;
      }
      RecordedActive(sectors, active);
      ok, removed, recoveringPower :=
        RemoveFaulty(sectors, faulty, recovering, Grouped(totals, numbers, Active), active);
      assert start - active - faulty == start - sectors.Keys;
      if ok {
        RemovedIs(start, sectors, active, faulty);
      }
    }

    lemma RemovedMore(
        ss: Sectors, active: set<SectorNumber>, ns: set<SectorNumber>, remaining: set<SectorNumber>,
        early: set<SectorNumber>, f: set<SectorNumber>, y: set<SectorNumber>, recovering: set<SectorNumber>)
      requires active !! ns && early <= ns - remaining && remaining <= ns && f <= remaining && y <= remaining && f !! y
      ensures var left := remaining - f - y;
              && Recorded(ss, active, ns - left - (early + y), early + y)
              == Recorded(ss, active, ns - remaining - early, early)
                   .Added(Grouped(Total(ss, f), f, Faulty)).Added(Grouped(Total(ss, y), y, Early))
              && Total(ss, (ns - left) * recovering)
              == Total(ss, (ns - remaining) * recovering).Plus(Total(ss, (f + y) * recovering))
    {
      hide Total, Recorded, Grouped, ExpirationSet.Added;
      RecordedMore(ss, active, ns - remaining - early, early, f, y);
      TotalUnion(ss, (ns - remaining) * recovering, (f + y) * recovering);
      var left := remaining - f - y;
      assert ns - remaining - early + f == ns - left - (early + y);
      assert (ns - remaining) * recovering + (f + y) * recovering == (ns - left) * recovering;
    }

    lemma RemovedIs(start: Book, sectors: Sectors, active: set<SectorNumber>, faulty: set<SectorNumber>)
      requires Known(start, sectors) && sectors.Keys == active + faulty && sectors.Keys <= start.Keys
      requires forall n <- active :: start[n].status == Active
      requires forall n <- faulty :: start[n].status != Active
      ensures RecordOf(start, sectors.Keys)
           == Recorded(sectors, active, Those(start - active, faulty, Faulty), Those(start - active, faulty, Early))
    {
      hide Total, Recorded;
      var a, f, y := Those(start, sectors.Keys, Active), Those(start, sectors.Keys, Faulty),
                     Those(start, sectors.Keys, Early);
      RecordedSame(Infos(start), sectors, a, f, y);
      assert a == active;
      assert f == Those(start - active, faulty, Faulty);
      assert y == Those(start - active, faulty, Early);
    }

    /** Removes everything that leaves by an epoch, and returns what was recorded of it. */
    method PopUntil(until: Epoch) returns (popped: ExpirationSet)
      requires Valid()
      modifies this
      ensures Valid()
      ensures book == old(book) - DueBy(old(book), until)
      ensures forall n: SectorNumber ::
                n in book <==> n in old(book) && old(book)[n].epoch > until
      ensures forall n <- book :: book[n] == old(book)[n]
      ensures popped == RecordOf(old(book), DueBy(old(book), until))
    {
      hide Total, Queue, Sound, RecordOf, Leaving, DueBy, ExpirationSet.Added;
      var due := set e | e in amt && e <= until;
      var todo := due;
      popped := EMPTY;
      PopNone(book);
      assert due - todo == {};
      while todo != {}
        invariant todo <= due && amt == old(amt) && book == old(book)
        invariant popped == RecordOf(book, Leaving(book, due - todo))
      {
        SomeEpoch(todo);
        var e :| e in todo;
        PopStep(book, due - todo, e);
        popped := popped.Added(amt[e]);
        assert due - (todo - {e}) == due - todo + {e};
        todo := todo - {e};
      }
      assert due - todo == due;
      PopDone(book, quant, until, due);
      PopLeaves(book, until);
      amt := amt - due;
      book := book - DueBy(book, until);
    }
  }
}
