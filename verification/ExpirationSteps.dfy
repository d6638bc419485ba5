/** The single steps an expiration queue takes, as facts about the book and the queue it stands for. */
module ExpirationSteps {
  import opened ExpirationBook
  import opened ExpirationRules
  import opened Quantization

  lemma EntrySets(book: Book, e: Epoch)
    ensures EntryAt(book, e).onTime == At(book, e, Active) + At(book, e, Faulty)
    ensures EntryAt(book, e).early == At(book, e, Early)
  {
    hide Total;
  }

  /** Sectors given as they are on chain: the book holds no other terms for them. */
  ghost predicate Known(book: Book, ss: Sectors) {
    forall n <- ss :: n in book ==> book[n].sector == ss[n]
  }

  lemma KnownTotal(book: Book, ss: Sectors, g: set<SectorNumber>)
    requires Known(book, ss) && g <= ss.Keys && g <= book.Keys
    ensures Total(ss, g) == Total(Infos(book), g)
  {
    hide Total;
    TotalSame(ss, Infos(book), g);
  }

  lemma PutStep(book: Book, quant: QuantSpec, ss: Sectors, g: set<SectorNumber>, e: Epoch, status: Status)
    requires Sound(book, quant) && e >= 0 && OnGrid(quant, e)
    requires forall n <- ss :: ss[n].Sound()
    requires g != {} && g <= ss.Keys && g !! book.Keys
    ensures var book' := Put(book, ss, g, e, status);
            var entry := Lookup(Queue(book), e).Added(Grouped(Total(ss, g), g, status));
            Sound(book', quant) && Queue(book') == Queue(book)[e := entry] && entry.NonNegative()
  {
    hide Queue, Total, EntryAt, Lookup, Grouped, OnGrid;
    var book' := Put(book, ss, g, e, status);
    QueuePut(book, ss, g, e, status);
    QueueAt(book', e);
    RecordedNonNegative(book', quant, e);
    Looked(Queue(book), e, Lookup(Queue(book), e).Added(Grouped(Total(ss, g), g, status)));
  }

  lemma Looked(queue: map<Epoch, ExpirationSet>, e: Epoch, s: ExpirationSet)
    ensures Lookup(queue[e := s], e) == s
  {
  }

  lemma DropStep(book: Book, quant: QuantSpec, e: Epoch, g: set<SectorNumber>, status: Status)
    requires Sound(book, quant) && g != {} && g <= At(book, e, status)
    ensures var part := Grouped(Total(Infos(book), g), g, status);
            var entry := EntryAt(book, e).Removed(part);
            && e in Queue(book) && Queue(book)[e] == EntryAt(book, e)
            && part.onTime <= EntryAt(book, e).onTime && part.early <= EntryAt(book, e).early
            && Sound(book - g, quant) && entry == EntryAt(book - g, e) && entry.NonNegative()
            && Queue(book - g) == Stored(Queue(book), e, entry)
  {
    hide Total, EntryAt, PartAt, Stored, OnGrid;
    var n :| n in g;
    assert n in book && book[n].epoch == e;
    EntrySets(book, e);
    PartIs(book, e, g, status);
    EntryWithout(book, e, g);
    RecordedNonNegative(book - g, quant, e);
    QueueDrop(book, e, g, status);
  }

  lemma TurnStep(book: Book, quant: QuantSpec, e: Epoch, g: set<SectorNumber>, from: Status, to: Status)
    requires Sound(book, quant) && g != {} && g <= At(book, e, from)
    requires (from == Active && to == Faulty) || (from == Faulty && to == Active)
    ensures var entry := Turned(EntryAt(book, e), Total(Infos(book), g).power, to);
            && e in Queue(book) && Queue(book)[e] == EntryAt(book, e)
            && Sound(Turn(book, g, to), quant) && entry == EntryAt(Turn(book, g, to), e) && entry.NonNegative()
            && Queue(Turn(book, g, to)) == Stored(Queue(book), e, entry)
  {
    hide Total, EntryAt, OnGrid, Turned;
    var n :| n in g;
    assert n in book && book[n].epoch == e;
    QueueTurn(book, e, g, from, to);
    var book' := Turn(book, g, to);
    assert n in book' && book'[n].epoch == e;
    assert e in Queue(book');
    assert EntryAt(book', e) == Queue(book')[e];
    RecordedNonNegative(book', quant, e);
  }

  /** An array that still holds entries whose last sector has gone. */
  ghost predicate Covers(amt: map<Epoch, ExpirationSet>, book: Book) {
    Epochs(book) <= amt.Keys && forall e <- amt :: amt[e] == EntryAt(book, e)
  }

  lemma QueueCovers(book: Book)
    ensures Covers(Queue(book), book)
  {
    hide EntryAt;
  }

  /** Deleting the entries left empty gives the queue. */
  lemma CoversQueue(amt: map<Epoch, ExpirationSet>, book: Book, emptied: set<Epoch>)
    requires Covers(amt, book)
    requires forall e <- amt :: amt[e].IsEmpty() <==> e in emptied
    ensures amt - emptied == Queue(book)
  {
    hide EntryAt, ExpirationSet.IsEmpty, Epochs;
    forall e: Epoch
      ensures e in amt - emptied <==> e in Epochs(book)
    {
      EmptyEntry(book, e);
      if e in amt {
        assert amt[e] == EntryAt(book, e);
      }
    }
  }

  lemma CoversChange(amt: map<Epoch, ExpirationSet>, book: Book, book': Book, e: Epoch)
    requires Covers(amt, book) && e in amt
    requires forall n: SectorNumber :: n in book && book[n].epoch != e ==> n in book' && book'[n] == book[n]
    requires forall n: SectorNumber :: n in book' && book'[n].epoch != e ==> n in book && book'[n] == book[n]
    ensures Covers(amt[e := EntryAt(book', e)], book')
  {
    hide EntryAt;
    forall i: Epoch | i != e
      ensures EntryAt(book, i) == EntryAt(book', i) && (i in Epochs(book) <==> i in Epochs(book'))
    {
      EntrySame(book, book', i);
    }
  }

  /** An entry without some of its sectors of two kinds. */
  lemma EntryLess(book: Book, quant: QuantSpec, e: Epoch, f: set<SectorNumber>, y: set<SectorNumber>)
    requires Sound(book, quant) && f <= At(book, e, Faulty) && y <= At(book, e, Early)
    ensures EntryAt(book - (f + y), e) == EntryAt(book, e)
              .Removed(Grouped(Total(Infos(book), f), f, Faulty)).Removed(Grouped(Total(Infos(book), y), y, Early))
    ensures EntryAt(book - (f + y), e).NonNegative() && Sound(book - (f + y), quant)
  {
    hide Total, EntryAt, PartAt, OnGrid, Grouped, ExpirationSet.Removed;
    PartIs(book, e, f, Faulty);
    EntryWithout(book, e, f);
    assert y <= At(book - f, e, Early);
    PartIs(book - f, e, y, Early);
    EntryWithout(book - f, e, y);
    assert book - f - y == book - (f + y);
    TotalSame(Infos(book), Infos(book - f), y);
    RecordedNonNegative(book - (f + y), quant, e);
  }

  ghost function HealEntry(book: Book, h: set<SectorNumber>, y: set<SectorNumber>): Book {
    Turn(book, h, Active) - y
  }

  lemma EntryHealed(book: Book, quant: QuantSpec, e: Epoch, h: set<SectorNumber>, y: set<SectorNumber>)
    requires Sound(book, quant) && h <= At(book, e, Faulty) && y <= At(book, e, Early)
    ensures EntryAt(HealEntry(book, h, y), e) == Turned(EntryAt(book, e), Total(Infos(book), h).power, Active)
              .Removed(Grouped(Total(Infos(book), y), y, Early))
    ensures EntryAt(HealEntry(book, h, y), e).NonNegative() && Sound(HealEntry(book, h, y), quant)
  {
    hide Total, EntryAt, PartAt, OnGrid, Grouped, ExpirationSet.Removed, Turned;
    var turned := Turn(book, h, Active);
    if h == {} {
      assert turned == book;
      NoTotal(Infos(book));
      TurnNothing(EntryAt(book, e));
    } else {
      TurnStep(book, quant, e, h, Faulty, Active);
    }
    assert y <= At(turned, e, Early);
    PartIs(turned, e, y, Early);
    EntryWithout(turned, e, y);
    TotalSame(Infos(book), Infos(turned), y);
    RecordedNonNegative(turned - y, quant, e);
  }

  lemma TurnNothing(s: ExpirationSet)
    ensures forall status :: Turned(s, NO_POWER, status) == s
  {
  }

  /** What a set records of some sectors and of the rest adds up. */
  lemma RecordedJoin(
      infos: Sectors, active: set<SectorNumber>, faulty: set<SectorNumber>, early: set<SectorNumber>,
      g: set<SectorNumber>)
    requires active !! faulty !! early
    ensures Recorded(infos, active, faulty, early)
         == Recorded(infos, active - g, faulty - g, early - g).Added(Recorded(infos, active * g, faulty * g, early * g))
  {
    hide Total;
    RecordedSplit(infos, active, faulty, early, g);
    assert active - g + active * g == active && faulty - g + faulty * g == faulty && early - g + early * g == early;
    assert active + faulty - (active * g + faulty * g) + (active * g + faulty * g) == active + faulty;
  }

  lemma DeclaredNone(book: Book, quant: QuantSpec, ss: Sectors)
    requires quant.unit > 0
    ensures PutDeclared(book, quant, ss, {}) == book
  {
  }

  lemma DeclaredMore(
      book: Book, quant: QuantSpec, ss: Sectors, done: set<SectorNumber>, g: set<SectorNumber>, e: Epoch)
    requires quant.unit > 0 && done <= ss.Keys && g <= ss.Keys && done !! g
    requires book.Keys !! g
    requires forall n <- g :: QuantizeUp(quant, ss[n].expiration) == e
    ensures PutDeclared(book, quant, ss, done).Keys !! g
    ensures Put(PutDeclared(book, quant, ss, done), ss, g, e, Active) == PutDeclared(book, quant, ss, done + g)
  {
    hide QuantizeUp;
    var mid := PutDeclared(book, quant, ss, done);
    var a, b := Put(mid, ss, g, e, Active), PutDeclared(book, quant, ss, done + g);
    assert mid.Keys == book.Keys + done;
    forall n: SectorNumber
      ensures n in a <==> n in b
      ensures n in a ==> a[n] == b[n]
    {
    }
  }

  /** Which sectors the queue of a book lists, and where. */
  lemma QueueMembers(book: Book)
    ensures forall n <- book :: book[n].epoch in Queue(book)
    ensures forall e, n | e in Queue(book) ::
              n in Queue(book)[e].onTime <==> n in book && book[n].epoch == e && book[n].status != Early
    ensures forall e, n | e in Queue(book) ::
              n in Queue(book)[e].early <==> n in book && book[n].epoch == e && book[n].status == Early
  {
    hide EntryAt;
    assert forall n <- book :: book[n].epoch in Epochs(book);
    forall e | e in Queue(book)
      ensures Queue(book)[e].onTime == At(book, e, Active) + At(book, e, Faulty)
      ensures Queue(book)[e].early == At(book, e, Early)
    {
      EntrySets(book, e);
    }
  }

  // ---- faults half way: the sectors of `done` have failed, and those that leave early are out of the book ----

  ghost predicate Failing(start: Book, book: Book, done: set<SectorNumber>, q: Epoch) {
    && book.Keys <= start.Keys
    && forall n <- start ::
         if n !in done then n in book && book[n] == start[n]
         else if start[n].epoch <= q then n in book && book[n] == start[n].(status := Faulty)
         else n !in book
  }

  ghost function Late(start: Book, done: set<SectorNumber>, q: Epoch): set<SectorNumber> {
    set n | n in done && n in start && start[n].epoch > q
  }

  lemma FailHere(start: Book, book: Book, done: set<SectorNumber>, q: Epoch, e: Epoch, g: set<SectorNumber>)
    requires Failing(start, book, done, q) && done !! g && g <= At(start, e, Active)
    ensures g <= At(book, e, Active)
    ensures e <= q ==>
      Failing(start, Turn(book, g, Faulty), done + g, q) && Late(start, done + g, q) == Late(start, done, q)
    ensures e > q ==> Failing(start, book - g, done + g, q) && Late(start, done + g, q) == Late(start, done, q) + g
  {
  }

  lemma FailStart(book: Book, q: Epoch)
    ensures Failing(book, book, {}, q) && Late(book, {}, q) == {}
  {
  }

  lemma FailKnown(
      start: Book, book: Book, ss: Sectors, done: set<SectorNumber>, q: Epoch, e: Epoch, g: set<SectorNumber>)
    requires Failing(start, book, done, q) && done !! g && g <= At(start, e, Active)
    requires Known(start, ss) && g <= ss.Keys
    ensures Total(ss, g) == Total(Infos(book), g)
  {
    hide Total;
    TotalSame(ss, Infos(book), g);
  }

  lemma PutNothing(book: Book, ss: Sectors, e: Epoch)
    ensures Put(book, ss, {}, e, Early) == book
  {
  }

  lemma FailDone(start: Book, book: Book, ss: Sectors, done: set<SectorNumber>, q: Epoch)
    requires Failing(start, book, done, q) && Known(start, ss) && done <= ss.Keys
    requires forall n <- done :: n in start && start[n].status == Active
    ensures Late(start, done, q) <= ss.Keys && Late(start, done, q) !! book.Keys
    ensures Put(book, ss, Late(start, done, q), q, Early) == Fault(start, done, q)
  {
  }

  // ---- recoveries half way ----

  ghost predicate Healing(start: Book, book: Book, done: set<SectorNumber>) {
    && book.Keys <= start.Keys
    && forall n <- start ::
         if n !in done then n in book && book[n] == start[n]
         else if start[n].status == Early then n !in book
         else n in book && book[n] == start[n].(status := Active)
  }

  lemma HealStart(book: Book)
    ensures Healing(book, book, {})
  {
  }

  lemma HealHere(
      amt: map<Epoch, ExpirationSet>, start: Book, book: Book, ss: Sectors, done: set<SectorNumber>, e: Epoch,
      wanted: set<SectorNumber>)
    requires Covers(amt, book) && e in amt && Healing(start, book, done) && done !! wanted && wanted <= ss.Keys
    requires Known(start, ss) && forall n <- wanted :: n in start ==> start[n].status != Active
    ensures var h, y := amt[e].onTime * wanted, amt[e].early * wanted;
            && amt[e] == EntryAt(book, e)
            && h <= At(book, e, Faulty) && y <= At(book, e, Early) && h !! y
            && Total(ss, h) == Total(Infos(book), h) && Total(ss, y) == Total(Infos(book), y)
            && Healing(start, HealEntry(book, h, y), done + h + y)
            && (forall n <- wanted :: n in h + y <==> n in start && start[n].epoch == e)
            && (forall n <- h + y :: n in y <==> start[n].status == Early)
  {
    hide Total, EntryAt;
    EntrySets(book, e);
    var h, y := amt[e].onTime * wanted, amt[e].early * wanted;
    forall n <- wanted
      ensures n in start && start[n].epoch == e ==> n in At(book, e, Faulty) || n in At(book, e, Early)
    {
    }
    TotalSame(ss, Infos(book), h);
    TotalSame(ss, Infos(book), y);
    HealMore(start, book, done, h, y);
  }

  lemma HealMore(start: Book, book: Book, done: set<SectorNumber>, h: set<SectorNumber>, y: set<SectorNumber>)
    requires Healing(start, book, done) && done !! h + y && h + y <= start.Keys
    requires forall n <- h + y :: n in y <==> start[n].status == Early
    ensures Healing(start, HealEntry(book, h, y), done + h + y)
  {
  }

  lemma HealCovers(
      amt: map<Epoch, ExpirationSet>, book: Book, e: Epoch, h: set<SectorNumber>, y: set<SectorNumber>)
    requires Covers(amt, book) && e in amt && h <= At(book, e, Faulty) && y <= At(book, e, Early)
    ensures Covers(amt[e := EntryAt(HealEntry(book, h, y), e)], HealEntry(book, h, y))
  {
    hide EntryAt, Covers;
    CoversChange(amt, book, HealEntry(book, h, y), e);
  }

  lemma QueueNotEmpty(book: Book)
    ensures forall e <- Queue(book) :: !Queue(book)[e].IsEmpty()
  {
    hide EntryAt, ExpirationSet.IsEmpty;
    forall e <- Queue(book)
      ensures !Queue(book)[e].IsEmpty()
    {
      EmptyEntry(book, e);
    }
  }

  // ---- a traversal half way: it looks for the sectors `ns`, and has the entries of `todo` to visit ----

  ghost predicate Looking(
      start: Book, ss: Sectors, ns: set<SectorNumber>, remaining: set<SectorNumber>, early: set<SectorNumber>,
      power: Power, todo: set<Epoch>)
  {
    && remaining <= ns <= ss.Keys && ns - remaining <= start.Keys
    && early == (set n | n in ns - remaining && start[n].status == Early)
    && power == Total(ss, ns - remaining).power
    && forall n <- remaining :: n in start ==> start[n].epoch in todo
  }

  lemma LookStart(start: Book, ss: Sectors, ns: set<SectorNumber>)
    requires ns <= ss.Keys
    ensures Looking(start, ss, ns, ns, {}, NO_POWER, Queue(start).Keys)
  {
    hide Total, EntryAt;
    NoTotal(ss);
    assert ns - ns == {};
    assert forall n <- start :: start[n].epoch in Queue(start);
  }

  lemma LookStep(
      start: Book, ss: Sectors, ns: set<SectorNumber>, remaining: set<SectorNumber>, early: set<SectorNumber>,
      power: Power, todo: set<Epoch>, e: Epoch, h: set<SectorNumber>, y: set<SectorNumber>)
    requires Looking(start, ss, ns, remaining, early, power, todo) && h <= remaining && y <= remaining
    requires forall n <- remaining :: n in h + y <==> n in start && start[n].epoch == e
    requires forall n <- h + y :: n in y <==> start[n].status == Early
    ensures Looking(start, ss, ns, remaining - h - y, early + y, power.Plus(Total(ss, h + y).power), todo - {e})
    ensures ns - (remaining - h - y) == ns - remaining + h + y
  {
    hide Total;
    TotalUnion(ss, ns - remaining, h + y);
    assert ns - (remaining - h - y) == ns - remaining + (h + y);
  }

  lemma LookDone(
      start: Book, ss: Sectors, ns: set<SectorNumber>, remaining: set<SectorNumber>, early: set<SectorNumber>,
      power: Power, todo: set<Epoch>)
    requires Looking(start, ss, ns, remaining, early, power, todo) && (todo == {} || remaining == {})
    ensures remaining == {} <==> ns <= start.Keys
    ensures remaining == {} ==> ns - remaining == ns
    ensures remaining !! start.Keys
    ensures remaining == {} ==> early == (set n | n in ns && start[n].status == Early) && power == Total(ss, ns).power
  {
    hide Total;
    if remaining == {} {
      assert ns - remaining == ns;
    } else {
      var n :| n in remaining;
      assert n in ns && n !in start;
    }
  }

  /** Sectors that are not there do not matter. */
  lemma HealMissing(start: Book, book: Book, ns: set<SectorNumber>, missing: set<SectorNumber>)
    requires Healing(start, book, ns - missing) && missing !! start.Keys
    ensures Healing(start, book, ns)
  {
  }

  lemma HealDone(start: Book, book: Book, quant: QuantSpec, ss: Sectors, done: set<SectorNumber>,
                 moved: set<SectorNumber>)
    requires quant.unit > 0 && Healing(start, book, done) && Known(start, ss) && done <= ss.Keys && done <= start.Keys
    requires moved == set n | n in done && start[n].status == Early
    ensures moved !! book.Keys
    ensures PutDeclared(book, quant, ss, moved) == Recover(start, done, quant)
  {
    hide QuantizeUp;
  }

  // ---- everything fails at once ----

  /** The sectors that leave by `q`, all of them failed. */
  ghost function Kept(book: Book, q: Epoch): Book {
    map n: SectorNumber | n in book && book[n].epoch <= q :: Failed(book[n], q)
  }

  ghost function Beyond(book: Book, q: Epoch): set<SectorNumber> {
    set n: SectorNumber | n in book && book[n].epoch > q
  }

  lemma KeptEntry(book: Book, quant: QuantSpec, q: Epoch, e: Epoch)
    requires Sound(book, quant) && e in Queue(book) && e <= q
    ensures Queue(book)[e] == EntryAt(book, e)
    ensures e in Queue(Kept(book, q))
    ensures Queue(Kept(book, q))[e] == Turned(EntryAt(book, e), EntryAt(book, e).active, Faulty)
    ensures Queue(Kept(book, q))[e].NonNegative()
  {
    hide Total, OnGrid, Recorded;
    var g := At(book, e, Active);
    var turned := Turn(book, g, Faulty);
    ActiveTotal(book, e);
    if g == {} {
      assert turned == book;
      NoTotal(Infos(book));
      TurnNothing(EntryAt(book, e));
    } else {
      TurnStep(book, quant, e, g, Active, Faulty);
    }
    EntrySame(turned, Kept(book, q), e);
    assert e in Epochs(turned) by {
      var n :| n in book && book[n].epoch == e;
      assert n in turned && turned[n].epoch == e;
    }
    RecordedNonNegative(turned, quant, e);
  }

  lemma ActiveTotal(book: Book, e: Epoch)
    ensures EntryAt(book, e).active == Total(Infos(book), At(book, e, Active)).power
  {
    hide Total;
  }

  lemma KeptEpochs(book: Book, q: Epoch, e: Epoch)
    requires e in Queue(Kept(book, q))
    ensures e in Queue(book) && e <= q
  {
    hide EntryAt;
    var n :| n in Kept(book, q) && Kept(book, q)[n].epoch == e;
    assert n in book && book[n].epoch == e;
  }

  lemma KeptAndBeyond(book: Book, q: Epoch)
    ensures Kept(book, q).Keys !! Beyond(book, q) && Beyond(book, q) <= Infos(book).Keys
    ensures Put(Kept(book, q), Infos(book), Beyond(book, q), q, Early) == Fault(book, book.Keys, q)
  {
  }

  lemma KeptSound(book: Book, quant: QuantSpec, q: Epoch)
    requires Sound(book, quant)
    ensures Sound(Kept(book, q), quant) && forall n <- Infos(book) :: Infos(book)[n].Sound()
  {
    hide OnGrid;
  }

  /** The part of a late entry: all its sectors were to leave on time. */
  lemma LateEntry(book: Book, e: Epoch)
    requires EntryAt(book, e).early == {}
    ensures var here := EntryAt(book, e).onTime;
            && EntryAt(book, e).active.Plus(EntryAt(book, e).faulty) == Total(Infos(book), here).power
            && EntryAt(book, e).fee == Total(Infos(book), here).fee
            && here == set n | n in book && book[n].epoch == e
  {
    hide Total;
    var a, f := At(book, e, Active), At(book, e, Faulty);
    TotalUnion(Infos(book), a, f);
    assert f + {} == f && a + f + {} == a + f;
    forall n | n in book && book[n].epoch == e
      ensures n in a + f
    {
      assert n in a || n in f || n in At(book, e, Early);
    }
  }

  /** The sectors that leave at any of some epochs. */
  ghost function Leaving(book: Book, epochs: set<Epoch>): set<SectorNumber> {
    set n: SectorNumber | n in book && book[n].epoch in epochs
  }

  lemma LeavingMore(book: Book, epochs: set<Epoch>, e: Epoch)
    requires e in Queue(book) && e !in epochs && Queue(book)[e].early == {}
    ensures Leaving(book, epochs + {e}) == Leaving(book, epochs) + Queue(book)[e].onTime
    ensures var s := Queue(book)[e];
            var t, t' := Total(Infos(book), Leaving(book, epochs)), Total(Infos(book), Leaving(book, epochs + {e}));
            t'.power == t.power.Plus(s.active).Plus(s.faulty) && t'.fee == t.fee + s.fee
  {
    hide Total, EntryAt;
    LateEntry(book, e);
    TotalUnion(Infos(book), Leaving(book, epochs), Queue(book)[e].onTime);
  }

  lemma LeavingNone(book: Book)
    ensures Leaving(book, {}) == {}
  {
  }

  lemma LeavingLate(book: Book, q: Epoch, late: set<Epoch>)
    requires late == set e | e in Queue(book) && e > q
    ensures Leaving(book, late) == Beyond(book, q)
    ensures late == {} <==> Beyond(book, q) == {}
  {
    hide EntryAt;
    forall n <- book
      ensures n in Leaving(book, late) <==> n in Beyond(book, q)
    {
      assert book[n].epoch in Queue(book);
    }
    if e :| e in late {
      var n :| n in book && book[n].epoch == e;
      assert n in Beyond(book, q);
    }
  }

  /** The writes that fail everything: the early entries are changed, the late ones go, and what they
      held, if anything, is put in one entry at the limit. */
  lemma BulkWrites(
      amt: map<Epoch, ExpirationSet>, book: Book, quant: QuantSpec, q: Epoch, changed: map<Epoch, ExpirationSet>,
      late: set<Epoch>, s: ExpirationSet)
    requires Sound(book, quant) && amt == Queue(book)
    requires forall e <- amt :: e in changed <==> e <= q
    requires forall e <- changed :: e in amt && changed[e] == Turned(amt[e], amt[e].active, Faulty)
    requires late == set e | e in amt && e > q
    ensures changed == Queue(Kept(book, q))
    ensures forall e <- changed :: changed[e].NonNegative()
    ensures late == {} ==> amt + changed == Queue(Kept(book, q))
    ensures Lookup(amt + changed, q) == Lookup(Queue(Kept(book, q)), q)
    ensures (amt + changed)[q := s] - late == Queue(Kept(book, q))[q := s]
  {
    hide Queue, Kept, Turned, EntryAt;
    var kept := Queue(Kept(book, q));
    forall e <- changed
      ensures e in kept && kept[e] == changed[e] && changed[e].NonNegative()
    {
      KeptEntry(book, quant, q, e);
    }
    forall e <- kept
      ensures e in changed
    {
      KeptEpochs(book, q, e);
    }
    assert changed == kept;
    forall e <- amt
      ensures e in late || e in changed
    {
    }
  }

  lemma NoneBeyond(book: Book, q: Epoch)
    requires Beyond(book, q) == {}
    ensures Kept(book, q) == Fault(book, book.Keys, q)
  {
    forall n <- book
      ensures book[n].epoch <= q
    {
      assert n !in Beyond(book, q);
    }
  }

  // ---- removals half way ----

  lemma RemoveHere(
      amt: map<Epoch, ExpirationSet>, start: Book, ss: Sectors, done: set<SectorNumber>, e: Epoch,
      wanted: set<SectorNumber>)
    requires Covers(amt, start - done) && e in amt && done !! wanted && wanted <= ss.Keys
    requires Known(start, ss) && forall n <- wanted :: n in start ==> start[n].status != Active
    ensures var f, y := amt[e].onTime * wanted, amt[e].early * wanted;
            var book := start - done;
            && amt[e] == EntryAt(book, e)
            && f <= At(book, e, Faulty) && y <= At(book, e, Early) && f !! y
            && Total(ss, f) == Total(Infos(book), f) && Total(ss, y) == Total(Infos(book), y)
            && book - (f + y) == start - (done + f + y)
            && (forall n <- wanted :: n in f + y <==> n in start && start[n].epoch == e)
            && (forall n <- f + y :: n in y <==> start[n].status == Early)
  {
    hide Total, EntryAt;
    var book := start - done;
    EntrySets(book, e);
    var f, y := amt[e].onTime * wanted, amt[e].early * wanted;
    forall n <- wanted
      ensures n in start && start[n].epoch == e ==> n in At(book, e, Faulty) || n in At(book, e, Early)
    {
    }
    TotalSame(ss, Infos(book), f);
    TotalSame(ss, Infos(book), y);
  }

  lemma RemoveCovers(
      amt: map<Epoch, ExpirationSet>, book: Book, e: Epoch, f: set<SectorNumber>, y: set<SectorNumber>)
    requires Covers(amt, book) && e in amt && f <= At(book, e, Faulty) && y <= At(book, e, Early)
    ensures Covers(amt[e := EntryAt(book - (f + y), e)], book - (f + y))
  {
    hide EntryAt, Covers;
    CoversChange(amt, book, book - (f + y), e);
  }

  /** Faulty and early sectors added to what a set records. */
  lemma RecordedMore(
      ss: Sectors, a: set<SectorNumber>, f: set<SectorNumber>, y: set<SectorNumber>,
      f': set<SectorNumber>, y': set<SectorNumber>)
    requires a !! f !! y !! f' !! y'
    ensures Recorded(ss, a, f + f', y + y')
         == Recorded(ss, a, f, y).Added(Grouped(Total(ss, f'), f', Faulty)).Added(Grouped(Total(ss, y'), y', Early))
  {
    hide Total;
    TotalUnion(ss, a + f, f');
    assert a + f + f' == a + (f + f');
    TotalUnion(ss, f + y, f');
    TotalUnion(ss, f + y + f', y');
    assert f + y + f' + y' == f + f' + (y + y');
    TotalUnion(ss, a + f + y, f');
    TotalUnion(ss, a + f + y + f', y');
    assert a + f + y + f' + y' == a + (f + f') + (y + y');
  }

  lemma RecordedActive(ss: Sectors, a: set<SectorNumber>)
    ensures Recorded(ss, a, {}, {}) == Grouped(Total(ss, a), a, Active)
  {
    hide Total;
    NoTotal(ss);
    assert a + {} == a && a + {} + {} == a;
    var none: set<SectorNumber> := {};
    assert none + none == none;
  }

  // ---- popping ----

  ghost function Those(book: Book, g: set<SectorNumber>, status: Status): set<SectorNumber> {
    set n: SectorNumber | n in g && n in book && book[n].status == status
  }

  /** What the queue records of some of its sectors. */
  ghost function RecordOf(book: Book, g: set<SectorNumber>): ExpirationSet {
    Recorded(Infos(book), Those(book, g, Active), Those(book, g, Faulty), Those(book, g, Early))
  }

  lemma PopStep(book: Book, epochs: set<Epoch>, e: Epoch)
    requires e in Queue(book) && e !in epochs
    ensures RecordOf(book, Leaving(book, epochs + {e})) == RecordOf(book, Leaving(book, epochs)).Added(Queue(book)[e])
  {
    hide Total, Recorded, ExpirationSet.Added;
    var g := Leaving(book, epochs);
    var all := Leaving(book, epochs + {e});
    var here := Leaving(book, {e});
    RecordedJoin(Infos(book), Those(book, all, Active), Those(book, all, Faulty), Those(book, all, Early), here);
    forall status: Status
      ensures Those(book, all, status) * here == At(book, e, status)
      ensures Those(book, all, status) - here == Those(book, g, status)
    {
    }
  }

  lemma PopNone(book: Book)
    ensures RecordOf(book, Leaving(book, {})) == EMPTY
  {
    hide Total;
    LeavingNone(book);
    forall status: Status
      ensures Those(book, {}, status) == {}
    {
    }
    NoneRecorded(Infos(book));
  }

  lemma NoneRecorded(infos: Sectors)
    ensures Recorded(infos, {}, {}, {}) == EMPTY
  {
    hide Total;
    NoTotal(infos);
    var none: set<SectorNumber> := {};
    assert none + none == none;
  }

  lemma PopDone(book: Book, quant: QuantSpec, until: Epoch, epochs: set<Epoch>)
    requires Sound(book, quant) && epochs == set e | e in Queue(book) && e <= until
    ensures Leaving(book, epochs) == DueBy(book, until)
    ensures Queue(book - DueBy(book, until)) == Queue(book) - epochs
    ensures Sound(book - DueBy(book, until), quant)
  {
    hide EntryAt, OnGrid;
    forall n <- book
      ensures book[n].epoch in Queue(book)
    {
    }
    var rest := book - DueBy(book, until);
    forall e: Epoch | e > until
      ensures EntryAt(book, e) == EntryAt(rest, e) && (e in Epochs(book) <==> e in Epochs(rest))
    {
      EntrySame(book, rest, e);
    }
    assert forall e <- Epochs(rest) :: e > until;
  }

  lemma PopLeaves(book: Book, until: Epoch)
    ensures forall n: SectorNumber :: n in book - DueBy(book, until) <==> n in book && book[n].epoch > until
  {
  }
}
