/** The operations of an expiration queue as changes to its book, what each does to the expiration
    sets, and the laws that relate them. */
module ExpirationRules {
  import opened ExpirationBook
  import opened Quantization

  /** The expiration set of a group of sectors that share a status. */
  function Grouped(t: Totals, g: set<SectorNumber>, status: Status): ExpirationSet {
    match status
    case Active => ExpirationSet(g, {}, t.pledge, t.power, NO_POWER, t.fee)
    case Faulty => ExpirationSet(g, {}, t.pledge, NO_POWER, t.power, t.fee)
    case Early => ExpirationSet({}, g, 0, NO_POWER, t.power, t.fee)
  }

  function Lookup(queue: map<Epoch, ExpirationSet>, e: Epoch): ExpirationSet {
    if e in queue then queue[e] else EMPTY
  }

  /** Writes a set back, or deletes its entry when no sector is left in it. */
  function Stored(queue: map<Epoch, ExpirationSet>, e: Epoch, s: ExpirationSet): map<Epoch, ExpirationSet> {
    if s.IsEmpty() then queue - {e} else queue[e := s]
  }

  ghost function Put(book: Book, ss: Sectors, g: set<SectorNumber>, e: Epoch, status: Status): Book
    requires g <= ss.Keys
  {
    book + map n: SectorNumber | n in g :: Placed(ss[n], e, status)
  }

  /** New active sectors, each at its own declared expiration. */
  ghost function PutDeclared(book: Book, quant: QuantSpec, ss: Sectors, g: set<SectorNumber>): Book
    requires quant.unit > 0 && g <= ss.Keys
  {
    book + map n: SectorNumber | n in g :: Placed(ss[n], QuantizeUp(quant, ss[n].expiration), Active)
  }

  ghost function Turn(book: Book, g: set<SectorNumber>, status: Status): Book {
    map n: SectorNumber | n in book :: if n in g then book[n].(status := status) else book[n]
  }

  /** A sector that has failed: it leaves early if the fault's limit `q` comes before its expiration. */
  function Failed(p: Placed, q: Epoch): Placed {
    if p.epoch <= q then
      if p.status == Active then p.(status := Faulty) else p
    else
      Placed(p.sector, q, Early)
  }

  ghost function Fault(book: Book, g: set<SectorNumber>, q: Epoch): Book {
    map n: SectorNumber | n in book :: if n in g then Failed(book[n], q) else book[n]
  }

  /** A sector that is proven again: it is active, and back at its declared expiration if it was to leave early. */
  function Healed(p: Placed, quant: QuantSpec): Placed
    requires quant.unit > 0
  {
    if p.status == Early then
      Placed(p.sector, QuantizeUp(quant, p.sector.expiration), Active)
    else
      p.(status := Active)
  }

  ghost function Recover(book: Book, g: set<SectorNumber>, quant: QuantSpec): Book
    requires quant.unit > 0
  {
    map n: SectorNumber | n in book :: if n in g then Healed(book[n], quant) else book[n]
  }

  ghost function ActiveSectors(book: Book): set<SectorNumber> {
    set n: SectorNumber | n in book && book[n].status == Active
  }

  ghost function DueBy(book: Book, until: Epoch): set<SectorNumber> {
    set n: SectorNumber | n in book && book[n].epoch <= until
  }

  // ---- what a change of the book does to the queue ----

  lemma PartIs(book: Book, e: Epoch, g: set<SectorNumber>, status: Status)
    requires g <= At(book, e, status)
    ensures PartAt(book, e, g) == Grouped(Total(Infos(book), g), g, status)
  {
    hide Total;
    NoTotal(Infos(book));
    var a, f, y := At(book, e, Active) * g, At(book, e, Faulty) * g, At(book, e, Early) * g;
    match status
    case Active =>
      assert a == g && f == {} && y == {} && a + f == g && a + f + y == g && f + y == {};
    case Faulty =>
      assert a == {} && f == g && y == {} && a + f == g && a + f + y == g && f + y == g;
    case Early =>
      assert a == {} && f == {} && y == g && a + f == {} && a + f + y == g && f + y == g;
  }

  lemma QueueAt(book: Book, e: Epoch)
    ensures Lookup(Queue(book), e) == EntryAt(book, e)
  {
    hide EntryAt;
    EmptyEntry(book, e);
  }

  /** A book changed only at epoch `e` stands for a queue changed only at that entry. */
  lemma QueueChange(book: Book, book': Book, e: Epoch)
    requires forall n: SectorNumber :: n in book && book[n].epoch != e ==> n in book' && book'[n] == book[n]
    requires forall n: SectorNumber :: n in book' && book'[n].epoch != e ==> n in book && book'[n] == book[n]
    ensures Queue(book') == Stored(Queue(book), e, EntryAt(book', e))
  {
    hide EntryAt, Epochs;
    EmptyEntry(book', e);
    forall i: Epoch | i != e
      ensures EntryAt(book, i) == EntryAt(book', i) && (i in Epochs(book) <==> i in Epochs(book'))
    {
      EntrySame(book, book', i);
    }
  }

  lemma QueueDrop(book: Book, e: Epoch, g: set<SectorNumber>, status: Status)
    requires g <= At(book, e, status)
    ensures Queue(book - g)
         == Stored(Queue(book), e, EntryAt(book, e).Removed(Grouped(Total(Infos(book), g), g, status)))
  {
    hide EntryAt, Queue, PartAt, Grouped, Total, Stored, Infos;
    PartIs(book, e, g, status);
    EntryWithout(book, e, g);
    QueueChange(book, book - g, e);
  }

  lemma PutPart(book: Book, ss: Sectors, g: set<SectorNumber>, e: Epoch, status: Status)
    requires g <= ss.Keys && g !! book.Keys
    ensures EntryAt(Put(book, ss, g, e, status), e) == EntryAt(book, e).Added(Grouped(Total(ss, g), g, status))
  {
    hide EntryAt, PartAt, Total, Grouped, ExpirationSet.Added, ExpirationSet.Removed;
    var book' := Put(book, ss, g, e, status);
    assert g <= At(book', e, status);
    PartIs(book', e, g, status);
    EntryWithout(book', e, g);
    assert book' - g == book;
    TotalSame(ss, Infos(book'), g);
    PutBack(book', e, g, status);
  }

  lemma PutBack(book: Book, e: Epoch, g: set<SectorNumber>, status: Status)
    requires g <= At(book, e, status)
    ensures EntryAt(book, e).Removed(Grouped(Total(Infos(book), g), g, status))
                            .Added(Grouped(Total(Infos(book), g), g, status)) == EntryAt(book, e)
  {
    hide Total;
    var entry := EntryAt(book, e);
    var p := Grouped(Total(Infos(book), g), g, status);
    assert p.onTime <= entry.onTime && p.early <= entry.early;
    assert entry.onTime - p.onTime + p.onTime == entry.onTime;
    assert entry.early - p.early + p.early == entry.early;
  }

  lemma QueuePut(book: Book, ss: Sectors, g: set<SectorNumber>, e: Epoch, status: Status)
    requires g <= ss.Keys && g !! book.Keys && g != {}
    ensures Queue(Put(book, ss, g, e, status))
         == Queue(book)[e := Lookup(Queue(book), e).Added(Grouped(Total(ss, g), g, status))]
  {
    hide EntryAt, Queue, Total, Lookup;
    QueueAt(book, e);
    PutPart(book, ss, g, e, status);
    QueueChange(book, Put(book, ss, g, e, status), e);
  }

  /** Moving a group's power from active to faulty, or back, is all it takes to turn its sectors. */
  function Turned(s: ExpirationSet, power: Power, status: Status): ExpirationSet {
    if status == Faulty then
      s.(active := s.active.Minus(power), faulty := s.faulty.Plus(power))
    else
      s.(active := s.active.Plus(power), faulty := s.faulty.Minus(power))
  }

  lemma QueueTurn(book: Book, e: Epoch, g: set<SectorNumber>, from: Status, to: Status)
    requires g <= At(book, e, from)
    requires (from == Active && to == Faulty) || (from == Faulty && to == Active)
    ensures Queue(Turn(book, g, to)) ==
      Stored(Queue(book), e, Turned(EntryAt(book, e), Total(Infos(book), g).power, to))
  {
    hide EntryAt, Queue, Total, Stored, PartAt;
    var book' := Turn(book, g, to);
    QueueChange(book, book', e);
    assert g <= At(book', e, to);
    PartIs(book, e, g, from);
    PartIs(book', e, g, to);
    EntryWithout(book, e, g);
    EntryWithout(book', e, g);
    assert book - g == book' - g;
    assert Infos(book) == Infos(book');
    PutBack(book, e, g, from);
    PutBack(book', e, g, to);
  }

  // ---- laws ----

  /** The expiration sets determine where every sector is, and whether it leaves on time. */
  lemma QueueDetermines(a: Book, b: Book, n: SectorNumber)
    requires Queue(a) == Queue(b) && n in a
    ensures n in b && b[n].epoch == a[n].epoch && (b[n].status == Early <==> a[n].status == Early)
  {
    hide Total;
    var e := a[n].epoch;
    assert e in Epochs(a);
    assert EntryAt(a, e) == Queue(a)[e] == Queue(b)[e] == EntryAt(b, e);
    if a[n].status == Early {
      assert n in EntryAt(a, e).early;
    } else {
      assert n in EntryAt(a, e).onTime;
    }
  }

  /** Failing every sector at once is the same as failing exactly the active ones, if and only if no
      sector that has failed already is placed after the limit. */
  lemma FaultAllIffEach(book: Book, q: Epoch)
    ensures Queue(Fault(book, book.Keys, q)) == Queue(Fault(book, ActiveSectors(book), q))
       <==> forall n <- book :: book[n].status != Active ==> book[n].epoch <= q
  {
    hide Queue;
    var all, each := Fault(book, book.Keys, q), Fault(book, ActiveSectors(book), q);
    if forall n <- book :: book[n].status != Active ==> book[n].epoch <= q {
      assert all == each;
    } else {
      var n :| n in book && book[n].status != Active && book[n].epoch > q;
      if Queue(all) == Queue(each) {
        QueueDetermines(each, all, n);
      }
    }
  }

  /** Once everything has failed, no power is active and nothing leaves after the limit. */
  lemma NothingActive(book: Book, q: Epoch)
    ensures var queue := Queue(Fault(book, book.Keys, q));
            forall e <- queue :: e <= q && queue[e].active == NO_POWER
  {
    hide Total;
    var all := Fault(book, book.Keys, q);
    NoTotal(Infos(all));
    forall e <- Queue(all)
      ensures e <= q && Queue(all)[e].active == NO_POWER
    {
      assert At(all, e, Active) == {};
    }
  }

  /** Active sectors that fail and then recover leave no trace, in the book or the queue, if and only
      if each was to leave by the fault's limit anyway or sat at its declared expiration. */
  lemma FaultThenRecover(book: Book, quant: QuantSpec, g: set<SectorNumber>, q: Epoch)
    requires quant.unit > 0
    requires forall n <- g :: n in book && book[n].status == Active
    ensures Recover(Fault(book, g, q), g, quant) == book
       <==> forall n <- g :: book[n].epoch <= q || book[n].epoch == QuantizeUp(quant, book[n].sector.expiration)
    ensures Queue(Recover(Fault(book, g, q), g, quant)) == Queue(book)
       <==> forall n <- g :: book[n].epoch <= q || book[n].epoch == QuantizeUp(quant, book[n].sector.expiration)
  {
    hide QuantizeUp, Queue;
    var back := Recover(Fault(book, g, q), g, quant);
    forall n <- g
      ensures back[n] == book[n]
         <==> book[n].epoch <= q || book[n].epoch == QuantizeUp(quant, book[n].sector.expiration)
      ensures Queue(back) == Queue(book) ==> back[n].epoch == book[n].epoch
    {
      if Queue(back) == Queue(book) {
        QueueDetermines(book, back, n);
      }
    }
  }

  // ---- what the books and the entries mean ----

  /** A failing sector leaves no later than the limit, early if that is sooner than it was to leave. */
  lemma FaultMeans(book: Book, g: set<SectorNumber>, q: Epoch, n: SectorNumber)
    requires n in book
    ensures Fault(book, g, q).Keys == book.Keys
    ensures var was, now := book[n], Fault(book, g, q)[n];
            if n !in g then now == was
            else
              && now.sector == was.sector && now.status != Active
              && now.epoch == (if was.epoch < q then was.epoch else q)
              && (now.status == Early <==> was.epoch > q || was.status == Early)
  {
  }

  /** A recovering sector is active, where it was or, if it was to leave early, at its declared expiration. */
  lemma RecoverMeans(book: Book, g: set<SectorNumber>, quant: QuantSpec, n: SectorNumber)
    requires quant.unit > 0 && n in book
    ensures Recover(book, g, quant).Keys == book.Keys
    ensures var was, now := book[n], Recover(book, g, quant)[n];
            if n !in g then now == was
            else
              && now.sector == was.sector && now.status == Active
              && (was.status != Early ==> now.epoch == was.epoch)
              && (was.status == Early ==>
                    && was.sector.expiration <= now.epoch < was.sector.expiration + quant.unit
                    && OnGrid(quant, now.epoch))
  {
    QuantizeUpIsNearest(quant, book[n].sector.expiration);
  }

  /** Totals are sums, field by field. */
  lemma TotalMore(infos: Sectors, ns: set<SectorNumber>, n: SectorNumber)
    requires n !in ns && n in infos
    ensures Total(infos, {}) == Totals(Power(0, 0), 0, 0)
    ensures var a, b := Total(infos, ns), Total(infos, ns + {n});
            && b.power.raw == a.power.raw + infos[n].power.raw && b.power.qa == a.power.qa + infos[n].power.qa
            && b.pledge == a.pledge + infos[n].pledge && b.fee == a.fee + infos[n].dailyFee
  {
    hide Total;
    NoTotal(infos);
    TotalSplit(infos, ns + {n}, n);
    assert ns + {n} - {n} == ns;
  }

  /** There is an entry at an epoch exactly when some sector is to leave then. It holds those that leave on
      time and those that leave early, the pledge of the former, the fees of both, the power of the active
      ones, and apart from it the power of the faulty. */
  lemma QueueMeans(book: Book, e: Epoch, active: set<SectorNumber>, faulty: set<SectorNumber>)
    requires forall n: SectorNumber :: n in active <==> n in book && book[n].epoch == e && book[n].status == Active
    requires forall n: SectorNumber :: n in faulty <==> n in book && book[n].epoch == e && book[n].status != Active
    ensures e in Queue(book) <==> active != {} || faulty != {}
    ensures e in Queue(book) ==>
              var entry, infos := Queue(book)[e], Infos(book);
              && entry.onTime + entry.early == active + faulty && entry.onTime !! entry.early
              && (forall n: SectorNumber :: n in entry.early <==> n in faulty && book[n].status == Early)
              && entry.pledge == Total(infos, entry.onTime).pledge
              && entry.fee == Total(infos, active + faulty).fee
              && entry.active == Total(infos, active).power && entry.faulty == Total(infos, faulty).power
  {
    hide Total;
    assert active == At(book, e, Active);
    assert faulty == At(book, e, Faulty) + At(book, e, Early);
    assert active + faulty == At(book, e, Active) + At(book, e, Faulty) + At(book, e, Early);
    if e in Epochs(book) {
      var n: SectorNumber :| n in book && book[n].epoch == e;
      assert n in active + faulty;
    }
  }
}
