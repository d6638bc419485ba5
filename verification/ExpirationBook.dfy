/** What an expiration queue says about its sectors: a book that places every sector at one epoch,
    and the expiration sets such a book stands for. */
module ExpirationBook {
  import opened Quantization

  type Epoch = int
  type SectorNumber = nat

  datatype Power = Power(raw: int, qa: int) {
    function Plus(p: Power): Power {
      Power(raw + p.raw, qa + p.qa)
    }

    function Minus(p: Power): Power {
      Power(raw - p.raw, qa - p.qa)
    }

    predicate NonNegative() {
      raw >= 0 && qa >= 0
    }
  }

  const NO_POWER := Power(0, 0)

  /** A sector's declared expiration, the power its size and quality give it, its initial pledge and
      its daily fee. */
  datatype Sector = Sector(expiration: Epoch, power: Power, pledge: int, dailyFee: int) {
    predicate Sound() {
      expiration >= 0 && power.NonNegative() && pledge >= 0 && dailyFee >= 0
    }
  }

  type Sectors = map<SectorNumber, Sector>

  datatype Totals = Totals(power: Power, pledge: int, fee: int) {
    function Plus(t: Totals): Totals {
      Totals(power.Plus(t.power), pledge + t.pledge, fee + t.fee)
    }

    function Minus(t: Totals): Totals {
      Totals(power.Minus(t.power), pledge - t.pledge, fee - t.fee)
    }

    predicate NonNegative() {
      power.NonNegative() && pledge >= 0 && fee >= 0
    }
  }

  const NOTHING := Totals(NO_POWER, 0, 0)

  function Share(infos: Sectors, n: SectorNumber): Totals {
    if n in infos then Totals(infos[n].power, infos[n].pledge, infos[n].dailyFee) else NOTHING
  }

  ghost function Total(infos: Sectors, ns: set<SectorNumber>): Totals {
    if ns == {} then NOTHING
    else
      var n :| n in ns;
      Share(infos, n).Plus(Total(infos, ns - {n}))
  }

  lemma NoTotal(infos: Sectors)
    ensures Total(infos, {}) == NOTHING
  {
  }

  lemma TotalStep(infos: Sectors, ns: set<SectorNumber>) returns (n: SectorNumber)
    requires ns != {}
    ensures n in ns && Total(infos, ns) == Share(infos, n).Plus(Total(infos, ns - {n}))
  {
    n :| n in ns && Total(infos, ns) == Share(infos, n).Plus(Total(infos, ns - {n}));
  }

  lemma {:induction false} TotalSplit(infos: Sectors, ns: set<SectorNumber>, n: SectorNumber)
    requires n in ns
    ensures Total(infos, ns) == Share(infos, n).Plus(Total(infos, ns - {n}))
    decreases ns
  {
    hide Total, Share;
    var m := TotalStep(infos, ns);
    if m != n {
      TotalSplit(infos, ns - {m}, n);
      TotalSplit(infos, ns - {n}, m);
      assert ns - {m} - {n} == ns - {n} - {m};
    }
  }

  lemma {:induction false} TotalUnion(infos: Sectors, a: set<SectorNumber>, b: set<SectorNumber>)
    requires a !! b
    ensures Total(infos, a + b) == Total(infos, a).Plus(Total(infos, b))
    decreases b
  {
    hide Total, Share;
    if b == {} {
      assert a + b == a;
      NoTotal(infos);
    } else {
      var n :| n in b;
      TotalSplit(infos, a + b, n);
      TotalSplit(infos, b, n);
      assert a + b - {n} == a + (b - {n});
      TotalUnion(infos, a, b - {n});
    }
  }

  lemma TotalMinus(infos: Sectors, a: set<SectorNumber>, b: set<SectorNumber>)
    requires b <= a
    ensures Total(infos, a - b) == Total(infos, a).Minus(Total(infos, b))
  {
    hide Total;
    TotalUnion(infos, a - b, b);
    assert a - b + b == a;
  }

  lemma {:induction false} TotalSame(infos: Sectors, infos': Sectors, ns: set<SectorNumber>)
    requires forall n <- ns :: Share(infos, n) == Share(infos', n)
    ensures Total(infos, ns) == Total(infos', ns)
    decreases ns
  {
    if ns != {} {
      var n :| n in ns;
      TotalSplit(infos, ns, n);
      TotalSplit(infos', ns, n);
      TotalSame(infos, infos', ns - {n});
    }
  }

  lemma {:induction false} TotalNonNegative(infos: Sectors, ns: set<SectorNumber>)
    requires forall n <- infos :: infos[n].Sound()
    ensures Total(infos, ns).NonNegative()
    decreases ns
  {
    if ns != {} {
      var n :| n in ns;
      TotalSplit(infos, ns, n);
      TotalNonNegative(infos, ns - {n});
    }
  }

  /** A sector expires on time, active or faulty, or early for having been faulty too long. */
  datatype Status = Active | Faulty | Early

  datatype Placed = Placed(sector: Sector, epoch: Epoch, status: Status)

  type Book = map<SectorNumber, Placed>

  function Infos(book: Book): Sectors {
    map n: SectorNumber | n in book :: book[n].sector
  }

  function At(book: Book, e: Epoch, status: Status): set<SectorNumber> {
    set n: SectorNumber | n in book && book[n].epoch == e && book[n].status == status
  }

  function Epochs(book: Book): set<Epoch> {
    set n: SectorNumber | n in book :: book[n].epoch
  }

  datatype ExpirationSet = ExpirationSet(
    onTime: set<SectorNumber>, early: set<SectorNumber>, pledge: int, active: Power, faulty: Power, fee: int)
  {
    predicate IsEmpty() {
      onTime == {} && early == {}
    }

    predicate NonNegative() {
      pledge >= 0 && active.NonNegative() && faulty.NonNegative() && fee >= 0
    }

    function Added(s: ExpirationSet): ExpirationSet {
      ExpirationSet(onTime + s.onTime, early + s.early, pledge + s.pledge,
                    active.Plus(s.active), faulty.Plus(s.faulty), fee + s.fee)
    }

    function Removed(s: ExpirationSet): ExpirationSet {
      ExpirationSet(onTime - s.onTime, early - s.early, pledge - s.pledge,
                    active.Minus(s.active), faulty.Minus(s.faulty), fee - s.fee)
    }
  }

  const EMPTY := ExpirationSet({}, {}, 0, NO_POWER, NO_POWER, 0)

  /** The set that records given active, faulty and early sectors. */
  ghost function Recorded(
      infos: Sectors, active: set<SectorNumber>, faulty: set<SectorNumber>, early: set<SectorNumber>): ExpirationSet
  {
    ExpirationSet(active + faulty, early, Total(infos, active + faulty).pledge,
                  Total(infos, active).power, Total(infos, faulty + early).power,
                  Total(infos, active + faulty + early).fee)
  }

  ghost function EntryAt(book: Book, e: Epoch): ExpirationSet {
    Recorded(Infos(book), At(book, e, Active), At(book, e, Faulty), At(book, e, Early))
  }

  /** The queue a book stands for: one set at every epoch that has a sector. */
  ghost function Queue(book: Book): map<Epoch, ExpirationSet> {
    map e | e in Epochs(book) :: EntryAt(book, e)
  }

  ghost predicate Sound(book: Book, quant: QuantSpec) {
    && quant.unit > 0
    && forall n <- book :: book[n].sector.Sound() && book[n].epoch >= 0 && OnGrid(quant, book[n].epoch)
  }

  /** An expiration set of parts of the sectors that another one records: removing the one from the
      other records the rest. */
  lemma RecordedSplit(
      infos: Sectors, active: set<SectorNumber>, faulty: set<SectorNumber>, early: set<SectorNumber>,
      g: set<SectorNumber>)
    requires active !! faulty !! early
    ensures var part := Recorded(infos, active * g, faulty * g, early * g);
            Recorded(infos, active - g, faulty - g, early - g) == Recorded(infos, active, faulty, early).Removed(part)
  {
    hide Total;
    TotalMinus(infos, active + faulty, active * g + faulty * g);
    assert active + faulty - (active * g + faulty * g) == active - g + (faulty - g);
    TotalMinus(infos, active, active * g);
    assert active - active * g == active - g;
    TotalMinus(infos, faulty + early, faulty * g + early * g);
    assert faulty + early - (faulty * g + early * g) == faulty - g + (early - g);
    TotalMinus(infos, active + faulty + early, active * g + faulty * g + early * g);
    assert active + faulty + early - (active * g + faulty * g + early * g)
        == active - g + (faulty - g) + (early - g);
    assert early - early * g == early - g;
  }

  lemma RecordedSame(
      infos: Sectors, infos': Sectors, active: set<SectorNumber>, faulty: set<SectorNumber>, early: set<SectorNumber>)
    requires forall n <- active + faulty + early :: Share(infos, n) == Share(infos', n)
    ensures Recorded(infos, active, faulty, early) == Recorded(infos', active, faulty, early)
  {
    hide Total;
    TotalSame(infos, infos', active + faulty);
    TotalSame(infos, infos', active);
    TotalSame(infos, infos', faulty + early);
    TotalSame(infos, infos', active + faulty + early);
  }

  lemma RecordedNonNegative(book: Book, quant: QuantSpec, e: Epoch)
    requires Sound(book, quant)
    ensures EntryAt(book, e).NonNegative()
  {
    hide Total;
    var infos, a, f, y := Infos(book), At(book, e, Active), At(book, e, Faulty), At(book, e, Early);
    TotalNonNegative(infos, a + f);
    TotalNonNegative(infos, a);
    TotalNonNegative(infos, f + y);
    TotalNonNegative(infos, a + f + y);
  }

  /** The part of an entry that a group of sectors accounts for. */
  ghost function PartAt(book: Book, e: Epoch, g: set<SectorNumber>): ExpirationSet {
    Recorded(Infos(book), At(book, e, Active) * g, At(book, e, Faulty) * g, At(book, e, Early) * g)
  }

  /** Taking sectors out of the book takes their part out of every entry. */
  lemma EntryWithout(book: Book, e: Epoch, g: set<SectorNumber>)
    ensures EntryAt(book - g, e) == EntryAt(book, e).Removed(PartAt(book, e, g))
  {
    hide Total, Recorded;
    var a, f, y := At(book, e, Active), At(book, e, Faulty), At(book, e, Early);
    RecordedSplit(Infos(book), a, f, y, g);
    assert At(book - g, e, Active) == a - g && At(book - g, e, Faulty) == f - g && At(book - g, e, Early) == y - g;
    RecordedSame(Infos(book), Infos(book - g), a - g, f - g, y - g);
  }

  /** Two books with the same sectors at an epoch have the same entry there. */
  lemma EntrySame(book: Book, book': Book, e: Epoch)
    requires forall n: SectorNumber :: n in book && book[n].epoch == e ==> n in book' && book'[n] == book[n]
    requires forall n: SectorNumber :: n in book' && book'[n].epoch == e ==> n in book && book'[n] == book[n]
    ensures EntryAt(book, e) == EntryAt(book', e)
    ensures e in Epochs(book) <==> e in Epochs(book')
  {
    hide Total, Recorded;
    var a, f, y := At(book, e, Active), At(book, e, Faulty), At(book, e, Early);
    assert a == At(book', e, Active) && f == At(book', e, Faulty) && y == At(book', e, Early);
    RecordedSame(Infos(book), Infos(book'), a, f, y);
  }

  lemma EmptyEntry(book: Book, e: Epoch)
    ensures e in Epochs(book) <==> !EntryAt(book, e).IsEmpty()
    ensures e !in Epochs(book) ==> EntryAt(book, e) == EMPTY
  {
    hide Total;
    var a, f, y := At(book, e, Active), At(book, e, Faulty), At(book, e, Early);
    if e in Epochs(book) {
      var n: SectorNumber :| n in book && book[n].epoch == e;
      assert n in a || n in f || n in y;
    } else {
      assert a == {} && f == {} && y == {} && a + f == {} && f + y == {} && a + f + y == {};
      NoTotal(Infos(book));
    }
  }
}
