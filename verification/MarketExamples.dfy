/** Runs that end where a reader might not expect them to. */
module MarketExamples {
  import opened BalanceTable
  import opened Deals
  import opened MarketActivation
  import opened MarketCalls
  import opened MarketInvariant
  import opened MarketLedger
  import opened MarketPublication
  import opened MarketRuns
  import opened MarketState
  import opened MarketTwins
  import opened MarketVisits
  import opened Wrappers

  lemma RunOneMore(events: seq<Event>, e: Event)
    ensures Run(events + [e]) == Apply(Run(events), e)
    ensures Possible(events) && Enabled(Run(events), e) ==> Possible(events + [e])
  {
    hide Apply, Enabled;
    assert (events + [e])[..|events|] == events;
    assert forall i :: 0 <= i < |events| ==> (events + [e])[..i] == events[..i];
  }

  lemma RunNone()
    ensures Run([]) == INITIAL && Possible([])
  {
  }

  lemma OneDeal(s: State, provider: Address, now: Epoch, balances: Table, deal: ClientDeal)
    ensures Filter(s, provider, now, balances, [deal]) == Consider(s, provider, now, balances, EMPTY, 0, deal)
  {
    hide Consider;
    assert [deal][..0] == [];
    assert Filter(s, provider, now, balances, [deal][..0]) == EMPTY;
  }

  // ---------- A deal settled before it starts ----------

  /** A provider cannot authenticate a deal as its client. */
  function Offer(p: Proposal, now: Epoch): Event {
    Event(now, PublishStorageDeals(p.provider, [ClientDeal(p, p.client != p.provider, 0)],
                                   map[p.client := p.pieceSize * DATACAP_PER_BYTE], true, map[]))
  }

  function Deposits(p: Proposal, now: Epoch): seq<Event> {
    [Event(now, AddBalance(p.client, 2 * p.ClientRequirement()))] +
    [Event(now, AddBalance(p.provider, 2 * p.providerCollateral))]
  }

  function Activated(p: Proposal, now: Epoch): seq<Event> {
    Deposits(p, now) + [Offer(p, now)] + [Event(now, BatchActivateDeals(p.provider, [SectorDeals(0, p.end, [0])]))]
  }

  /** Both parties deposit enough for two such deals. The deal is published, activated and settled at once. */
  function SettledEarly(p: Proposal, now: Epoch): seq<Event> {
    Activated(p, now) + [Event(now, SettleDealPayments([0]))]
  }

  /** Nothing has happened yet but deposits, and every account can cover `p` twice. */
  ghost predicate Funded(s: State, p: Proposal) {
    && s == INITIAL.(ledger := INITIAL.ledger.(escrow := s.ledger.escrow), history := s.history)
    && s.history.records == map[]
    && forall a: Address :: Get(s.ledger.escrow, a) == 2 * ShareOf(p, p.TotalFee(), a)
  }

  lemma DepositsFund(p: Proposal, now: Epoch)
    requires p.Publishable(now, 0) && now >= 0
    ensures Possible(Deposits(p, now)) && Funded(Run(Deposits(p, now)), p)
    ensures Run(Deposits(p, now)).history.clock == now
  {
    hide Proposal.Fee;
    FeeSplits(p, p.start, p.end, p.end);
    var e, f := Deposits(p, now)[0], Deposits(p, now)[1];
    RunNone();
    assert [] + [e] == [e];
    RunOneMore([], e);
    RunOneMore([e], f);
  }

  lemma OfferPasses(s: State, p: Proposal, now: Epoch, balances: Table, deal: ClientDeal)
    requires p.Publishable(now, 0) && deal == ClientDeal(p, true, 0) && p !in s.pending
    requires Get(balances, p.client) >= p.pieceSize * DATACAP_PER_BYTE
    requires Covered(s.ledger, p.client, p.ClientRequirement())
    requires Covered(s.ledger, p.provider, p.providerCollateral)
    ensures Filter(s, p.provider, now, balances, [deal]).valid == [p]
  {
    hide Proposal.Fee, Proposal.Publishable, Filter, Covered;
    OneDeal(s, p.provider, now, balances, deal);
  }

  lemma OneLocked(l: Ledger, p: Proposal)
    requires Lockable(l, p)
    ensures AllLockable(l, [p])
  {
    hide Lockable, Lock;
    assert [p][..0] == [];
    assert LockAll(l, []) == l;
  }

  lemma OnePublished(s: State, p: Proposal)
    ensures PublishAll(s, [p], map[]) == Publish(s, p, None)
  {
    hide Publish;
    assert [p][..0] == [];
    assert PublishAll(s, [], map[]) == s;
  }

  /** A publishable deal that is not pending and that every account can cover is published. */
  lemma OfferTaken(s: State, p: Proposal, now: Epoch)
    requires p.Publishable(now, 0) && p.client != p.provider && now >= 0 && p !in s.pending
    requires Solvent(s.ledger)
    requires forall a: Address :: Get(s.ledger.locked, a) + ShareOf(p, p.TotalFee(), a) <= Get(s.ledger.escrow, a)
    ensures Apply(s, Offer(p, now)) == Publish(Tick(s, now), p, None)
  {
    hide Proposal.Fee, Publish, Lock, Add, Filter, AllLockable, PublishAll, Lockable;
    FeeSplits(p, p.start, p.end, p.end);
    var t := Tick(s, now);
    LockableIff(t.ledger, p);
    assert Get(t.ledger.locked, p.client) + ShareOf(p, p.TotalFee(), p.client) <= Get(t.ledger.escrow, p.client);
    assert Get(t.ledger.locked, p.provider) + ShareOf(p, p.TotalFee(), p.provider) <= Get(t.ledger.escrow, p.provider);
    OfferPasses(t, p, now, map[p.client := p.pieceSize * DATACAP_PER_BYTE], ClientDeal(p, true, 0));
    OneLocked(t.ledger, p);
    OnePublished(t, p);
  }

  /** The first visit of deal zero. */
  function FirstVisit(p: Proposal): Epoch {
    NextUpdateEpoch(0, DEAL_UPDATES_INTERVAL, p.start)
  }

  /** Deal zero is the only one, and its shares are all that is locked. */
  ghost predicate OnlyDeal(s: State, p: Proposal, now: Epoch) {
    && s.proposals == map[0 := p] && s.nextId == 1
    && s.lastCron == EPOCH_UNDEFINED && s.history.clock == now
    && s.ops == map[FirstVisit(p) := {0}]
    && s.history.records == map[0 := Record(p, 0, 0, 0, Live)]
    && (forall a: Address :: Get(s.ledger.escrow, a) == 2 * ShareOf(p, p.TotalFee(), a))
    && (forall a: Address :: Get(s.ledger.locked, a) == ShareOf(p, p.TotalFee(), a))
  }

  lemma SharesOfOne(p: Proposal, a: Address)
    requires p.Sound()
    ensures ShareOf(p, p.TotalFee(), a) >= 0
  {
    hide Proposal.Fee;
    FeeSplits(p, p.start, p.end, p.end);
  }

  lemma OneScheduled(e: Epoch, d: DealId)
    ensures Schedule(map[], e, d) == map[e := {d}]
  {
    var none: set<DealId> := {};
    assert none + {d} == {d};
  }

  lemma FirstPublished(s: State, p: Proposal, now: Epoch)
    requires p.Publishable(now, 0) && p.client != p.provider && now >= 0 && Funded(s, p)
    ensures var t := Apply(s, Offer(p, now));
      OnlyDeal(t, p, now) && t.states == map[] && t.pending == {p}
  {
    hide Proposal.Fee, Add, Apply, NextUpdateEpoch, ShareOf;
    forall a: Address ensures ShareOf(p, p.TotalFee(), a) >= 0 { SharesOfOne(p, a); }
    OfferTaken(s, p, now);
    LockEffect(s.ledger, p);
    var t := Publish(Tick(s, now), p, None);
    OneScheduled(FirstVisit(p), 0);
    assert t.pending == {p};
    assert t.proposals == map[0 := p];
    assert t.history.records == map[0 := Record(p, 0, 0, 0, Live)];
    assert t.ledger == Lock(s.ledger, p);
  }

  lemma FirstActivated(s: State, p: Proposal, now: Epoch)
    requires p.Publishable(now, 0) && now >= 0
    requires OnlyDeal(s, p, now) && s.states == map[] && s.pending == {p}
    ensures var t := Apply(s, Event(now, BatchActivateDeals(p.provider, [SectorDeals(0, p.end, [0])])));
      && OnlyDeal(t, p, now) && t.pending == {p}
      && t.states == map[0 := DealState(0, now, EPOCH_UNDEFINED, EPOCH_UNDEFINED)]
  {
    hide Proposal.Fee, Entry, FirstVisit, ShareOf;
    var sector := SectorDeals(0, p.end, [0]);
    var t := Tick(s, now);
    assert [sector][..0] == [];
    assert ActivateAll(t, p.provider, [sector][..0], now) == t;
    assert ActivateAll(t, p.provider, [sector], now) == ActivateSector(t, p.provider, sector, now);
    assert SectorReady(t, p.provider, sector, now);
    assert IdSet([0]) == {0};
  }

  /** Settling at or before the start pays nothing, but takes the proposal off the pending set. */
  lemma FirstSettled(s: State, p: Proposal, now: Epoch)
    requires p.Publishable(now, 0) && now >= 0
    requires OnlyDeal(s, p, now) && s.pending == {p}
    requires s.states == map[0 := DealState(0, now, EPOCH_UNDEFINED, EPOCH_UNDEFINED)]
    ensures var t := Apply(s, Event(now, SettleDealPayments([0])));
      && OnlyDeal(t, p, now) && t.pending == {}
      && t.states == map[0 := DealState(0, now, now, EPOCH_UNDEFINED)]
  {
    hide FirstVisit, ShareOf;
    var t := Tick(s, now);
    assert [0][..0] == [];
    assert SettleAll(t, [0][..0], now) == t;
    assert SettleAll(t, [0], now) == Settle(t, 0, now);
    assert DueAt(p, p.start, now) == 0;
  }

  lemma SettledEarlyState(p: Proposal, now: Epoch)
    requires p.Publishable(now, 0) && p.client != p.provider && now >= 0
    ensures Possible(SettledEarly(p, now))
    ensures var s := Run(SettledEarly(p, now));
      && OnlyDeal(s, p, now) && s.pending == {}
      && s.states == map[0 := DealState(0, now, now, EPOCH_UNDEFINED)]
  {
    hide Apply, Possible, Run, FirstVisit, ShareOf;
    DepositsFund(p, now);
    var es := Deposits(p, now);
    RunOneMore(es, Offer(p, now));
    FirstPublished(Run(es), p, now);
    es := es + [Offer(p, now)];
    RunOneMore(es, Event(now, BatchActivateDeals(p.provider, [SectorDeals(0, p.end, [0])])));
    FirstActivated(Run(es), p, now);
    es := Activated(p, now);
    RunOneMore(es, Event(now, SettleDealPayments([0])));
    FirstSettled(Run(es), p, now);
  }

  /** Any proposal that can be published, by a client other than its provider, can be published again while
      its first deal is live. */
  lemma PublishedTwice(p: Proposal, now: Epoch)
    requires p.Publishable(now, 0) && p.client != p.provider && now >= 0
    ensures var events := SettledEarly(p, now) + [Offer(p, now)];
      Possible(events) && Twins(Run(events), 0, 1) && Run(events).proposals == map[0 := p, 1 := p]
  {
    hide Apply, Possible, Run, FirstVisit, ShareOf, Schedule, Lock;
    forall a: Address ensures ShareOf(p, p.TotalFee(), a) >= 0 { SharesOfOne(p, a); }
    SettledEarlyState(p, now);
    RunOneMore(SettledEarly(p, now), Offer(p, now));
    OfferTaken(Run(SettledEarly(p, now)), p, now);
  }

  // ---------- The periodic update ----------

  lemma FirstVisitInTerm(p: Proposal, now: Epoch)
    requires p.Publishable(now, 0)
    ensures p.start <= FirstVisit(p) < p.end
  {
    hide NextUpdateEpoch;
    NextUpdateEpochIsFirst(0, DEAL_UPDATES_INTERVAL, p.start);
  }

  lemma FirstVisitEnabled(s: State, p: Proposal, now: Epoch)
    requires p.Publishable(now, 0) && now >= 0 && OnlyDeal(s, p, now)
    ensures Enabled(s, Event(FirstVisit(p), EpochTick([0])))
  {
    hide FirstVisit, ShareOf;
    FirstVisitInTerm(p, now);
    var e := FirstVisit(p);
    assert Due(s, e) == {0} by { assert s.ops[e] == {0}; }
  }

  lemma TickUpdates(s: State, p: Proposal, now: Epoch)
    requires p.Publishable(now, 0) && now >= 0 && OnlyDeal(s, p, now)
    requires s.states == map[0 := DealState(0, now, now, EPOCH_UNDEFINED)]
    ensures var e := FirstVisit(p);
      var t := Apply(s, Event(e, EpochTick([0])));
      && t.states == map[0 := DealState(0, now, e, EPOCH_UNDEFINED)]
      && t.history.records == map[0 := Record(p, p.Fee(p.start, e), 0, 0, Live)]
      && Planned(t.ops, VisitAgain(0, e), 0)
  {
    hide FirstVisit, ShareOf, VisitAgain, Reschedule, Planned, Proposal.Fee, Pay, Expire, SettlePending;
    FirstVisitInTerm(p, now);
    var e := FirstVisit(p);
    var t := Tick(s, e);
    assert [0][..0] == [];
    assert VisitAll(t, [0][..0], e) == (t, {});
    assert VisitAll(t, [0], e).0 == Visit(t, 0, e).0;
    assert VisitAll(t, [0], e).1 == {0};
    PlannedAgain(t.ops, e, {0}, VisitAgain(0, e), 0);
    AgainIsLater(0, e);
  }

  /** From the empty state too the tick reaches its periodic update: it pays a deal that was settled
      before its first visit, and plans the next visit. */
  lemma PeriodicUpdateIsReached(p: Proposal, now: Epoch)
    requires p.Publishable(now, 0) && p.client != p.provider && now >= 0
    ensures var e := FirstVisit(p);
      var events := SettledEarly(p, now) + [Event(e, EpochTick([0]))];
      && Possible(events)
      && Run(events).states == map[0 := DealState(0, now, e, EPOCH_UNDEFINED)]
      && Run(events).history.records == map[0 := Record(p, p.Fee(p.start, e), 0, 0, Live)]
      && Planned(Run(events).ops, VisitAgain(0, e), 0)
  {
    hide Apply, Possible, Run, FirstVisit, ShareOf, VisitAgain, Enabled;
    SettledEarlyState(p, now);
    RunOneMore(SettledEarly(p, now), Event(FirstVisit(p), EpochTick([0])));
    FirstVisitEnabled(Run(SettledEarly(p, now)), p, now);
    TickUpdates(Run(SettledEarly(p, now)), p, now);
  }
}
