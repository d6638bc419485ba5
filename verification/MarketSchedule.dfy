/** Publication, activation and the clock: the steps that add to the market's structures. */
module MarketSchedule {
  import opened BalanceTable
  import opened Deals
  import opened FiniteSums
  import opened MarketFrames
  import opened MarketInvariant
  import opened MarketLedger
  import opened MarketState
  import opened MarketSteps
  import opened Wrappers

  // ---------- Steps that change no deal's money ----------

  /** Proposals, payments, ledger and history agree. */
  ghost predicate SameMoney(s: State, s': State) {
    && s'.proposals == s.proposals && s'.nextId == s.nextId
    && s'.ledger == s.ledger
    && s'.history == s.history.(clock := s'.history.clock)
    && (forall d :: d in s.proposals ==> PaidUntil(s', d) == PaidUntil(s, d))
  }

  lemma MoneyFrame(s: State, s': State)
    requires LockedOk(s) && TotalsOk(s) && RecordsOk(s) && FundsOk(s) && SameMoney(s, s')
    ensures LockedOk(s') && TotalsOk(s') && RecordsOk(s') && FundsOk(s')
  {
    hide Sum, Proposal.Fee, PaidUntil, ShareOf, FlowOf, RecordOk;
    forall a: Address ensures Shares(s', a) == Shares(s, a) && Flows(s', a) == Flows(s, a) {
      assert forall d :: d in s.proposals ==> Unpaid(s', d) == Unpaid(s, d);
    }
    assert ClientCollaterals(s') == ClientCollaterals(s);
    assert ProviderCollaterals(s') == ProviderCollaterals(s);
    assert UnpaidFees(s') == UnpaidFees(s);
    assert Burns(s') == Burns(s);
  }

  lemma ScheduleFrame(s: State, s': State, horizon: Epoch, todo: set<DealId>)
    requires PendingOk(s, horizon, todo) && ScheduleOk(s, horizon, todo)
    requires s'.proposals == s.proposals && s'.states == s.states && s'.pending == s.pending
    requires s'.ops == s.ops && s'.nextId == s.nextId
    ensures PendingOk(s', horizon, todo) && ScheduleOk(s', horizon, todo)
  {
    assert forall d: DealId :: Fresh(s', d) <==> Fresh(s, d);
    PendingFrame(s, s', horizon, todo);
  }

  lemma PendingFrame(s: State, s': State, horizon: Epoch, todo: set<DealId>)
    requires PendingOk(s, horizon, todo)
    requires s'.proposals == s.proposals && s'.pending == s.pending && s'.ops == s.ops
    requires s.states.Keys <= s'.states.Keys
    requires forall d: DealId :: Fresh(s', d) <==> Fresh(s, d)
    ensures PendingOk(s', horizon, todo)
  {
    hide Scheduled, Fresh, Owned;
    StillOwned(s, s');
  }

  lemma ClockAdvances(s: State, now: Epoch)
    requires DealsOk(s) && IndexOk(s) && now >= s.history.clock
    ensures DealsOk(Tick(s, now)) && IndexOk(Tick(s, now))
  {
    hide Entry;
  }

  /** Moving the clock forward keeps everything but may only shorten what must be listed. */
  lemma TickKeeps(s: State, now: Epoch)
    requires Inv(s) && now >= s.history.clock
    ensures Inv(Tick(s, now))
  {
    hide LockedOk, TotalsOk, RecordsOk, FundsOk, DealsOk, IndexOk, PendingOk, ScheduleOk;
    MoneyFrame(s, Tick(s, now));
    ClockAdvances(s, now);
    ScheduleFrame(s, Tick(s, now), s.lastCron, {});
  }

  // ---------- Visits ----------

  /** A deal that is not fresh owes nothing to the schedule. */
  lemma TodoDrop(s: State, horizon: Epoch, todo: set<DealId>, d: DealId)
    requires PendingOk(s, horizon, todo) && ScheduleOk(s, horizon, todo) && !Fresh(s, d)
    ensures PendingOk(s, horizon, todo - {d}) && ScheduleOk(s, horizon, todo - {d})
  {
    hide Fresh;
    forall c: DealId | c != d ensures Scheduled(s.ops, horizon, todo - {d}, c) == Scheduled(s.ops, horizon, todo, c) {
    }
  }

  /** The first visit to an active deal takes its proposal off the pending set, and that is all. */
  lemma UnpendKeeps(s: State, d: DealId, horizon: Epoch, todo: set<DealId>)
    requires InvDuring(s, horizon, todo) && d in todo && Fresh(s, d) && d in s.states
    ensures InvDuring(s.(pending := s.pending - {s.proposals[d]}), horizon, todo - {d})
  {
    hide LockedOk, TotalsOk, RecordsOk, FundsOk, IndexOk;
    var s' := s.(pending := s.pending - {s.proposals[d]});
    MoneyFrame(s, s');
    UnpendPending(s, d, horizon, todo);
    UnpendIndex(s, s');
  }

  lemma UnpendIndex(s: State, s': State)
    requires IndexOk(s) && DealsOk(s) && s' == s.(pending := s'.pending)
    ensures IndexOk(s') && DealsOk(s')
  {
    hide Entry;
  }

  lemma UnpendPending(s: State, d: DealId, horizon: Epoch, todo: set<DealId>)
    requires PendingOk(s, horizon, todo) && ScheduleOk(s, horizon, todo)
    requires d in todo && Fresh(s, d) && d in s.states
    ensures var s' := s.(pending := s.pending - {s.proposals[d]});
      PendingOk(s', horizon, todo - {d}) && ScheduleOk(s', horizon, todo - {d})
  {
    hide Owned;
    var s' := s.(pending := s.pending - {s.proposals[d]});
    forall c: DealId
      ensures Scheduled(s.ops, horizon, todo - {d}, c) == (Scheduled(s.ops, horizon, todo, c) && c != d)
    {
    }
    forall c: DealId ensures Fresh(s', c) == Fresh(s, c) {
    }
    StillOwned(s, s');
  }

  lemma StillOwned(s: State, s': State)
    requires forall p :: p in s.pending ==> Owned(s, p)
    requires s'.pending <= s.pending && s'.proposals == s.proposals
    requires forall c: DealId :: Fresh(s', c) == Fresh(s, c)
    ensures forall p :: p in s'.pending ==> Owned(s', p)
  {
    forall p | p in s'.pending ensures Owned(s', p) {
      var c: DealId :| Fresh(s, c) && s.proposals[c] == p;
      assert Fresh(s', c);
    }
  }

  /** After an update a deal is either gone or no longer fresh. */
  lemma UpdateUnfresh(s: State, d: DealId, now: Epoch)
    requires d in s.proposals && d in s.states && d in s.history.records && now != EPOCH_UNDEFINED
    ensures !Fresh(Update(s, d, now), d)
  {
    hide Proposal.Fee, Pay, Expire, RemoveDeals, SettlePending;
  }

  lemma VisitKeeps(s: State, d: DealId, now: Epoch, todo: set<DealId>)
    requires InvDuring(s, now, todo) && d in todo && s.history.clock == now >= 0
    ensures InvDuring(Visit(s, d, now).0, now, todo - {d})
    ensures Visit(s, d, now).1 ==> d in Visit(s, d, now).0.proposals && !Fresh(Visit(s, d, now).0, d)
  {
    hide DealsOk, LockedOk, TotalsOk, PendingOk, ScheduleOk, IndexOk, RecordsOk, FundsOk, Update, MissActivation,
      RemoveDeals;
    if d !in s.proposals {
      TodoDrop(s, now, todo, d);
    } else {
      Recorded(s, d);
      if d !in s.states {
        TimeOutKeeps(s, d, now, todo);
        TodoDrop(TimeOut(s, d), now, todo, d);
      } else if NeverUpdated(s, d) {
        UnpendKeeps(s, d, now, todo);
      } else {
        UpdateKeeps(s, d, now, now, todo);
        UpdateUnfresh(s, d, now);
        TodoDrop(Update(s, d, now), now, todo, d);
      }
    }
  }

  // ---------- Publication ----------

  lemma PublishLedger(s: State, p: Proposal, allocation: Option<AllocationId>)
    requires DealsOk(s) && LockedOk(s) && TotalsOk(s) && p.Sound()
    requires forall a: Address :: Get(s.ledger.locked, a) + ShareOf(p, p.TotalFee(), a) <= Get(s.ledger.escrow, a)
    ensures LockedOk(Publish(s, p, allocation)) && TotalsOk(Publish(s, p, allocation))
  {
    hide Proposal.Fee, Sum, Shares, ClientCollaterals, ProviderCollaterals, UnpaidFees, NextUpdateEpoch, Add, Schedule;
    var s' := Publish(s, p, allocation);
    var d := s.nextId;
    forall a: Address ensures Get(s.ledger.locked, a) >= 0 { LockedNonNegative(s, a); }
    LockEffect(s.ledger, p);
    PublishDeals(s, p, allocation);
    LockedFrame(s, s', d);
    TotalsFrame(s, s', d);
  }

  /** A new deal has its own identifier, is fresh, and leaves the others as they are. */
  lemma PublishDeals(s: State, p: Proposal, allocation: Option<AllocationId>)
    requires DealsOk(s) && p.Sound()
    ensures var s' := Publish(s, p, allocation);
      && DealsOk(s') && OthersSame(s, s', s.nextId)
      && s.nextId !in s.proposals && s.nextId !in s.states
      && PaidUntil(s', s.nextId) == p.start && Unpaid(s', s.nextId) == p.TotalFee()
      && (forall c: DealId :: Fresh(s', c) <==> Fresh(s, c) || c == s.nextId)
  {
    hide Lock, Schedule, NextUpdateEpoch, Proposal.Fee;
  }

  lemma PublishHistory(s: State, p: Proposal, allocation: Option<AllocationId>)
    requires DealsOk(s) && RecordsOk(s) && FundsOk(s) && p.Sound()
    ensures RecordsOk(Publish(s, p, allocation)) && FundsOk(Publish(s, p, allocation))
  {
    hide Sum, Flows, Burns, NextUpdateEpoch, Add, Schedule, OthersSame, DealsOk;
    var s' := Publish(s, p, allocation);
    PublishDeals(s, p, allocation);
    assert s.nextId !in s.history.records;
    RecordsFrame(s, s', s.nextId);
    FundsFrame(s, s', s.nextId);
  }

  lemma PlannedAfter(ops: map<Epoch, set<DealId>>, e: Epoch, d: DealId, f: Epoch, c: DealId)
    ensures Planned(Schedule(ops, e, d), f, c) <==> Planned(ops, f, c) || (f == e && c == d)
  {
  }

  lemma PublishIndex(s: State, p: Proposal, allocation: Option<AllocationId>)
    requires DealsOk(s) && IndexOk(s)
    ensures IndexOk(Publish(s, p, allocation))
  {
    hide Lock, Schedule, NextUpdateEpoch, Entry;
    var s' := Publish(s, p, allocation);
    assert s'.sectorDeals == s.sectorDeals && s'.states == s.states && s'.history.clock == s.history.clock;
    assert forall d: DealId :: d in s.states ==> d in s'.proposals && s'.proposals[d] == s.proposals[d];
  }

  /** A proposal that is not pending, and has not started by `now`, belongs to no fresh deal. */
  lemma NotFresh(s: State, horizon: Epoch, p: Proposal)
    requires PendingOk(s, horizon, {}) && p !in s.pending && horizon < p.start
    ensures forall c: DealId :: Fresh(s, c) ==> s.proposals[c] != p
  {
    hide Scheduled;
  }

  lemma PublishPending(s: State, p: Proposal, allocation: Option<AllocationId>, horizon: Epoch)
    requires DealsOk(s) && PendingOk(s, horizon, {}) && ScheduleOk(s, horizon, {})
    requires p.Sound() && p !in s.pending && horizon < p.start
    ensures PendingOk(Publish(s, p, allocation), horizon, {})
  {
    hide DealsOk, ScheduleOk, PendingOk, Lock, NextUpdateEpoch, Schedule, Scheduled, Fresh;
    var s' := Publish(s, p, allocation);
    PublishDeals(s, p, allocation);
    forall c: DealId ensures Scheduled(s'.ops, horizon, {}, c) <==> Scheduled(s.ops, horizon, {}, c) || c == s.nextId {
      ScheduledAfter(s.ops, p, s.nextId, horizon, c);
    }
    PendingGrows(s, s', p, horizon);
  }

  lemma PendingGrows(s: State, s': State, p: Proposal, horizon: Epoch)
    requires PendingOk(s, horizon, {}) && p !in s.pending && horizon < p.start
    requires s.nextId !in s.proposals && s'.proposals == s.proposals[s.nextId := p]
    requires s'.states == s.states && s'.pending == s.pending + {p}
    requires forall c: DealId :: Fresh(s', c) <==> Fresh(s, c) || c == s.nextId
    requires forall c: DealId ::
      Scheduled(s'.ops, horizon, {}, c) <==> Scheduled(s.ops, horizon, {}, c) || c == s.nextId
    ensures PendingOk(s', horizon, {})
  {
    hide Scheduled, Fresh, Owned;
    NotFresh(s, horizon, p);
    forall c: DealId | Fresh(s, c) ensures c in s.proposals { FreshIsLive(s, c); }
    PublishWitness(s, s', p);
  }

  lemma FreshIsLive(s: State, d: DealId)
    requires Fresh(s, d)
    ensures d in s.proposals
  {
  }

  lemma ScheduledAfter(ops: map<Epoch, set<DealId>>, p: Proposal, d: DealId, horizon: Epoch, c: DealId)
    requires horizon < p.start
    ensures Scheduled(Schedule(ops, NextUpdateEpoch(d, DEAL_UPDATES_INTERVAL, p.start), d), horizon, {}, c)
       <==> Scheduled(ops, horizon, {}, c) || c == d
  {
    hide NextUpdateEpoch, Schedule, Planned;
    NextUpdateEpochIsFirst(d, DEAL_UPDATES_INTERVAL, p.start);
    var e := NextUpdateEpoch(d, DEAL_UPDATES_INTERVAL, p.start);
    forall f { PlannedAfter(ops, e, d, f, c); }
    if c == d {
      assert Planned(Schedule(ops, e, d), e, d);
    }
    if Scheduled(ops, horizon, {}, c) {
      var f :| Planned(ops, f, c) && f > horizon;
      assert Planned(Schedule(ops, e, d), f, c);
    }
  }

  lemma PublishWitness(s: State, s': State, p: Proposal)
    requires forall q :: q in s.pending ==> Owned(s, q)
    requires forall c: DealId :: Fresh(s, c) ==> Fresh(s', c) && s'.proposals[c] == s.proposals[c]
    requires s'.pending == s.pending + {p} && Fresh(s', s.nextId) && s'.proposals[s.nextId] == p
    ensures forall q :: q in s'.pending ==> Owned(s', q)
  {
    forall q | q in s'.pending ensures Owned(s', q) {
      if q != p {
        var c: DealId :| Fresh(s, c) && s.proposals[c] == q;
        assert Fresh(s', c);
      }
    }
  }

  lemma PublishSchedule(s: State, p: Proposal, allocation: Option<AllocationId>, horizon: Epoch)
    requires DealsOk(s) && ScheduleOk(s, horizon, {})
    ensures ScheduleOk(Publish(s, p, allocation), horizon, {})
  {
    hide Lock, NextUpdateEpoch, Schedule, Planned;
    var s' := Publish(s, p, allocation);
    NextUpdateEpochIsFirst(s.nextId, DEAL_UPDATES_INTERVAL, p.start);
    forall f, c: DealId {
      PlannedAfter(s.ops, NextUpdateEpoch(s.nextId, DEAL_UPDATES_INTERVAL, p.start), s.nextId, f, c);
    }
  }

  lemma PublishLater(s: State, p: Proposal, allocation: Option<AllocationId>)
    requires Inv(s) && s.lastCron < p.start
    ensures forall e :: e in Publish(s, p, allocation).ops ==> e > s.lastCron
  {
    hide InvDuring, Lock, NextUpdateEpoch;
    NextUpdateEpochIsFirst(s.nextId, DEAL_UPDATES_INTERVAL, p.start);
  }

  lemma PublishKeeps(s: State, p: Proposal, allocation: Option<AllocationId>)
    requires Inv(s) && p.Sound() && p !in s.pending && s.lastCron < p.start
    requires forall a: Address :: Get(s.ledger.locked, a) + ShareOf(p, p.TotalFee(), a) <= Get(s.ledger.escrow, a)
    ensures Inv(Publish(s, p, allocation))
  {
    hide DealsOk, LockedOk, TotalsOk, PendingOk, ScheduleOk, IndexOk, RecordsOk, FundsOk, Lock, NextUpdateEpoch,
      Schedule, Proposal.Fee, OthersSame;
    PublishLedger(s, p, allocation);
    PublishDeals(s, p, allocation);
    PublishHistory(s, p, allocation);
    PublishIndex(s, p, allocation);
    PublishPending(s, p, allocation, s.lastCron);
    PublishSchedule(s, p, allocation, s.lastCron);
    PublishLater(s, p, allocation);
  }

  // ---------- Activation ----------

  lemma ActivateMoney(s: State, key: SectorKey, ids: set<DealId>, now: Epoch)
    requires DealsOk(s) && forall d :: d in ids ==> d in s.proposals && d !in s.states
    ensures SameMoney(s, Activate(s, key, ids, now))
    ensures forall c: DealId :: Fresh(Activate(s, key, ids, now), c) <==> Fresh(s, c)
  {
    hide Entry;
  }

  lemma ActivateDeals(s: State, key: SectorKey, ids: set<DealId>, now: Epoch)
    requires DealsOk(s) && s.history.clock == now >= 0
    requires forall d :: d in ids ==> d in s.proposals && d !in s.states && now <= s.proposals[d].start
    ensures DealsOk(Activate(s, key, ids, now))
  {
    hide Entry;
  }

  lemma ActivateLists(s: State, key: SectorKey, ids: set<DealId>, now: Epoch, k: SectorKey, d: DealId)
    requires forall c :: c in ids ==> c in s.proposals && s.proposals[c].provider == key.0
    requires d in Entry(s.sectorDeals, k) ==>
      d !in ids && d in s.states && d in s.proposals && s.proposals[d].provider == k.0 && s.states[d].sector == k.1
    requires d in Entry(Activate(s, key, ids, now).sectorDeals, k)
    ensures var s' := Activate(s, key, ids, now);
      d in s'.states && d in s'.proposals && s'.proposals[d].provider == k.0 && s'.states[d].sector == k.1
  {
    hide Entry;
    EntryGrows(s.sectorDeals, key, ids, k);
  }

  lemma ActivateListed(s: State, key: SectorKey, ids: set<DealId>, now: Epoch, d: DealId)
    requires forall c :: c in ids ==> c in s.proposals && c !in s.states && s.proposals[c].provider == key.0
    requires d in s.states && d in s.proposals ==>
      d in Entry(s.sectorDeals, (s.proposals[d].provider, s.states[d].sector))
    ensures var s' := Activate(s, key, ids, now);
      d in s'.states && d in s'.proposals ==>
        d in Entry(s'.sectorDeals, (s'.proposals[d].provider, s'.states[d].sector))
  {
    hide Entry;
    var s' := Activate(s, key, ids, now);
    if d in s'.states && d in s'.proposals {
      EntryGrows(s.sectorDeals, key, ids, (s'.proposals[d].provider, s'.states[d].sector));
    }
  }

  lemma ActivateIndex(s: State, key: SectorKey, ids: set<DealId>, now: Epoch)
    requires IndexOk(s)
    requires forall d :: d in ids ==> d in s.proposals && d !in s.states && s.proposals[d].provider == key.0
    ensures IndexOk(Activate(s, key, ids, now))
  {
    hide Entry, Activate;
    var s' := Activate(s, key, ids, now);
    assert s'.proposals == s.proposals && s'.history == s.history by { ActivateSame(s, key, ids, now); }
    forall k, d: DealId | d in Entry(s'.sectorDeals, k)
      ensures d in s'.states && d in s'.proposals && s'.proposals[d].provider == k.0 && s'.states[d].sector == k.1
    {
      ActivateLists(s, key, ids, now, k, d);
    }
    forall d: DealId | d in s'.states && d in s'.proposals && s'.proposals[d].end > s'.history.clock
      ensures d in Entry(s'.sectorDeals, (s'.proposals[d].provider, s'.states[d].sector))
    {
      ActivateListed(s, key, ids, now, d);
    }
  }

  lemma ActivateSame(s: State, key: SectorKey, ids: set<DealId>, now: Epoch)
    ensures Activate(s, key, ids, now).proposals == s.proposals && Activate(s, key, ids, now).history == s.history
  {
  }

  lemma EntryGrows(index: map<SectorKey, set<DealId>>, key: SectorKey, ids: set<DealId>, k: SectorKey)
    ensures Entry(index[key := Entry(index, key) + ids], k) == Entry(index, k) + (if k == key then ids else {})
  {
  }

  lemma ActivatePending(s: State, key: SectorKey, ids: set<DealId>, now: Epoch, horizon: Epoch)
    requires DealsOk(s) && PendingOk(s, horizon, {}) && ScheduleOk(s, horizon, {})
    requires forall d :: d in ids ==> d in s.proposals && d !in s.states
    ensures PendingOk(Activate(s, key, ids, now), horizon, {}) && ScheduleOk(Activate(s, key, ids, now), horizon, {})
  {
    hide DealsOk, Fresh, Scheduled, SameMoney, Entry, ScheduleOk, PendingOk;
    ActivateMoney(s, key, ids, now);
    PendingFrame(s, Activate(s, key, ids, now), horizon, {});
    ScheduleShrinks(s, Activate(s, key, ids, now), horizon, {});
  }

  lemma ActivateKeeps(s: State, key: SectorKey, ids: set<DealId>, now: Epoch)
    requires Inv(s) && s.history.clock == now >= 0
    requires forall d :: d in ids ==>
      d in s.proposals && d !in s.states && now <= s.proposals[d].start && s.proposals[d].provider == key.0
    ensures Inv(Activate(s, key, ids, now))
  {
    hide DealsOk, LockedOk, TotalsOk, PendingOk, ScheduleOk, IndexOk, RecordsOk, FundsOk, SameMoney, Entry, Fresh;
    ActivateMoney(s, key, ids, now);
    MoneyFrame(s, Activate(s, key, ids, now));
    ActivateDeals(s, key, ids, now);
    ActivateIndex(s, key, ids, now);
    ActivatePending(s, key, ids, now, s.lastCron);
  }
}
