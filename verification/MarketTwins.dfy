/** Live deals with one proposal. The pending set is there to prevent them, and an update no later
    than the start of a deal gets around it. */
module MarketTwins {
  import opened BalanceTable
  import opened Deals
  import opened MarketActivation
  import opened MarketCalls
  import opened MarketInvariant
  import opened MarketPublication
  import opened MarketRuns
  import opened MarketSchedule
  import opened MarketState

  /** Until its start a proposal is kept from being published again exactly while some live deal
      with it was never updated. */
  lemma PendingBlocksIff(events: seq<Event>, now: Epoch, p: Proposal)
    requires Possible(events) && Run(events).lastCron < now <= p.start
    ensures var s := Run(events);
      p in s.pending <==> exists d: DealId :: d in s.proposals && s.proposals[d] == p && NeverUpdated(s, d)
  {
    hide Run, RecordsOk, LockedOk, TotalsOk, IndexOk, FundsOk, DealsOk, ScheduleOk;
    RunInv(events);
    var s := Run(events);
    forall d: DealId | d in s.proposals && s.proposals[d] == p && NeverUpdated(s, d) ensures p in s.pending {
      assert Fresh(s, d);
    }
    if p in s.pending {
      var d: DealId :| Fresh(s, d) && s.proposals[d] == p;
    }
  }

  // ---------- What a call adds ----------

  /** No deal is new, and none has another proposal. */
  ghost predicate NoneNew(s: State, s': State) {
    forall d: DealId :: d in s'.proposals ==> d in s.proposals && s'.proposals[d] == s.proposals[d]
  }

  lemma SettleNoneNew(s: State, d: DealId, now: Epoch)
    ensures NoneNew(s, Settle(s, d, now))
  {
    hide Proposal.Fee, RemoveDeals, SettlePending, Pay, Expire, MissActivation;
  }

  lemma {:induction false} SettleAllNoneNew(s: State, ids: seq<DealId>, now: Epoch)
    ensures NoneNew(s, SettleAll(s, ids, now))
  {
    hide Settle;
    if ids != [] {
      SettleAllNoneNew(s, ids[..|ids| - 1], now);
      SettleNoneNew(SettleAll(s, ids[..|ids| - 1], now), ids[|ids| - 1], now);
    }
  }

  lemma {:induction false} TerminateAllNoneNew(s: State, ids: seq<DealId>, at: Epoch)
    ensures NoneNew(s, TerminateAll(s, ids, at))
  {
    hide Terminate;
    if ids != [] {
      TerminateAllNoneNew(s, ids[..|ids| - 1], at);
      TerminateStill(TerminateAll(s, ids[..|ids| - 1], at), ids[|ids| - 1], at);
    }
  }

  lemma {:induction false} VisitAllNoneNew(s: State, ids: seq<DealId>, now: Epoch)
    requires now >= 0
    ensures NoneNew(s, VisitAll(s, ids, now).0)
  {
    hide Visit, Fresh;
    if ids != [] {
      VisitAllNoneNew(s, ids[..|ids| - 1], now);
      VisitStill(VisitAll(s, ids[..|ids| - 1], now).0, ids[|ids| - 1], now);
    }
  }

  lemma {:induction false} ActivateAllNoneNew(s: State, miner: Address, sectors: seq<SectorDeals>, now: Epoch)
    ensures ActivateAll(s, miner, sectors, now).proposals == s.proposals
  {
    hide SectorReady, IdSet;
    if sectors != [] {
      ActivateAllNoneNew(s, miner, sectors[..|sectors| - 1], now);
    }
  }

  lemma {:induction false} ChangeAllNoneNew(s: State, miner: Address, changes: seq<SectorChange>, now: Epoch)
    ensures ChangeAll(s, miner, changes, now).proposals == s.proposals
  {
    hide Accepted;
    if changes != [] {
      ChangeAllNoneNew(s, miner, changes[..|changes| - 1], now);
    }
  }

  /** Only publication adds deals. */
  lemma ApplyNoneNew(s: State, e: Event)
    requires e.now >= 0 && !e.call.PublishStorageDeals?
    ensures NoneNew(s, Apply(s, e))
  {
    hide SubtractWithMinimum, Add, ActivateAll, ChangeAll, TerminateAll, SettleAll, VisitAll, KeysOf, Reschedule;
    var t := Tick(s, e.now);
    match e.call
    case AddBalance(_, _) =>
    case WithdrawBalance(_, _) =>
    case BatchActivateDeals(miner, sectors) => ActivateAllNoneNew(t, miner, sectors, e.now);
    case SectorContentChanged(miner, changes) => ChangeAllNoneNew(t, miner, changes, e.now);
    case OnMinerSectorsTerminate(_, _, at, order) => TerminateAllNoneNew(t, order, at);
    case SettleDealPayments(ids) => SettleAllNoneNew(t, ids, e.now);
    case EpochTick(order) => VisitAllNoneNew(t, order, e.now);
  }

  /** Publication adds the accepted proposals under consecutive identifiers. */
  lemma {:induction false} PublishAllAdds(s: State, ps: seq<Proposal>, allocations: map<Proposal, AllocationId>,
                                          d: DealId)
    requires d in PublishAll(s, ps, allocations).proposals
    ensures var p := PublishAll(s, ps, allocations).proposals[d];
      if s.nextId <= d < s.nextId + |ps| then p == ps[d - s.nextId] else d in s.proposals && p == s.proposals[d]
  {
    hide Lock, Schedule, NextUpdateEpoch;
    if ps != [] {
      var pre := ps[..|ps| - 1];
      PublishAllFields(s, pre, allocations);
      if d != s.nextId + |pre| {
        PublishAllAdds(s, pre, allocations, d);
      }
    }
  }

  // ---------- Twins ----------

  /** An active deal that was updated no later than its start. */
  predicate UpdatedEarly(s: State, d: DealId) {
    && d in s.proposals && d in s.states
    && s.states[d].lastUpdated != EPOCH_UNDEFINED
    && s.states[d].lastUpdated <= s.proposals[d].start
  }

  predicate Twins(s: State, c: DealId, d: DealId) {
    c < d && c in s.proposals && d in s.proposals && s.proposals[c] == s.proposals[d]
  }

  /** A proposal that is not pending and starts after the last tick belongs to no fresh deal. */
  lemma NotPending(s: State, now: Epoch, c: DealId)
    requires Inv(s) && s.history.clock <= now && s.lastCron < now
    requires c in s.proposals && s.proposals[c] !in s.pending && now <= s.proposals[c].start
    ensures UpdatedEarly(s, c)
  {
    hide RecordsOk, LockedOk, TotalsOk, IndexOk, FundsOk, ScheduleOk;
    assert !Fresh(s, c);
  }

  lemma PublishTwins(s: State, now: Epoch, ps: seq<Proposal>, allocations: map<Proposal, AllocationId>,
                     c: DealId, d: DealId)
    requires Inv(s) && s.history.clock <= now && s.lastCron < now
    requires forall p :: p in ps ==> p !in s.pending && now <= p.start
    requires forall i, j :: 0 <= i < j < |ps| ==> ps[i] != ps[j]
    requires Twins(PublishAll(s, ps, allocations), c, d)
    ensures Twins(s, c, d) || UpdatedEarly(s, c)
  {
    hide PublishAll, InvDuring;
    PublishAllAdds(s, ps, allocations, c);
    PublishAllAdds(s, ps, allocations, d);
    DealsBelowNext(s);
    if d >= s.nextId && c < s.nextId {
      assert ps[d - s.nextId] in ps;
      NotPending(s, now, c);
    }
  }

  lemma DealsBelowNext(s: State)
    requires Inv(s)
    ensures forall d: DealId :: d in s.proposals ==> d < s.nextId
  {
    hide RecordsOk, LockedOk, TotalsOk, IndexOk, FundsOk, ScheduleOk, PendingOk;
  }

  /** A call makes twins only of a deal that was updated early. */
  lemma ApplyTwins(s: State, e: Event, c: DealId, d: DealId)
    requires Inv(s) && Enabled(s, e) && Twins(Apply(s, e), c, d)
    ensures Twins(s, c, d) || UpdatedEarly(s, c)
  {
    hide InvDuring, Filter, PublishAll, AllLockable, Need, ClientNeed, Covered;
    if e.call.PublishStorageDeals? {
      var t := Tick(s, e.now);
      var ps := Filter(t, e.call.provider, e.now, e.call.balances, e.call.deals).valid;
      TickKeeps(s, e.now);
      InvSolvent(t);
      FilterOk(t, e.call.provider, e.now, e.call.balances, e.call.deals);
      if Apply(s, e) != t {
        PublishTwins(t, e.now, ps, e.call.allocations, c, d);
      }
    } else {
      hide Apply;
      ApplyNoneNew(s, e);
    }
  }

  /** Two live deals share a proposal only if the older one was, at some point of the run, an
      active deal updated no later than its start. */
  lemma {:induction false} TwinsWereUpdatedEarly(events: seq<Event>, c: DealId, d: DealId)
    requires Possible(events) && Twins(Run(events), c, d)
    ensures exists i :: 0 <= i < |events| && UpdatedEarly(Run(events[..i]), c)
  {
    hide Inv, Apply, Enabled, UpdatedEarly;
    if events != [] {
      var pre := events[..|events| - 1];
      assert forall i :: 0 <= i < |pre| ==> pre[..i] == events[..i];
      RunInv(pre);
      ApplyTwins(Run(pre), events[|events| - 1], c, d);
      if Twins(Run(pre), c, d) {
        TwinsWereUpdatedEarly(pre, c, d);
      }
    }
  }
}
