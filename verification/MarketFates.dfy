/** What becomes of each deal at each call. */
module MarketFates {
  import opened BalanceTable
  import opened Deals
  import opened MarketActivation
  import opened MarketCalls
  import opened MarketInvariant
  import opened MarketPublication
  import opened MarketRuns
  import opened MarketState
  import opened MarketVisits

  /** The deal is over, with this outcome on record. */
  ghost predicate Ended(s: State, d: DealId, outcome: Outcome) {
    && d !in s.proposals && d !in s.states
    && d in s.history.records && s.history.records[d].outcome == outcome
  }

  /** The deal goes on, and its payments are up to date. */
  ghost predicate PaidTo(s: State, s': State, d: DealId, now: Epoch)
    requires d in s.proposals && d in s.states
  {
    && d in s'.proposals && s'.proposals[d] == s.proposals[d]
    && d in s'.states && s'.states[d] == s.states[d].(lastUpdated := now)
  }

  /** What settling a live deal comes to: nothing before it starts if it is not active, the end of it once it
      was to start, and for an active deal payment up to date or, once its term is over, completion. */
  ghost predicate SettledFate(s: State, s': State, d: DealId, now: Epoch)
    requires d in s.proposals
  {
    if d !in s.states then
      if now < s.proposals[d].start then SameAt(s, s', d) else Ended(s', d, TimedOut)
    else if now < s.proposals[d].end then PaidTo(s, s', d, now)
    else Ended(s', d, Completed)
  }

  lemma SettleFate(s: State, d: DealId, now: Epoch)
    requires d in s.proposals
    ensures SettledFate(s, Settle(s, d, now), d, now)
  {
    hide Proposal.Fee, RemoveDeals, SettlePending, Advance, DueAt, PaidUntil, MissActivation;
  }

  lemma SettleAgain(s: State, t: State, d: DealId, now: Epoch)
    requires d in s.proposals && SettledFate(s, t, d, now)
    ensures SettledFate(s, Settle(t, d, now), d, now)
  {
    hide Proposal.Fee, RemoveDeals, SettlePending, Advance, DueAt, PaidUntil, MissActivation;
  }

  lemma {:induction false} SettleAllFate(s: State, ids: seq<DealId>, d: DealId, now: Epoch)
    ensures d !in ids || d !in s.proposals ==> SameAt(s, SettleAll(s, ids, now), d)
    ensures d in ids && d in s.proposals ==> SettledFate(s, SettleAll(s, ids, now), d, now)
  {
    hide Settle, SettledFate;
    if ids != [] {
      var pre, last := ids[..|ids| - 1], ids[|ids| - 1];
      var t := SettleAll(s, pre, now);
      assert ids == pre + [last];
      SettleAllFate(s, pre, d, now);
      if last != d {
        SettleOthers(t, last, now, d);
        if d in s.proposals && d in ids {
          SameFate(s, t, Settle(t, last, now), d, now);
        }
      } else if d in s.proposals {
        if d in pre {
          SettleAgain(s, t, d, now);
        } else {
          SettleFate(t, d, now);
          FateOfSame(s, t, Settle(t, d, now), d, now);
        }
      } else {
        SettleGone(t, d, now);
      }
    }
  }

  lemma SettleGone(s: State, d: DealId, now: Epoch)
    requires d !in s.proposals
    ensures Settle(s, d, now) == s
  {
  }

  lemma SameFate(s: State, t: State, u: State, d: DealId, now: Epoch)
    requires d in s.proposals && SettledFate(s, t, d, now) && SameAt(t, u, d)
    ensures SettledFate(s, u, d, now)
  {
  }

  lemma FateOfSame(s: State, t: State, u: State, d: DealId, now: Epoch)
    requires d in s.proposals && SameAt(s, t, d) && SettledFate(t, u, d, now)
    ensures SettledFate(s, u, d, now)
  {
  }

  // ---------- The tick ----------

  /** What a visit comes to: the end of a deal that is not active, nothing for one that was never updated,
      and the same as settlement for the others. */
  ghost predicate VisitedFate(s: State, s': State, d: DealId, now: Epoch)
    requires d in s.proposals
  {
    if d !in s.states then Ended(s', d, TimedOut)
    else if s.states[d].lastUpdated == EPOCH_UNDEFINED then SameAt(s, s', d)
    else if now < s.proposals[d].end then PaidTo(s, s', d, now)
    else Ended(s', d, Completed)
  }

  lemma VisitFate(s: State, d: DealId, now: Epoch)
    requires d in s.proposals
    ensures VisitedFate(s, Visit(s, d, now).0, d, now)
  {
    hide Proposal.Fee, RemoveDeals, SettlePending, Advance, DueAt, PaidUntil, MissActivation;
  }

  lemma {:induction false} VisitAllFate(s: State, ids: seq<DealId>, d: DealId, now: Epoch)
    requires forall i, j :: 0 <= i < j < |ids| ==> ids[i] != ids[j]
    ensures d !in ids || d !in s.proposals ==> SameAt(s, VisitAll(s, ids, now).0, d)
    ensures d in ids && d in s.proposals ==> VisitedFate(s, VisitAll(s, ids, now).0, d, now)
  {
    hide Visit, VisitedFate;
    if ids != [] {
      var pre, last := ids[..|ids| - 1], ids[|ids| - 1];
      var t := VisitAll(s, pre, now).0;
      assert ids == pre + [last];
      VisitAllFate(s, pre, d, now);
      if last != d {
        VisitOthers(t, last, now, d);
        if d in s.proposals && d in ids {
          SameVisited(s, t, Visit(t, last, now).0, d, now);
        }
      } else if d in s.proposals {
        VisitFate(t, d, now);
        VisitedSame(s, t, Visit(t, d, now).0, d, now);
      } else {
        VisitGone(t, d, now);
      }
    }
  }

  lemma VisitGone(s: State, d: DealId, now: Epoch)
    requires d !in s.proposals
    ensures Visit(s, d, now).0 == s
  {
  }

  lemma SameVisited(s: State, t: State, u: State, d: DealId, now: Epoch)
    requires d in s.proposals && VisitedFate(s, t, d, now) && SameAt(t, u, d)
    ensures VisitedFate(s, u, d, now)
  {
  }

  lemma VisitedSame(s: State, t: State, u: State, d: DealId, now: Epoch)
    requires d in s.proposals && SameAt(s, t, d) && VisitedFate(t, u, d, now)
    ensures VisitedFate(s, u, d, now)
  {
  }

  // ---------- Termination ----------

  lemma TerminateFate(s: State, d: DealId, at: Epoch)
    ensures d in s.proposals && d in s.states && at < s.proposals[d].end ==>
      Ended(Terminate(s, d, at), d, Terminated(at))
    ensures d !in s.proposals || d !in s.states || at >= s.proposals[d].end ==> SameAt(s, Terminate(s, d, at), d)
  {
    hide Proposal.Fee, RemoveDeals, SettlePending, Pay, Forfeit, PaidUntil;
  }

  lemma TerminateAllFate(s: State, ids: seq<DealId>, d: DealId, at: Epoch)
    requires forall i, j :: 0 <= i < j < |ids| ==> ids[i] != ids[j]
    ensures var t := TerminateAll(s, ids, at);
      if d in ids && d in s.proposals && d in s.states && at < s.proposals[d].end then Ended(t, d, Terminated(at))
      else SameAt(s, t, d)
  {
    hide Terminate, TerminateAll;
    TerminateFate(s, d, at);
    if d in ids {
      TerminateAllAt(s, ids, d, at);
    } else {
      TerminateAllOthers(s, ids, d, at);
    }
  }

  // ---------- Every call ----------

  /** The call is an activation, and the deal is one that it starts. */
  ghost predicate Starts(s: State, e: Event, s': State, d: DealId) {
    && (e.call.BatchActivateDeals? || e.call.SectorContentChanged?)
    && d in s.proposals && d !in s.states && d in s'.states
    && s'.states[d].sectorStart == e.now && s'.states[d].lastUpdated == EPOCH_UNDEFINED
    && d in s'.proposals && s'.proposals[d] == s.proposals[d]
    && d in s.history.records && d in s'.history.records && s'.history.records[d] == s.history.records[d]
  }

  /** What becomes of a live deal: settled if named in a settlement, visited if due at a tick, ended as of the
      epoch given if listed under a sector that is terminated before its term is over, and otherwise left as
      it is or started. */
  ghost predicate Fate(s: State, e: Event, s': State, d: DealId)
    requires d in s.proposals
  {
    match e.call
    case SettleDealPayments(ids) => if d in ids then SettledFate(s, s', d, e.now) else SameAt(s, s', d)
    case EpochTick(_) => if d in Due(s, e.now) then VisitedFate(s, s', d, e.now) else SameAt(s, s', d)
    case OnMinerSectorsTerminate(miner, numbers, at, _) =>
      if d in Listed(s, miner, numbers) && at < s.proposals[d].end then Ended(s', d, Terminated(at))
      else SameAt(s, s', d)
    case BatchActivateDeals(_, _) => SameAt(s, s', d) || Starts(s, e, s', d)
    case SectorContentChanged(_, _) => SameAt(s, s', d) || Starts(s, e, s', d)
    case AddBalance(_, _) => SameAt(s, s', d)
    case WithdrawBalance(_, _) => SameAt(s, s', d)
    case PublishStorageDeals(_, _, _, _, _) => SameAt(s, s', d)
  }

  lemma ActivateFate(s: State, e: Event, key: SectorKey, ids: set<DealId>, d: DealId)
    requires e.call.BatchActivateDeals? || e.call.SectorContentChanged?
    requires forall c :: c in ids ==> c in s.proposals && c !in s.states
    requires d in s.history.records
    ensures var t := Activate(s, key, ids, e.now); SameAt(s, t, d) || Starts(s, e, t, d)
  {
    hide Entry;
  }

  lemma {:induction false} BatchFate(s: State, e: Event, n: nat, d: DealId)
    requires e.call.BatchActivateDeals? && n <= |e.call.sectors| && d in s.history.records
    ensures var t := ActivateAll(s, e.call.miner, e.call.sectors[..n], e.now); SameAt(s, t, d) || Starts(s, e, t, d)
  {
    hide Activate;
    if n > 0 {
      var m := n - 1;
      assert e.call.sectors[..n][..m] == e.call.sectors[..m];
      BatchFate(s, e, m, d);
      var t, sector := ActivateAll(s, e.call.miner, e.call.sectors[..m], e.now), e.call.sectors[m];
      if SectorReady(t, e.call.miner, sector, e.now) {
        ActivateFate(t, e, (e.call.miner, sector.number), IdSet(sector.ids), d);
      }
    } else {
      assert e.call.sectors[..0] == [];
    }
  }

  lemma {:induction false} ChangesFate(s: State, e: Event, n: nat, d: DealId)
    requires e.call.SectorContentChanged? && n <= |e.call.changes| && d in s.history.records
    ensures var t := ChangeAll(s, e.call.miner, e.call.changes[..n], e.now); SameAt(s, t, d) || Starts(s, e, t, d)
  {
    hide Activate;
    if n > 0 {
      var m := n - 1;
      assert e.call.changes[..n][..m] == e.call.changes[..m];
      ChangesFate(s, e, m, d);
      var t, change := ChangeAll(s, e.call.miner, e.call.changes[..m], e.now), e.call.changes[m];
      ActivateFate(t, e, (e.call.miner, change.number),
                   Accepted(t, e.call.miner, change.commitment, change.pieces, e.now), d);
    } else {
      assert e.call.changes[..0] == [];
    }
  }

  lemma {:induction false} PublishAllSame(s: State, ps: seq<Proposal>, allocations: map<Proposal, AllocationId>,
                                          d: DealId)
    requires d < s.nextId
    ensures SameAt(s, PublishAll(s, ps, allocations), d)
  {
    hide Lock, Schedule, NextUpdateEpoch;
    if ps != [] {
      PublishAllFields(s, ps[..|ps| - 1], allocations);
      PublishAllSame(s, ps[..|ps| - 1], allocations, d);
    }
  }

  lemma LiveRecord(s: State, d: DealId)
    requires Inv(s) && d in s.proposals
    ensures d < s.nextId && d in s.history.records
  {
    hide LockedOk, TotalsOk, PendingOk, ScheduleOk, IndexOk, FundsOk, RecordOk;
  }

  lemma ListedActive(s: State, miner: Address, numbers: set<SectorNumber>, d: DealId)
    requires Inv(s) && d in Listed(s, miner, numbers)
    ensures d in s.states
  {
    hide DealsOk, LockedOk, TotalsOk, PendingOk, ScheduleOk, RecordsOk, FundsOk, Entry;
  }

  /** Every live deal meets its fate, at every call. */
  lemma EveryFate(s: State, e: Event, d: DealId)
    requires Inv(s) && Enabled(s, e) && d in s.proposals
    ensures Fate(s, e, Apply(s, e), d)
  {
    hide Inv, SubtractWithMinimum, Add, ActivateAll, ChangeAll, TerminateAll, SettleAll, VisitAll, PublishAll,
      Filter, AllLockable, KeysOf, Reschedule, Due, Listed, SettledFate, VisitedFate;
    var t := Tick(s, e.now);
    LiveRecord(s, d);
    TickFields(s, e.now);
    match e.call
    case AddBalance(_, _) =>
    case WithdrawBalance(_, _) =>
    case PublishStorageDeals(provider, deals, balances, transferred, allocations) =>
      PublishAllSame(t, Filter(t, provider, e.now, balances, deals).valid, allocations, d);
    case BatchActivateDeals(_, sectors) =>
      assert sectors[..|sectors|] == sectors;
      BatchFate(t, e, |sectors|, d);
    case SectorContentChanged(_, changes) =>
      assert changes[..|changes|] == changes;
      ChangesFate(t, e, |changes|, d);
    case OnMinerSectorsTerminate(miner, numbers, at, order) =>
      TerminateAllFate(t, order, d, at);
      if d in Listed(s, miner, numbers) { ListedActive(s, miner, numbers, d); }
    case SettleDealPayments(ids) =>
      SettleAllFate(t, ids, d, e.now);
      if d in ids { FateOfSame(s, t, Apply(s, e), d, e.now); }
    case EpochTick(order) =>
      VisitAllFate(t, order, d, e.now);
      if d in Due(s, e.now) { VisitedRest(s, t, VisitAll(t, order, e.now).0, Apply(s, e), d, e.now); }
  }

  /** A deal that is over stays as it was left. */
  lemma OverForGood(s: State, e: Event, d: DealId)
    requires Inv(s) && Enabled(s, e) && d < s.nextId && d !in s.proposals
    ensures SameAt(s, Apply(s, e), d)
  {
    hide Inv, SubtractWithMinimum, Add, ActivateAll, ChangeAll, TerminateAll, SettleAll, VisitAll, PublishAll,
      Filter, AllLockable, KeysOf, Reschedule, Due, Listed, SettledFate, VisitedFate;
    var t := Tick(s, e.now);
    OverRecord(s, d);
    TickFields(s, e.now);
    match e.call
    case AddBalance(_, _) =>
    case WithdrawBalance(_, _) =>
    case PublishStorageDeals(provider, deals, balances, transferred, allocations) =>
      PublishAllSame(t, Filter(t, provider, e.now, balances, deals).valid, allocations, d);
    case BatchActivateDeals(_, sectors) =>
      assert sectors[..|sectors|] == sectors;
      BatchFate(t, e, |sectors|, d);
    case SectorContentChanged(_, changes) =>
      assert changes[..|changes|] == changes;
      ChangesFate(t, e, |changes|, d);
    case OnMinerSectorsTerminate(_, _, at, order) => TerminateAllFate(t, order, d, at);
    case SettleDealPayments(ids) => SettleAllFate(t, ids, d, e.now);
    case EpochTick(order) => VisitAllFate(t, order, d, e.now);
  }

  lemma OverRecord(s: State, d: DealId)
    requires Inv(s) && d < s.nextId
    ensures d in s.history.records
  {
    hide LockedOk, TotalsOk, PendingOk, ScheduleOk, IndexOk, FundsOk, RecordOk;
  }

  lemma VisitedRest(s: State, t: State, u: State, v: State, d: DealId, now: Epoch)
    requires d in s.proposals && SameAt(s, t, d) && VisitedFate(t, u, d, now) && SameAt(u, v, d)
    ensures VisitedFate(s, v, d, now)
  {
  }

  // ---------- Allocations ----------

  /** The allocation of a deal is kept exactly while the deal is live and not active. */
  ghost predicate AllocationKept(s: State, s': State, d: DealId) {
    && (d in s'.allocations <==> d in s.allocations && d in s'.proposals && d !in s'.states)
    && (d in s'.allocations ==> s'.allocations[d] == s.allocations[d])
    && (d in s'.proposals && d !in s'.states ==> d in s.proposals && d !in s.states)
  }

  /** Allocations are of deals that are live and not active. */
  ghost predicate Waiting(s: State, d: DealId) {
    (d in s.allocations ==> d in s.proposals && d !in s.states) && (d in s.states ==> d in s.proposals)
  }

  lemma SettleAllocation(s: State, c: DealId, now: Epoch, d: DealId)
    requires Waiting(s, d)
    ensures AllocationKept(s, Settle(s, c, now), d) && Waiting(Settle(s, c, now), d)
  {
    hide Proposal.Fee, RemoveDeals, SettlePending, Advance, DueAt, PaidUntil, MissActivation;
  }

  lemma {:induction false} SettleAllAllocation(s: State, ids: seq<DealId>, now: Epoch, d: DealId)
    requires Waiting(s, d)
    ensures AllocationKept(s, SettleAll(s, ids, now), d) && Waiting(SettleAll(s, ids, now), d)
  {
    hide Settle;
    if ids != [] {
      SettleAllAllocation(s, ids[..|ids| - 1], now, d);
      SettleAllocation(SettleAll(s, ids[..|ids| - 1], now), ids[|ids| - 1], now, d);
    }
  }

  lemma TerminateAllocation(s: State, c: DealId, at: Epoch, d: DealId)
    requires Waiting(s, d)
    ensures AllocationKept(s, Terminate(s, c, at), d) && Waiting(Terminate(s, c, at), d)
  {
    hide Proposal.Fee, RemoveDeals, SettlePending, Pay, Forfeit, PaidUntil;
  }

  lemma {:induction false} TerminateAllAllocation(s: State, ids: seq<DealId>, at: Epoch, d: DealId)
    requires Waiting(s, d)
    ensures AllocationKept(s, TerminateAll(s, ids, at), d) && Waiting(TerminateAll(s, ids, at), d)
  {
    hide Terminate;
    if ids != [] {
      TerminateAllAllocation(s, ids[..|ids| - 1], at, d);
      TerminateAllocation(TerminateAll(s, ids[..|ids| - 1], at), ids[|ids| - 1], at, d);
    }
  }

  lemma VisitAllocation(s: State, c: DealId, now: Epoch, d: DealId)
    requires Waiting(s, d)
    ensures AllocationKept(s, Visit(s, c, now).0, d) && Waiting(Visit(s, c, now).0, d)
  {
    hide Proposal.Fee, RemoveDeals, SettlePending, Advance, DueAt, PaidUntil, MissActivation;
  }

  lemma {:induction false} VisitAllAllocation(s: State, ids: seq<DealId>, now: Epoch, d: DealId)
    requires Waiting(s, d)
    ensures AllocationKept(s, VisitAll(s, ids, now).0, d) && Waiting(VisitAll(s, ids, now).0, d)
  {
    hide Visit;
    if ids != [] {
      VisitAllAllocation(s, ids[..|ids| - 1], now, d);
      VisitAllocation(VisitAll(s, ids[..|ids| - 1], now).0, ids[|ids| - 1], now, d);
    }
  }

  lemma ActivateAllocation(s: State, key: SectorKey, ids: set<DealId>, now: Epoch, d: DealId)
    requires Waiting(s, d) && forall c :: c in ids ==> c in s.proposals && c !in s.states
    ensures AllocationKept(s, Activate(s, key, ids, now), d) && Waiting(Activate(s, key, ids, now), d)
  {
    hide Entry;
  }

  lemma {:induction false} ActivateAllAllocation(s: State, miner: Address, sectors: seq<SectorDeals>, now: Epoch,
                                                 d: DealId)
    requires Waiting(s, d)
    ensures AllocationKept(s, ActivateAll(s, miner, sectors, now), d) && Waiting(ActivateAll(s, miner, sectors, now), d)
  {
    hide Activate;
    if sectors != [] {
      var t, sector := ActivateAll(s, miner, sectors[..|sectors| - 1], now), sectors[|sectors| - 1];
      ActivateAllAllocation(s, miner, sectors[..|sectors| - 1], now, d);
      if SectorReady(t, miner, sector, now) {
        ActivateAllocation(t, (miner, sector.number), IdSet(sector.ids), now, d);
      }
    }
  }

  lemma {:induction false} ChangeAllAllocation(s: State, miner: Address, changes: seq<SectorChange>, now: Epoch,
                                               d: DealId)
    requires Waiting(s, d)
    ensures AllocationKept(s, ChangeAll(s, miner, changes, now), d) && Waiting(ChangeAll(s, miner, changes, now), d)
  {
    hide Activate;
    if changes != [] {
      var t, change := ChangeAll(s, miner, changes[..|changes| - 1], now), changes[|changes| - 1];
      ChangeAllAllocation(s, miner, changes[..|changes| - 1], now, d);
      ActivateAllocation(t, (miner, change.number),
                         Accepted(t, miner, change.commitment, change.pieces, now), now, d);
    }
  }

  /** A new deal has the allocation that was made for its proposal, if any. */
  lemma {:induction false} PublishAllAllocation(s: State, ps: seq<Proposal>, allocations: map<Proposal, AllocationId>,
                                                d: DealId)
    requires Waiting(s, d) && (forall c: DealId :: c in s.proposals || c in s.states ==> c < s.nextId)
    ensures var t := PublishAll(s, ps, allocations);
      if s.nextId <= d < s.nextId + |ps| then
        var p := ps[d - s.nextId];
        (d in t.allocations <==> p in allocations) && (p in allocations ==> t.allocations[d] == allocations[p])
      else AllocationKept(s, t, d)
  {
    hide Lock, Schedule, NextUpdateEpoch;
    if ps != [] {
      var pre := ps[..|ps| - 1];
      PublishAllFields(s, pre, allocations);
      PublishAllStates(s, pre, allocations);
      PublishAllAllocation(s, pre, allocations, d);
    }
  }

  lemma WaitingDeals(s: State, d: DealId)
    requires Inv(s)
    ensures Waiting(s, d) && forall c: DealId :: c in s.proposals || c in s.states ==> c < s.nextId
  {
    hide LockedOk, TotalsOk, PendingOk, ScheduleOk, IndexOk, FundsOk, RecordsOk;
  }

  /** No call but publication gives a deal an allocation, and a deal keeps it until it is active or over. */
  lemma EveryAllocation(s: State, e: Event, d: DealId)
    requires Inv(s) && Enabled(s, e) && (d < s.nextId || !e.call.PublishStorageDeals?)
    ensures AllocationKept(s, Apply(s, e), d)
  {
    hide Inv, SubtractWithMinimum, Add, ActivateAll, ChangeAll, TerminateAll, SettleAll, VisitAll, PublishAll,
      Filter, AllLockable, KeysOf, Reschedule;
    var t := Tick(s, e.now);
    WaitingDeals(s, d);
    match e.call
    case AddBalance(_, _) =>
    case WithdrawBalance(_, _) =>
    case PublishStorageDeals(provider, deals, balances, transferred, allocations) =>
      PublishAllAllocation(t, Filter(t, provider, e.now, balances, deals).valid, allocations, d);
    case BatchActivateDeals(miner, sectors) => ActivateAllAllocation(t, miner, sectors, e.now, d);
    case SectorContentChanged(miner, changes) => ChangeAllAllocation(t, miner, changes, e.now, d);
    case OnMinerSectorsTerminate(_, _, at, order) => TerminateAllAllocation(t, order, at, d);
    case SettleDealPayments(ids) => SettleAllAllocation(t, ids, e.now, d);
    case EpochTick(order) => VisitAllAllocation(t, order, e.now, d);
  }
}
