/** Which deals the tick visits more than once: those that were settled before it first came to them. */
module MarketVisits {
  import opened Arithmetic
  import opened BalanceTable
  import opened Deals
  import opened MarketActivation
  import opened MarketCalls
  import opened MarketInvariant
  import opened MarketPublication
  import opened MarketRuns
  import opened MarketSchedule
  import opened MarketState
  import opened MarketTwins
  import opened Wrappers

  /** An active deal that payments have been made on, or could have been. */
  predicate Updated(s: State, d: DealId) {
    d in s.proposals && d in s.states && s.states[d].lastUpdated != EPOCH_UNDEFINED
  }

  // ---------- One tick ----------

  lemma VisitOthers(s: State, c: DealId, now: Epoch, d: DealId)
    requires c != d
    ensures SameAt(s, Visit(s, c, now).0, d)
  {
    hide Proposal.Fee, RemoveDeals, SettlePending, Advance, DueAt, PaidUntil, MissActivation;
  }

  lemma VisitIs(s: State, d: DealId, now: Epoch)
    ensures Visit(s, d, now).1 <==> Updated(s, d) && now < s.proposals[d].end
  {
    hide Proposal.Fee, RemoveDeals, SettlePending, Advance, DueAt, PaidUntil, MissActivation;
  }

  lemma {:induction false} VisitAllOthers(s: State, ids: seq<DealId>, now: Epoch, d: DealId)
    requires d !in ids
    ensures SameAt(s, VisitAll(s, ids, now).0, d) && d !in VisitAll(s, ids, now).1
  {
    hide Visit;
    if ids != [] {
      var pre := ids[..|ids| - 1];
      VisitAllOthers(s, pre, now, d);
      VisitOthers(VisitAll(s, pre, now).0, ids[|ids| - 1], now, d);
    }
  }

  /** A deal is to be visited again as its own state says, whatever other deals are visited. */
  lemma {:induction false} VisitAllIs(s: State, ids: seq<DealId>, now: Epoch, d: DealId)
    requires forall i, j :: 0 <= i < j < |ids| ==> ids[i] != ids[j]
    ensures d in VisitAll(s, ids, now).1 <==> d in ids && Updated(s, d) && now < s.proposals[d].end
  {
    hide Visit;
    if ids != [] {
      var pre, last := ids[..|ids| - 1], ids[|ids| - 1];
      assert ids == pre + [last];
      VisitAllIs(s, pre, now, d);
      if d == last {
        VisitAllOthers(s, pre, now, d);
        VisitIs(VisitAll(s, pre, now).0, d, now);
      }
    }
  }

  lemma DueOnce(s: State, now: Epoch, d: DealId)
    requires Inv(s) && d in Due(s, now)
    ensures forall e :: Planned(s.ops, e, d) ==> e <= now
  {
    hide DealsOk, LockedOk, TotalsOk, PendingOk, IndexOk, RecordsOk, FundsOk;
    var f :| f in s.ops && s.lastCron < f <= now && d in s.ops[f];
    assert Planned(s.ops, f, d);
  }

  /** A tick plans a deal that it visits again, at the next epoch of that deal's own, if and only if the
      deal has been updated and its term is not over. */
  lemma PlannedAgainIff(s: State, now: Epoch, order: seq<DealId>, d: DealId, e: Epoch)
    requires Inv(s) && Enabled(s, Event(now, EpochTick(order))) && d in Due(s, now)
    ensures Planned(Apply(s, Event(now, EpochTick(order))).ops, e, d) <==>
      e == VisitAgain(d, now) && Updated(s, d) && now < s.proposals[d].end
  {
    hide InvDuring, Due, Planned, Reschedule, VisitAll, VisitAgain;
    var t := Tick(s, now);
    var again := VisitAll(t, order, now).1;
    VisitAllIs(t, order, now, d);
    VisitAllUnmoved(t, order, now);
    PlannedAgain(t.ops, now, again, e, d);
    DueOnce(s, now, d);
    AgainIsLater(d, now);
  }

  lemma AgainIsLater(d: DealId, now: Epoch)
    ensures VisitAgain(d, now) > now
  {
    hide NextUpdateEpoch;
    NextUpdateEpochIsFirst(d, DEAL_UPDATES_INTERVAL, now + 1);
  }

  // ---------- What a call does to one deal ----------

  /** Nothing is made fresh, and nothing is updated. */
  ghost predicate NoUpdate(s: State, s': State, d: DealId) {
    (Fresh(s', d) ==> Fresh(s, d)) && (Updated(s', d) ==> Updated(s, d))
  }

  lemma TerminateNoUpdate(s: State, c: DealId, at: Epoch, d: DealId)
    ensures NoUpdate(s, Terminate(s, c, at), d)
  {
    hide Proposal.Fee, RemoveDeals, SettlePending, Pay, Forfeit, PaidUntil;
  }

  lemma {:induction false} TerminateAllNoUpdate(s: State, ids: seq<DealId>, at: Epoch, d: DealId)
    ensures NoUpdate(s, TerminateAll(s, ids, at), d)
  {
    hide Terminate, Fresh, Updated;
    if ids != [] {
      TerminateAllNoUpdate(s, ids[..|ids| - 1], at, d);
      TerminateNoUpdate(TerminateAll(s, ids[..|ids| - 1], at), ids[|ids| - 1], at, d);
    }
  }

  lemma VisitNoUpdate(s: State, c: DealId, now: Epoch, d: DealId)
    requires now >= 0
    ensures NoUpdate(s, Visit(s, c, now).0, d)
  {
    hide Proposal.Fee, RemoveDeals, SettlePending, Advance, DueAt, PaidUntil, MissActivation;
  }

  lemma {:induction false} VisitAllNoUpdate(s: State, ids: seq<DealId>, now: Epoch, d: DealId)
    requires now >= 0
    ensures NoUpdate(s, VisitAll(s, ids, now).0, d)
  {
    hide Visit, Fresh, Updated;
    if ids != [] {
      VisitAllNoUpdate(s, ids[..|ids| - 1], now, d);
      VisitNoUpdate(VisitAll(s, ids[..|ids| - 1], now).0, ids[|ids| - 1], now, d);
    }
  }

  lemma ActivateNoUpdate(s: State, key: SectorKey, ids: set<DealId>, now: Epoch, d: DealId)
    requires forall c :: c in ids ==> c !in s.states
    ensures NoUpdate(s, Activate(s, key, ids, now), d)
  {
    hide Entry;
  }

  lemma {:induction false} ActivateAllNoUpdate(s: State, miner: Address, sectors: seq<SectorDeals>, now: Epoch,
                                               d: DealId)
    ensures NoUpdate(s, ActivateAll(s, miner, sectors, now), d)
  {
    hide Activate, Fresh, Updated;
    if sectors != [] {
      var t, sector := ActivateAll(s, miner, sectors[..|sectors| - 1], now), sectors[|sectors| - 1];
      ActivateAllNoUpdate(s, miner, sectors[..|sectors| - 1], now, d);
      if SectorReady(t, miner, sector, now) {
        ActivateNoUpdate(t, (miner, sector.number), IdSet(sector.ids), now, d);
      }
    }
  }

  lemma {:induction false} ChangeAllNoUpdate(s: State, miner: Address, changes: seq<SectorChange>, now: Epoch,
                                             d: DealId)
    ensures NoUpdate(s, ChangeAll(s, miner, changes, now), d)
  {
    hide Activate, Fresh, Updated;
    if changes != [] {
      var t, change := ChangeAll(s, miner, changes[..|changes| - 1], now), changes[|changes| - 1];
      ChangeAllNoUpdate(s, miner, changes[..|changes| - 1], now, d);
      ActivateNoUpdate(t, (miner, change.number), Accepted(t, miner, change.commitment, change.pieces, now), now, d);
    }
  }

  /** A new deal is neither updated nor, if it is old, made fresh. */
  lemma PublishAllNoUpdate(s: State, ps: seq<Proposal>, allocations: map<Proposal, AllocationId>, d: DealId)
    requires DealsOk(s)
    ensures var t := PublishAll(s, ps, allocations);
      && (Updated(t, d) ==> Updated(s, d))
      && (d < s.nextId && Fresh(t, d) ==> Fresh(s, d))
  {
    hide PublishAll;
    var t := PublishAll(s, ps, allocations);
    PublishAllStates(s, ps, allocations);
    if d in t.proposals {
      PublishAllAdds(s, ps, allocations, d);
    }
  }

  lemma SettleOne(s: State, c: DealId, now: Epoch, d: DealId)
    requires now >= 0
    ensures var t := Settle(s, c, now);
      && (d in t.proposals ==> d in s.proposals && (d in t.states <==> d in s.states))
      && (Fresh(t, d) ==> Fresh(s, d) && (c == d ==> d !in s.states))
      && (Updated(t, d) ==> Updated(s, d) || (c == d && d in s.states))
  {
    hide Proposal.Fee, RemoveDeals, SettlePending, Advance, DueAt, PaidUntil, MissActivation;
    if c != d {
      SettleOthers(s, c, now, d);
    }
  }

  lemma SettleOthers(s: State, c: DealId, now: Epoch, d: DealId)
    requires c != d
    ensures SameAt(s, Settle(s, c, now), d)
  {
    hide Proposal.Fee, RemoveDeals, SettlePending, Advance, DueAt, PaidUntil, MissActivation;
  }

  /** Settlement updates the deals it names that are active, and no other. */
  lemma {:induction false} SettleAllIs(s: State, ids: seq<DealId>, now: Epoch, d: DealId)
    requires now >= 0
    ensures var t := SettleAll(s, ids, now);
      && (d in t.proposals ==> d in s.proposals && (d in t.states <==> d in s.states))
      && (Fresh(t, d) ==> Fresh(s, d) && (d in ids ==> d !in s.states))
      && (Updated(t, d) ==> Updated(s, d) || (d in ids && d in s.states))
  {
    hide Settle, Updated;
    if ids != [] {
      SettleAllIs(s, ids[..|ids| - 1], now, d);
      SettleOne(SettleAll(s, ids[..|ids| - 1], now), ids[|ids| - 1], now, d);
      UpdatedIsActive(SettleAll(s, ids, now), d);
    }
  }

  lemma UpdatedIsActive(s: State, d: DealId)
    ensures Updated(s, d) ==> d in s.proposals && d in s.states
  {
  }

  // ---------- Whole calls ----------

  /** The call settles the deal while it is active. */
  predicate Settles(s: State, e: Event, d: DealId) {
    e.call.SettleDealPayments? && d in e.call.ids && d in s.states
  }

  /** A deal becomes updated only by being settled while active, and stops being fresh when it is. */
  lemma ApplyUpdates(s: State, e: Event, d: DealId)
    requires Inv(s) && Enabled(s, e)
    ensures Updated(Apply(s, e), d) ==> Updated(s, d) || Settles(s, e, d)
    ensures d < s.nextId && Fresh(Apply(s, e), d) ==> Fresh(s, d) && !Settles(s, e, d)
  {
    hide InvDuring, SubtractWithMinimum, Add, ActivateAll, ChangeAll, TerminateAll, SettleAll, VisitAll, PublishAll,
      Filter, AllLockable, KeysOf, Reschedule;
    var t := Tick(s, e.now);
    assert DealsOk(t) by { TickKeeps(s, e.now); DealsHold(t); }
    match e.call
    case AddBalance(_, _) =>
    case WithdrawBalance(_, _) =>
    case PublishStorageDeals(provider, deals, balances, transferred, allocations) =>
      PublishAllNoUpdate(t, Filter(t, provider, e.now, balances, deals).valid, allocations, d);
    case BatchActivateDeals(miner, sectors) => ActivateAllNoUpdate(t, miner, sectors, e.now, d);
    case SectorContentChanged(miner, changes) => ChangeAllNoUpdate(t, miner, changes, e.now, d);
    case OnMinerSectorsTerminate(_, _, at, order) => TerminateAllNoUpdate(t, order, at, d);
    case SettleDealPayments(ids) => SettleAllIs(t, ids, e.now, d);
    case EpochTick(order) => VisitAllNoUpdate(t, order, e.now, d);
  }

  lemma DealsHold(s: State)
    requires Inv(s)
    ensures DealsOk(s)
  {
    hide DealsOk, LockedOk, TotalsOk, PendingOk, ScheduleOk, IndexOk, RecordsOk, FundsOk;
  }

  // ---------- The plan ----------

  predicate Unmoved(s: State, s': State) {
    s'.ops == s.ops && s'.nextId == s.nextId && s'.lastCron == s.lastCron
  }

  lemma {:induction false} SettleAllUnmoved(s: State, ids: seq<DealId>, now: Epoch)
    ensures Unmoved(s, SettleAll(s, ids, now))
  {
    hide Settle;
    if ids != [] {
      SettleAllUnmoved(s, ids[..|ids| - 1], now);
      SettleStill(SettleAll(s, ids[..|ids| - 1], now), ids[|ids| - 1], now);
    }
  }

  lemma {:induction false} TerminateAllUnmoved(s: State, ids: seq<DealId>, at: Epoch)
    ensures Unmoved(s, TerminateAll(s, ids, at))
  {
    hide Terminate;
    if ids != [] {
      TerminateAllUnmoved(s, ids[..|ids| - 1], at);
      TerminateStill(TerminateAll(s, ids[..|ids| - 1], at), ids[|ids| - 1], at);
    }
  }

  lemma {:induction false} VisitAllUnmoved(s: State, ids: seq<DealId>, now: Epoch)
    requires now >= 0
    ensures Unmoved(s, VisitAll(s, ids, now).0)
  {
    hide Visit, Fresh;
    if ids != [] {
      VisitAllUnmoved(s, ids[..|ids| - 1], now);
      VisitStill(VisitAll(s, ids[..|ids| - 1], now).0, ids[|ids| - 1], now);
    }
  }

  lemma {:induction false} ActivateAllUnmoved(s: State, miner: Address, sectors: seq<SectorDeals>, now: Epoch)
    ensures Unmoved(s, ActivateAll(s, miner, sectors, now))
  {
    hide SectorReady, IdSet;
    if sectors != [] {
      ActivateAllUnmoved(s, miner, sectors[..|sectors| - 1], now);
    }
  }

  lemma {:induction false} ChangeAllUnmoved(s: State, miner: Address, changes: seq<SectorChange>, now: Epoch)
    ensures Unmoved(s, ChangeAll(s, miner, changes, now))
  {
    hide Accepted;
    if changes != [] {
      ChangeAllUnmoved(s, miner, changes[..|changes| - 1], now);
    }
  }

  ghost predicate OnPlan(s: State, d: DealId) {
    exists e :: Planned(s.ops, e, d)
  }

  lemma {:induction false} PublishAllPlans(s: State, ps: seq<Proposal>, allocations: map<Proposal, AllocationId>,
                                           d: DealId)
    requires d < s.nextId && OnPlan(PublishAll(s, ps, allocations), d)
    ensures OnPlan(s, d)
  {
    hide Lock, Schedule, NextUpdateEpoch, Planned;
    if ps != [] {
      var pre, p := ps[..|ps| - 1], ps[|ps| - 1];
      var t := PublishAll(s, pre, allocations);
      PublishAllFields(s, pre, allocations);
      var e :| Planned(PublishAll(s, ps, allocations).ops, e, d);
      PlannedAfter(t.ops, NextUpdateEpoch(t.nextId, DEAL_UPDATES_INTERVAL, p.start), t.nextId, e, d);
      PublishAllPlans(s, pre, allocations, d);
    }
  }

  lemma TickPlans(s: State, order: seq<DealId>, now: Epoch, d: DealId)
    requires Enumerates(order, Due(s, now)) && now >= 0 && OnPlan(CronTick(s, order, now), d)
    ensures OnPlan(s, d)
  {
    hide Planned, Reschedule, VisitAll, VisitAgain;
    var again := VisitAll(s, order, now).1;
    VisitAllUnmoved(s, order, now);
    VisitAllIs(s, order, now, d);
    var e :| Planned(CronTick(s, order, now).ops, e, d);
    PlannedAgain(s.ops, now, again, e, d);
    if d in again {
      DueIsPlanned(s, now, d);
    }
  }

  lemma DueIsPlanned(s: State, now: Epoch, d: DealId)
    requires d in Due(s, now)
    ensures OnPlan(s, d)
  {
    var f :| f in s.ops && s.lastCron < f <= now && d in s.ops[f];
    assert Planned(s.ops, f, d);
  }

  /** A deal off the plan stays off it. */
  lemma ApplyPlans(s: State, e: Event, d: DealId)
    requires Enabled(s, e) && d < s.nextId
    ensures d < Apply(s, e).nextId
    ensures OnPlan(Apply(s, e), d) ==> OnPlan(s, d)
  {
    hide SubtractWithMinimum, Add, ActivateAll, ChangeAll, TerminateAll, SettleAll, VisitAll, PublishAll, Filter,
      AllLockable, KeysOf, Reschedule, Planned, Due;
    var t := Tick(s, e.now);
    TickFields(s, e.now);
    assert OnPlan(t, d) ==> OnPlan(s, d);
    match e.call
    case AddBalance(_, _) =>
    case WithdrawBalance(_, _) =>
    case PublishStorageDeals(provider, deals, balances, transferred, allocations) =>
      var ps := Filter(t, provider, e.now, balances, deals).valid;
      PublishAllFields(t, ps, allocations);
      if OnPlan(PublishAll(t, ps, allocations), d) {
        PublishAllPlans(t, ps, allocations, d);
      }
    case BatchActivateDeals(miner, sectors) => ActivateAllUnmoved(t, miner, sectors, e.now);
    case SectorContentChanged(miner, changes) => ChangeAllUnmoved(t, miner, changes, e.now);
    case OnMinerSectorsTerminate(_, _, at, order) => TerminateAllUnmoved(t, order, at);
    case SettleDealPayments(ids) => SettleAllUnmoved(t, ids, e.now);
    case EpochTick(order) =>
      VisitAllUnmoved(t, order, e.now);
      if OnPlan(CronTick(t, order, e.now), d) {
        TickPlans(t, order, e.now, d);
      }
  }

  // ---------- When deals are planned ----------

  /** A live deal is planned at its own place in the 30 days from its start, or from the last tick. */
  ghost predicate OnTime(s: State, e: Epoch, d: DealId) {
    && d < s.nextId
    && (d in s.proposals ==> e < Max(s.proposals[d].start, s.lastCron + 1) + 86_400 && (e - d) % 86_400 == 0)
  }

  ghost predicate AllOnTime(s: State) {
    forall e, d: DealId :: Planned(s.ops, e, d) ==> OnTime(s, e, d)
  }

  lemma PublishOnTime(s: State, p: Proposal, allocation: Option<AllocationId>)
    requires AllOnTime(s)
    ensures AllOnTime(Publish(s, p, allocation))
  {
    hide Lock, NextUpdateEpoch, Schedule, Planned;
    var s' := Publish(s, p, allocation);
    var f := NextUpdateEpoch(s.nextId, DEAL_UPDATES_INTERVAL, p.start);
    NextUpdateEpochIsFirst(s.nextId, DEAL_UPDATES_INTERVAL, p.start);
    forall e, d: DealId | Planned(s'.ops, e, d) ensures OnTime(s', e, d) {
      PlannedAfter(s.ops, f, s.nextId, e, d);
    }
  }

  lemma {:induction false} PublishAllOnTime(s: State, ps: seq<Proposal>, allocations: map<Proposal, AllocationId>)
    requires AllOnTime(s)
    ensures AllOnTime(PublishAll(s, ps, allocations))
  {
    hide Publish, AllOnTime;
    if ps != [] {
      var p := ps[|ps| - 1];
      PublishAllOnTime(s, ps[..|ps| - 1], allocations);
      PublishOnTime(PublishAll(s, ps[..|ps| - 1], allocations), p, AllocationFor(allocations, p));
    }
  }

  lemma TickOnTime(s: State, order: seq<DealId>, now: Epoch)
    requires AllOnTime(s) && Enumerates(order, Due(s, now)) && now >= 0 && s.lastCron < now
    ensures AllOnTime(CronTick(s, order, now))
  {
    hide Planned, Reschedule, VisitAll, NextUpdateEpoch, Due;
    var (t, again) := VisitAll(s, order, now);
    var s' := CronTick(s, order, now);
    VisitAllUnmoved(s, order, now);
    VisitAllNoneNew(s, order, now);
    forall e, d: DealId | Planned(s'.ops, e, d) ensures OnTime(s', e, d) {
      PlannedAgain(s.ops, now, again, e, d);
      NextUpdateEpochIsFirst(d, DEAL_UPDATES_INTERVAL, now + 1);
      if !Planned(s.ops, e, d) {
        VisitAllIs(s, order, now, d);
        DueIsPlanned(s, now, d);
        var f :| Planned(s.ops, f, d);
        assert OnTime(s, f, d);
      }
    }
  }

  lemma OthersOnTime(s: State, s': State)
    requires AllOnTime(s) && Unmoved(s, s') && NoneNew(s, s')
    ensures AllOnTime(s')
  {
    forall e, d: DealId | Planned(s'.ops, e, d) ensures OnTime(s', e, d) {
      assert OnTime(s, e, d);
    }
  }

  lemma ApplyOnTime(s: State, e: Event)
    requires AllOnTime(s) && Enabled(s, e)
    ensures AllOnTime(Apply(s, e))
  {
    hide SubtractWithMinimum, Add, ActivateAll, ChangeAll, TerminateAll, SettleAll, VisitAll, PublishAll, Filter,
      AllLockable, KeysOf, Reschedule, Planned, Due, AllOnTime, NoneNew;
    var t := Tick(s, e.now);
    TickFields(s, e.now);
    SameOnTime(s, t);
    if !e.call.PublishStorageDeals? {
      ApplyNoneNew(s, e);
    }
    match e.call
    case AddBalance(_, _) => OthersOnTime(s, Apply(s, e));
    case WithdrawBalance(_, _) => OthersOnTime(s, Apply(s, e));
    case PublishStorageDeals(provider, deals, balances, transferred, allocations) =>
      PublishAllOnTime(t, Filter(t, provider, e.now, balances, deals).valid, allocations);
    case BatchActivateDeals(miner, sectors) =>
      ActivateAllUnmoved(t, miner, sectors, e.now);
      OthersOnTime(s, Apply(s, e));
    case SectorContentChanged(miner, changes) =>
      ChangeAllUnmoved(t, miner, changes, e.now);
      OthersOnTime(s, Apply(s, e));
    case OnMinerSectorsTerminate(_, _, at, order) =>
      TerminateAllUnmoved(t, order, at);
      OthersOnTime(s, Apply(s, e));
    case SettleDealPayments(ids) =>
      SettleAllUnmoved(t, ids, e.now);
      OthersOnTime(s, Apply(s, e));
    case EpochTick(order) => TickOnTime(t, order, e.now);
  }

  lemma SameOnTime(s: State, s': State)
    requires AllOnTime(s) && Unmoved(s, s') && s'.proposals == s.proposals
    ensures AllOnTime(s')
  {
    OthersOnTime(s, s');
  }

  lemma {:induction false} RunOnTime(events: seq<Event>)
    requires Possible(events)
    ensures AllOnTime(Run(events))
  {
    hide Apply, Enabled;
    if events != [] {
      var pre := events[..|events| - 1];
      assert forall i :: 0 <= i < |pre| ==> pre[..i] == events[..i];
      RunOnTime(pre);
      ApplyOnTime(Run(pre), events[|events| - 1]);
    }
  }

  /** Over every run, a live deal that is planned is planned at the first epoch that is neither before its
      start nor by the last tick, and is its own place in the 30 days that ticks go round. */
  lemma PlannedIsNext(events: seq<Event>, e: Epoch, d: DealId)
    requires Possible(events) && Planned(Run(events).ops, e, d) && d in Run(events).proposals
    ensures var s := Run(events);
      var from := Max(s.proposals[d].start, s.lastCron + 1);
      from <= e < from + 86_400 && (e - d) % 86_400 == 0
  {
    hide Run, LockedOk, TotalsOk, PendingOk, IndexOk, RecordsOk, FundsOk, DealsOk;
    RunInv(events);
    RunOnTime(events);
    assert OnTime(Run(events), e, d);
  }

  // ---------- Runs ----------

  ghost predicate SettledAt(events: seq<Event>, j: nat, d: DealId) {
    j < |events| && Settles(Run(events[..j]), events[j], d)
  }

  ghost predicate VisitedAt(events: seq<Event>, v: nat, d: DealId) {
    v < |events| && events[v].call.EpochTick? && d in Due(Run(events[..v]), events[v].now)
  }

  lemma Shorter(events: seq<Event>, n: nat)
    requires Possible(events) && n <= |events|
    ensures Possible(events[..n])
    ensures forall i: nat :: i <= n ==> events[..n][..i] == events[..i]
    ensures n < |events| ==>
      Run(events[..n + 1]) == Apply(Run(events[..n]), events[n]) && Enabled(Run(events[..n]), events[n])
  {
    hide Apply, Enabled;
    assert forall i: nat :: i <= n ==> events[..n][..i] == events[..i];
    if n < |events| {
      assert events[..n + 1][..n] == events[..n];
    }
  }

  /** A deal that has been settled while active is not fresh, ever after. */
  lemma {:induction false} NotFreshOnceSettled(events: seq<Event>, n: nat, j: nat, d: DealId)
    requires Possible(events) && j < n <= |events| && SettledAt(events, j, d)
    ensures !Fresh(Run(events[..n]), d) && d < Run(events[..n]).nextId
  {
    hide Inv, Apply, Enabled, Possible, Run, Fresh;
    Shorter(events, n - 1);
    RunInv(events[..n - 1]);
    var s := Run(events[..n - 1]);
    if j == n - 1 {
      ActiveBelowNext(s, d);
    } else {
      NotFreshOnceSettled(events, n - 1, j, d);
    }
    ApplyUpdates(s, events[n - 1], d);
    ApplyPlans(s, events[n - 1], d);
  }

  lemma ActiveBelowNext(s: State, d: DealId)
    requires Inv(s) && d in s.states
    ensures d in s.proposals && d < s.nextId && (Fresh(s, d) <==> !Updated(s, d))
  {
    hide LockedOk, TotalsOk, PendingOk, ScheduleOk, IndexOk, RecordsOk, FundsOk;
  }

  lemma {:induction false} UpdatedWasSettled(events: seq<Event>, n: nat, d: DealId)
    requires Possible(events) && n <= |events| && Updated(Run(events[..n]), d)
    ensures exists j: nat :: j < n && SettledAt(events, j, d)
  {
    hide Inv, Apply, Enabled, Possible, Updated;
    if n == 0 {
      NoneUpdated(d);
    } else {
      Shorter(events, n - 1);
      RunInv(events[..n - 1]);
      ApplyUpdates(Run(events[..n - 1]), events[n - 1], d);
      if Updated(Run(events[..n - 1]), d) {
        UpdatedWasSettled(events, n - 1, d);
      } else {
        assert SettledAt(events, n - 1, d);
      }
    }
  }

  lemma NoneUpdated(d: DealId)
    ensures !Updated(INITIAL, d)
  {
  }

  /** Over every run, an active deal has been updated if and only if it was settled while active. */
  lemma UpdatedIffSettled(events: seq<Event>, n: nat, d: DealId)
    requires Possible(events) && n <= |events| && d in Run(events[..n]).states
    ensures Updated(Run(events[..n]), d) <==> exists j: nat :: j < n && SettledAt(events, j, d)
  {
    hide Inv, Run, Possible, Updated, Fresh, SettledAt;
    Shorter(events, n);
    RunInv(events[..n]);
    ActiveBelowNext(Run(events[..n]), d);
    if Updated(Run(events[..n]), d) {
      UpdatedWasSettled(events, n, d);
    }
    if j: nat :| j < n && SettledAt(events, j, d) {
      NotFreshOnceSettled(events, n, j, d);
    }
  }

  /** Over every run, a deal that a tick has visited is on the plan again after it if and only if it is
      active with its term not over, and was settled before that visit while active. */
  lemma VisitedAgainIff(events: seq<Event>, v: nat, d: DealId)
    requires Possible(events) && VisitedAt(events, v, d)
    ensures var s, now := Run(events[..v]), events[v].now;
      OnPlan(Run(events[..v + 1]), d) <==>
        && d in s.states && d in s.proposals && now < s.proposals[d].end
        && exists j: nat :: j < v && SettledAt(events, j, d)
  {
    hide Inv, Run, Possible, Updated, Apply, SettledAt, Planned, Due, Enabled, VisitAgain;
    var s, now := Run(events[..v]), events[v].now;
    Shorter(events, v);
    RunInv(events[..v]);
    forall e { PlannedAgainIff(s, now, events[v].call.order, d, e); }
    assert events[v] == Event(now, EpochTick(events[v].call.order));
    UpdatedIsActive(s, d);
    assert OnPlan(Run(events[..v + 1]), d) <==> Updated(s, d) && now < s.proposals[d].end by {
      if Updated(s, d) && now < s.proposals[d].end {
        assert Planned(Run(events[..v + 1]).ops, VisitAgain(d, now), d);
      }
    }
    if d in s.states {
      UpdatedIffSettled(events, v, d);
    }
  }

  lemma {:induction false} PlannedBefore(events: seq<Event>, m: nat, n: nat, d: DealId)
    requires Possible(events) && m <= n <= |events| && d < Run(events[..m]).nextId && OnPlan(Run(events[..n]), d)
    ensures OnPlan(Run(events[..m]), d) && d < Run(events[..n]).nextId
    decreases n
  {
    hide Inv, Run, Possible, Apply, Enabled, OnPlan;
    if m < n {
      Shorter(events, n - 1);
      IdsStay(events, m, n - 1, d);
      ApplyPlans(Run(events[..n - 1]), events[n - 1], d);
      PlannedBefore(events, m, n - 1, d);
    }
  }

  lemma {:induction false} IdsStay(events: seq<Event>, m: nat, n: nat, d: DealId)
    requires Possible(events) && m <= n <= |events| && d < Run(events[..m]).nextId
    ensures d < Run(events[..n]).nextId
    decreases n
  {
    hide Inv, Run, Possible, Apply, Enabled, OnPlan;
    if m < n {
      Shorter(events, n - 1);
      IdsStay(events, m, n - 1, d);
      ApplyPlans(Run(events[..n - 1]), events[n - 1], d);
    }
  }

  /** A deal is on the plan at any time after a visit only if it was settled before that visit, while active. */
  lemma PlannedAfterVisit(events: seq<Event>, v: nat, n: nat, d: DealId)
    requires Possible(events) && VisitedAt(events, v, d) && v < n <= |events| && OnPlan(Run(events[..n]), d)
    ensures exists j: nat :: j < v && SettledAt(events, j, d)
  {
    hide Inv, Run, Possible, Apply, Enabled, OnPlan, SettledAt, Due;
    Shorter(events, v);
    RunInv(events[..v]);
    DueBelowNext(Run(events[..v]), events[v].now, d);
    IdsStay(events, v, v + 1, d);
    PlannedBefore(events, v + 1, n, d);
    VisitedAgainIff(events, v, d);
  }

  lemma DueBelowNext(s: State, now: Epoch, d: DealId)
    requires Inv(s) && d in Due(s, now)
    ensures d < s.nextId
  {
    hide DealsOk, LockedOk, TotalsOk, PendingOk, IndexOk, RecordsOk, FundsOk;
    var f :| f in s.ops && s.lastCron < f <= now && d in s.ops[f];
    assert Planned(s.ops, f, d);
  }
}
