/** The effect of each reference step, field by field, as the actor's calls have to bring it about. */
module MarketEffects {
  import opened Arithmetic
  import opened BalanceTable
  import opened Deals
  import opened FiniteSums
  import opened MarketActivation
  import opened MarketInvariant
  import opened MarketPublication
  import opened MarketState
  import opened MarketSteps
  import opened Wrappers

  function KeyOf(s: State, d: DealId): SectorKey
    requires d in s.proposals && d in s.states
  {
    (s.proposals[d].provider, s.states[d].sector)
  }

  lemma UpdateFields(s: State, d: DealId, now: Epoch)
    requires d in s.proposals && d in s.states && d !in s.allocations
    ensures var s' := Update(s, d, now);
      var p := s.proposals[d];
      && s'.ledger == Advance(s.ledger, p, PaidUntil(s, d), now)
      && s'.pending == SettlePending(s, d)
      && s'.allocations == s.allocations
      && s'.nextId == s.nextId && s'.ops == s.ops && s'.lastCron == s.lastCron
      && (now >= p.end ==>
            && s'.proposals == s.proposals - {d} && s'.states == s.states - {d}
            && s'.sectorDeals == RemoveDeals(s.sectorDeals, map[KeyOf(s, d) := {d}]))
      && (now < p.end ==>
            && s'.proposals == s.proposals && s'.sectorDeals == s.sectorDeals
            && s'.states == s.states[d := s.states[d].(lastUpdated := now)])
  {
    hide Advance, SettlePending, RemoveDeals, PaidUntil, DueAt;
  }

  /** The state once the payments of an update are made and nothing else is written. */
  ghost function PaidUp(s: State, d: DealId, now: Epoch): State
    requires d in s.proposals
  {
    s.(ledger := Advance(s.ledger, s.proposals[d], PaidUntil(s, d), now), pending := SettlePending(s, d))
  }

  /** What an update writes after the payments. */
  lemma UpdateWrites(s: State, d: DealId, now: Epoch, horizon: Epoch, todo: set<DealId>)
    requires InvDuring(s, horizon, todo) && d in s.proposals && d in s.states
    ensures var s', t := Update(s, d, now), PaidUp(s, d, now);
      && t.proposals == s.proposals && t.states == s.states
      && (now >= s.proposals[d].end ==>
            s' == t.(proposals := t.proposals - {d}, states := t.states - {d}, history := s'.history,
                     sectorDeals := RemoveDeals(t.sectorDeals, map[KeyOf(s, d) := {d}])))
      && (now < s.proposals[d].end ==>
            s' == t.(states := t.states[d := s.states[d].(lastUpdated := now)], history := s'.history))
  {
    hide LockedOk, TotalsOk, PendingOk, ScheduleOk, IndexOk, RecordsOk, FundsOk, Update, RemoveDeals, Advance,
      SettlePending;
    UpdateFields(s, d, now);
  }

  lemma TimeOutFields(s: State, d: DealId)
    requires d in s.proposals && d !in s.states
    ensures var s' := TimeOut(s, d);
      var p := s.proposals[d];
      && s'.ledger == MissActivation(s.ledger, p)
      && s'.pending == s.pending - {p}
      && s'.allocations == s.allocations - {d}
      && s'.nextId == s.nextId && s'.ops == s.ops && s'.lastCron == s.lastCron
      && s'.proposals == s.proposals - {d} && s'.states == s.states && s'.sectorDeals == s.sectorDeals
  {
    hide MissActivation, Proposal.Fee;
    assert s.states - {d} == s.states;
  }

  lemma TerminateFields(s: State, d: DealId, at: Epoch)
    requires d in s.proposals && d in s.states && d !in s.allocations && at < s.proposals[d].end
    ensures var s' := Terminate(s, d, at);
      var p := s.proposals[d];
      && s'.ledger == Forfeit(Pay(s.ledger, p, p.Fee(PaidUntil(s, d), Max(at, PaidUntil(s, d)))), p,
                              p.Fee(Max(at, p.start), p.end))
      && s'.pending == SettlePending(s, d)
      && s'.allocations == s.allocations
      && s'.nextId == s.nextId && s'.ops == s.ops && s'.lastCron == s.lastCron
      && s'.proposals == s.proposals - {d} && s'.states == s.states - {d}
      && s'.sectorDeals == RemoveDeals(s.sectorDeals, map[KeyOf(s, d) := {d}])
  {
    hide Forfeit, Pay, SettlePending, RemoveDeals, PaidUntil;
  }

  lemma TerminateEnded(s: State, d: DealId, at: Epoch)
    ensures d in s.proposals && s.proposals[d].end <= at ==> Terminate(s, d, at) == s
  {
  }

  /** Removing deals one at a time or all at the end comes to the same. */
  lemma RemoveLater(index: map<SectorKey, set<DealId>>, gone: map<SectorKey, set<DealId>>, k: SectorKey, d: DealId)
    ensures RemoveDeals(RemoveDeals(index, gone), map[k := {d}]) == RemoveDeals(index, gone[k := Entry(gone, k) + {d}])
  {
    var once := RemoveDeals(index, gone);
    var lhs := RemoveDeals(once, map[k := {d}]);
    var rhs := RemoveDeals(index, gone[k := Entry(gone, k) + {d}]);
    if k in index && k in gone {
      assert index[k] - (gone[k] + {d}) == (index[k] - gone[k]) - {d};
    }
    assert lhs.Keys == rhs.Keys;
    forall j | j in lhs ensures lhs[j] == rhs[j] {
      assert j in once;
    }
  }

  /** Taking one more of the keys to be removed. */
  lemma RemoveAlso(index: map<SectorKey, set<DealId>>, gone: map<SectorKey, set<DealId>>, keys: set<SectorKey>,
                   k: SectorKey)
    requires keys <= gone.Keys && k in keys
    ensures var before := RemoveDeals(index, gone - keys);
      RemoveDeals(index, gone - (keys - {k})) ==
        if k !in before then before
        else if before[k] - gone[k] == {} then before - {k}
        else before[k := before[k] - gone[k]]
  {
  }

  /** An update that does not end the deal leaves it published. */
  lemma UpdateGoesOn(s: State, d: DealId, now: Epoch, horizon: Epoch, todo: set<DealId>)
    requires InvDuring(s, horizon, todo) && d in s.proposals && d in s.states
    ensures d in Update(s, d, now).proposals <==> now < s.proposals[d].end
  {
    hide LockedOk, TotalsOk, PendingOk, ScheduleOk, IndexOk, RecordsOk, FundsOk, Update;
    UpdateFields(s, d, now);
  }

  lemma RemoveNothing(index: map<SectorKey, set<DealId>>)
    ensures RemoveDeals(index, map[]) == index
  {
  }

  /** States to be written later are in effect merged over those stored. */
  lemma MergeLater(states: map<DealId, DealState>, updates: map<DealId, DealState>, d: DealId, st: DealState)
    requires d !in updates
    ensures (states - {d}) + updates == (states + updates) - {d}
    ensures states + updates[d := st] == (states + updates)[d := st]
    ensures d in states + updates <==> d in states
    ensures d in states ==> (states + updates)[d] == states[d]
  {
  }

  /** Settling a deal leaves every other deal's proposal and state alone. */
  lemma SettleOthers(s: State, d: DealId, c: DealId, now: Epoch)
    requires c != d
    ensures var s' := Settle(s, d, now);
      && (c in s'.proposals <==> c in s.proposals) && (c in s.proposals ==> s'.proposals[c] == s.proposals[c])
      && (c in s'.states <==> c in s.states) && (c in s.states ==> s'.states[c] == s.states[c])
  {
    hide Advance, SettlePending, RemoveDeals, PaidUntil, DueAt, MissActivation, Proposal.Fee;
  }

  // ---------- What leaves escrow ----------

  lemma EscrowTotal(s: State, horizon: Epoch, todo: set<DealId>)
    requires InvDuring(s, horizon, todo)
    ensures Sum(s.ledger.escrow) == s.history.deposited - s.history.withdrawn - Sum(Burns(s))
  {
    hide Sum, DealsOk, LockedOk, TotalsOk, PendingOk, ScheduleOk, IndexOk, RecordsOk;
  }

  /** Settling burns the provider's collateral of a deal that timed out, and nothing else. */
  lemma SettleBurns(s: State, d: DealId, now: Epoch, horizon: Epoch, todo: set<DealId>)
    requires InvDuring(s, horizon, todo) && s.history.clock == now
    ensures Sum(s.ledger.escrow) - Sum(Settle(s, d, now).ledger.escrow) ==
      if d in s.proposals && d !in s.states && now >= s.proposals[d].start then s.proposals[d].providerCollateral else 0
  {
    hide Sum, InvDuring, Settle, Burns;
    SettleKeeps(s, d, now, horizon, todo);
    EscrowTotal(s, horizon, todo);
    EscrowTotal(Settle(s, d, now), horizon, todo);
    SettleRecord(s, d, now, horizon, todo);
  }

  lemma SettleRecord(s: State, d: DealId, now: Epoch, horizon: Epoch, todo: set<DealId>)
    requires InvDuring(s, horizon, todo) && s.history.clock == now
    ensures var s' := Settle(s, d, now);
      && s'.history.deposited == s.history.deposited && s'.history.withdrawn == s.history.withdrawn
      && Sum(Burns(s')) == Sum(Burns(s)) +
           if d in s.proposals && d !in s.states && now >= s.proposals[d].start
           then s.proposals[d].providerCollateral else 0
  {
    hide Sum, InvDuring, Burns, Settle;
    SettleHistory(s, d, now);
    if d in s.proposals {
      LiveRecord(s, d, horizon, todo);
      BurnsOne(s, Settle(s, d, now), d);
    }
  }

  lemma LiveRecord(s: State, d: DealId, horizon: Epoch, todo: set<DealId>)
    requires InvDuring(s, horizon, todo) && d in s.proposals
    ensures d in s.history.records && s.history.records[d].burnt == 0
  {
    hide LockedOk, TotalsOk, PendingOk, ScheduleOk, IndexOk, FundsOk, Proposal.Fee;
  }

  lemma BurnsOne(s: State, s': State, d: DealId)
    requires d in s.history.records && d in s'.history.records && s.history.records[d].burnt == 0
    requires s'.history.records == s.history.records[d := s'.history.records[d]]
    ensures Sum(Burns(s')) == Sum(Burns(s)) + s'.history.records[d].burnt
  {
    hide Sum;
    assert Burns(s') == Burns(s)[d := s'.history.records[d].burnt];
    SumSet(Burns(s), d, s'.history.records[d].burnt);
  }

  lemma SettleHistory(s: State, d: DealId, now: Epoch)
    ensures var s' := Settle(s, d, now);
      && s'.history.deposited == s.history.deposited && s'.history.withdrawn == s.history.withdrawn
      && (d !in s.proposals ==> s' == s)
      && (d in s.proposals && d in s.history.records && s.history.records[d].burnt == 0 ==>
            && d in s'.history.records
            && s'.history.records == s.history.records[d := s'.history.records[d]]
            && s'.history.records[d].burnt ==
                 if d !in s.states && now >= s.proposals[d].start then s.proposals[d].providerCollateral else 0)
  {
    hide Advance, MissActivation, SettlePending, RemoveDeals, PaidUntil, DueAt, Proposal.Fee;
  }

  /** A visit burns as settling does: only the collateral of a deal that missed its start. */
  lemma VisitBurns(s: State, d: DealId, now: Epoch, todo: set<DealId>)
    requires InvDuring(s, now, todo) && s.history.clock == now && d in todo
    ensures Sum(s.ledger.escrow) - Sum(Visit(s, d, now).0.ledger.escrow) ==
      if d in s.proposals && d !in s.states then s.proposals[d].providerCollateral else 0
  {
    hide Sum, InvDuring, Update, TimeOut, Burns;
    SettleBurns(s, d, now, now, todo);
    if d in s.proposals {
      DueHasStarted(s, d, now, todo);
    }
  }

  /** A deal due for a visit has started, and if it was never updated it is pending. */
  lemma DueHasStarted(s: State, d: DealId, now: Epoch, todo: set<DealId>)
    requires InvDuring(s, now, todo) && d in todo && d in s.proposals
    ensures s.proposals[d].start <= now
    ensures NeverUpdated(s, d) ==> s.proposals[d] in s.pending
  {
    hide DealsOk, LockedOk, TotalsOk, IndexOk, RecordsOk, FundsOk;
    assert Scheduled(s.ops, now, todo, d);
  }

  // ---------- The schedule ----------

  /** The deals to be visited again, by the epoch of their next visit. */
  function Grouped(again: set<DealId>, now: Epoch): map<Epoch, set<DealId>> {
    var epochs := set d | d in again :: VisitAgain(d, now);
    map e | e in epochs :: set d | d in again && VisitAgain(d, now) == e
  }

  lemma GroupedMore(again: set<DealId>, now: Epoch, d: DealId)
    ensures Schedule(Grouped(again, now), VisitAgain(d, now), d) == Grouped(again + {d}, now)
  {
    hide VisitAgain;
    var e := VisitAgain(d, now);
    var lhs, rhs := Schedule(Grouped(again, now), e, d), Grouped(again + {d}, now);
    assert lhs.Keys == rhs.Keys;
    forall f | f in lhs ensures lhs[f] == rhs[f] {
    }
  }

  function Without(ops: map<Epoch, set<DealId>>, last: Epoch, now: Epoch): map<Epoch, set<DealId>> {
    map e | e in ops && !(last < e <= now) :: ops[e]
  }

  function Merged(ops: map<Epoch, set<DealId>>, more: map<Epoch, set<DealId>>): map<Epoch, set<DealId>> {
    map e | e in ops.Keys + more.Keys :: (if e in ops then ops[e] else {}) + (if e in more then more[e] else {})
  }

  lemma MergedIsReschedule(ops: map<Epoch, set<DealId>>, last: Epoch, now: Epoch, again: set<DealId>)
    requires forall e :: e in ops ==> e > last
    ensures Merged(Without(ops, last, now), Grouped(again, now)) == Reschedule(ops, now, again)
  {
    hide NextUpdateEpoch;
    forall d | d in again ensures VisitAgain(d, now) > now {
      NextUpdateEpochIsFirst(d, DEAL_UPDATES_INTERVAL, now + 1);
    }
    var lhs, rhs := Merged(Without(ops, last, now), Grouped(again, now)), Reschedule(ops, now, again);
    assert lhs.Keys == rhs.Keys;
    forall e | e in lhs ensures lhs[e] == rhs[e] {
    }
  }

  lemma PlannedOnce(s: State, e: Epoch, f: Epoch, d: DealId)
    requires Inv(s) && Planned(s.ops, e, d) && Planned(s.ops, f, d)
    ensures e == f
  {
    hide DealsOk, LockedOk, TotalsOk, IndexOk, RecordsOk, FundsOk, PendingOk;
  }

  // ---------- Termination ----------

  /** Entries that are to be forgotten need not be thinned out first. */
  lemma RemoveFromForgotten(index: map<SectorKey, set<DealId>>, keys: set<SectorKey>, k: SectorKey, d: DealId)
    requires k in keys
    ensures RemoveDeals(index, map[k := {d}]) - keys == index - keys
  {
  }

  lemma TerminateBurns(s: State, d: DealId, at: Epoch, horizon: Epoch, todo: set<DealId>)
    requires InvDuring(s, horizon, todo) && Terminable(s, d, at)
    requires d in s.proposals && d in s.states && at < s.proposals[d].end
    ensures Sum(s.ledger.escrow) - Sum(Terminate(s, d, at).ledger.escrow) == s.proposals[d].providerCollateral
  {
    hide Sum, InvDuring, Terminate, Burns;
    TerminateKeeps(s, d, at, horizon, todo);
    EscrowTotal(s, horizon, todo);
    EscrowTotal(Terminate(s, d, at), horizon, todo);
    TerminateRecord(s, d, at, horizon, todo);
  }

  lemma TerminateRecord(s: State, d: DealId, at: Epoch, horizon: Epoch, todo: set<DealId>)
    requires InvDuring(s, horizon, todo) && d in s.proposals && d in s.states && at < s.proposals[d].end
    ensures var s' := Terminate(s, d, at);
      && s'.history.deposited == s.history.deposited && s'.history.withdrawn == s.history.withdrawn
      && Sum(Burns(s')) == Sum(Burns(s)) + s.proposals[d].providerCollateral
  {
    hide Sum, InvDuring, Burns, Forfeit, Pay, SettlePending, RemoveDeals, PaidUntil, Proposal.Fee;
    LiveRecord(s, d, horizon, todo);
    BurnsOne(s, Terminate(s, d, at), d);
  }

  // ---------- Publication ----------

  /** What publishing one more deal adds to the writes to be made at the end. */
  lemma PublishFields(s: State, p: Proposal, allocation: Option<AllocationId>)
    ensures var s' := Publish(s, p, allocation);
      && s'.proposals == s.proposals[s.nextId := p] && s'.states == s.states
      && s'.pending == s.pending + {p} && s'.ledger == Lock(s.ledger, p) && s'.nextId == s.nextId + 1
      && s'.ops == Schedule(s.ops, NextUpdateEpoch(s.nextId, DEAL_UPDATES_INTERVAL, p.start), s.nextId)
      && s'.lastCron == s.lastCron && s'.sectorDeals == s.sectorDeals
      && s'.allocations == if allocation.Some? then s.allocations[s.nextId := allocation.value] else s.allocations
  {
  }

  lemma PublishNext(s: State, ps: seq<Proposal>, i: nat, allocations: map<Proposal, AllocationId>)
    requires i < |ps|
    ensures PublishAll(s, ps[..i + 1], allocations) ==
      Publish(PublishAll(s, ps[..i], allocations), ps[i], AllocationFor(allocations, ps[i]))
  {
    hide Publish;
    assert ps[..i + 1][..i] == ps[..i];
  }

  // ---------- Activation ----------

  /** Writing a list of sectors into a miner's index, one after another. */
  function IndexAll(index: map<SectorKey, set<DealId>>, miner: Address, list: seq<(SectorNumber, set<DealId>)>)
    : map<SectorKey, set<DealId>>
  {
    if list == [] then index else
      var (n, ids) := list[|list| - 1];
      var before := IndexAll(index, miner, list[..|list| - 1]);
      before[(miner, n) := Entry(before, (miner, n)) + ids]
  }

  lemma IndexMore(index: map<SectorKey, set<DealId>>, miner: Address, list: seq<(SectorNumber, set<DealId>)>,
                  n: SectorNumber, ids: set<DealId>)
    ensures var before := IndexAll(index, miner, list);
      IndexAll(index, miner, list + [(n, ids)]) == before[(miner, n) := Entry(before, (miner, n)) + ids]
  {
    hide Entry;
    assert (list + [(n, ids)])[..|list + [(n, ids)]| - 1] == list;
  }

  /** The fields, with the new states and index entries still to be written, are those of `spec`. */
  ghost predicate Activating(s: State, spec: State, miner: Address, begun: map<DealId, DealState>,
                             allocations: map<DealId, AllocationId>, list: seq<(SectorNumber, set<DealId>)>) {
    && spec.proposals == s.proposals && spec.pending == s.pending
    && spec.states == s.states + begun
    && spec.allocations == allocations
    && spec.sectorDeals == IndexAll(s.sectorDeals, miner, list)
    && spec == s.(states := spec.states, allocations := spec.allocations, sectorDeals := spec.sectorDeals)
  }

  lemma ActivatingMore(s: State, spec: State, miner: Address, begun: map<DealId, DealState>,
                       allocations: map<DealId, AllocationId>, list: seq<(SectorNumber, set<DealId>)>,
                       n: SectorNumber, ids: set<DealId>, now: Epoch)
    requires Activating(s, spec, miner, begun, allocations, list)
    ensures Activating(s, Activate(spec, (miner, n), ids, now), miner,
      begun + (map d | d in ids :: DealState(n, now, EPOCH_UNDEFINED, EPOCH_UNDEFINED)), allocations - ids,
      list + [(n, ids)])
  {
    hide IndexAll, Entry;
    IndexMore(s.sectorDeals, miner, list, n, ids);
  }

  lemma ActivateNext(s: State, miner: Address, sectors: seq<SectorDeals>, i: nat, now: Epoch)
    requires i < |sectors|
    ensures ActivateAll(s, miner, sectors[..i + 1], now) ==
      ActivateSector(ActivateAll(s, miner, sectors[..i], now), miner, sectors[i], now)
    ensures ActivateAll(s, miner, [], now) == s
  {
    hide ActivateSector;
    assert sectors[..i + 1][..i] == sectors[..i];
  }

  lemma ChangeNext(s: State, miner: Address, changes: seq<SectorChange>, i: nat, now: Epoch)
    requires i < |changes|
    ensures ChangeAll(s, miner, changes[..i + 1], now) ==
      ChangeSector(ChangeAll(s, miner, changes[..i], now), miner, changes[i], now)
    ensures ChangeAll(s, miner, [], now) == s
  {
    hide ChangeSector;
    assert changes[..i + 1][..i] == changes[..i];
  }
}
