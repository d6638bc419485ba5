/** The storage market actor, in the form it is written: fields updated in place, calls that work
    through batches with snapshots and deferred writes, and errors reported at every step.

    Every call is proved to have the effect of the reference semantics, and the calls that
    must not fail are proved not to. */
module MarketActor {
  import opened Arithmetic
  import opened BalanceTable
  import opened Deals
  import opened FiniteSums
  import opened MarketActivation
  import opened MarketCalls
  import opened MarketEffects
  import opened MarketInvariant
  import opened MarketLedger
  import opened MarketPlacement
  import opened MarketPublication
  import opened MarketRuns
  import opened MarketSchedule
  import opened MarketState
  import opened MarketSteps
  import opened Wrappers

  datatype LoadDealState = TooEarly | ProposalExpired(slashed: int) | Loaded(state: DealState) | LoadFailed

  /** A slashed deal is to be removed without being complete. */
  datatype UpdateResult = UpdateFailed | Updated(payment: int, completed: bool) | Slashed(amount: int, payment: int)

  datatype Settlement = Settlement(completed: bool, payment: int)

  /** What settling a deal reports: none for a deal that is gone or missed its start. */
  ghost function SettlementOf(s: State, d: DealId, now: Epoch): Option<Settlement> {
    if d !in s.proposals then None
    else if d in s.states then Some(Settlement(now >= s.proposals[d].end, DueAt(s.proposals[d], PaidUntil(s, d), now)))
    else if now < s.proposals[d].start then Some(Settlement(false, 0))
    else None
  }

  /** What is reported as paid takes the deal from what it was paid for to now, within its term, and is what
      its record grows by. */
  lemma SettlementMeans(s: State, d: DealId, now: Epoch)
    requires Inv(s) && s.history.clock <= now && d in s.proposals && d in s.states
    ensures var p, r := s.proposals[d], SettlementOf(s, d, now);
      && r.Some? && (r.value.completed <==> p.end <= now)
      && r.value.payment == p.price * (Max(p.start, Min(p.end, now)) - Max(p.start, s.states[d].lastUpdated))
      && d in s.history.records && d in Settle(s, d, now).history.records
      && Settle(s, d, now).history.records[d].paid == s.history.records[d].paid + r.value.payment
  {
    hide LockedOk, TotalsOk, PendingOk, ScheduleOk, IndexOk, FundsOk, RecordOk, RemoveDeals, SettlePending, Advance;
  }

  lemma SettlementKept(s: State, d: DealId, c: DealId, now: Epoch)
    requires c != d
    ensures SettlementOf(Settle(s, d, now), c, now) == SettlementOf(s, c, now)
  {
    hide Settle, DueAt;
    SettleOthers(s, d, c, now);
  }

  lemma SettlementTick(s: State, d: DealId, now: Epoch)
    ensures SettlementOf(Tick(s, now), d, now) == SettlementOf(s, d, now)
  {
  }

  class Market {
    var proposals: map<DealId, Proposal>
    var states: map<DealId, DealState>
    var pendingProposals: set<Proposal>
    var escrowTable: Table
    var lockedTable: Table
    var nextId: DealId
    var dealOpsByEpoch: map<Epoch, set<DealId>>
    var lastCron: Epoch
    var totalClientLockedCollateral: int
    var totalProviderLockedCollateral: int
    var totalClientStorageFee: int
    var pendingDealAllocationIds: map<DealId, AllocationId>
    var sectorDeals: map<SectorKey, set<DealId>>
    ghost var history: History

    ghost function Funds(): Ledger
      reads `escrowTable, `lockedTable, `totalClientLockedCollateral, `totalProviderLockedCollateral,
        `totalClientStorageFee
    {
      Ledger(escrowTable, lockedTable, totalClientLockedCollateral, totalProviderLockedCollateral,
             totalClientStorageFee)
    }

    ghost function View(): State
      reads this
    {
      State(proposals, states, pendingProposals, Funds(), nextId, dealOpsByEpoch, lastCron,
            pendingDealAllocationIds, sectorDeals, history)
    }

    constructor ()
      ensures View() == INITIAL
    {
      proposals, states, pendingProposals := map[], map[], {};
      escrowTable, lockedTable := map[], map[];
      nextId, dealOpsByEpoch, lastCron := 0, map[], EPOCH_UNDEFINED;
      totalClientLockedCollateral, totalProviderLockedCollateral, totalClientStorageFee := 0, 0, 0;
      pendingDealAllocationIds, sectorDeals := map[], map[];
      history := History(EPOCH_UNDEFINED, map[], 0, 0, map[]);
    }

    // ---------- Ledger ----------

    method UnlockBalance(addr: Address, amount: int, reason: Reason) returns (ok: bool)
      modifies `lockedTable, `totalClientLockedCollateral, `totalProviderLockedCollateral, `totalClientStorageFee
      ensures ok <==> 0 <= amount <= Get(old(lockedTable), addr)
      ensures Funds() == if ok then Unlock(old(Funds()), addr, amount, reason) else old(Funds())
    {
      if amount < 0 { return false; }
      var locked := MustSubtract(lockedTable, addr, amount);
      if locked.None? { return false; }
      match reason {
        case ClientCollateral => totalClientLockedCollateral := totalClientLockedCollateral - amount;
        case ClientStorageFee => totalClientStorageFee := totalClientStorageFee - amount;
        case ProviderCollateral => totalProviderLockedCollateral := totalProviderLockedCollateral - amount;
      }
      lockedTable := locked.value;
      return true;
    }

    /** Moves funds from locked in one account to available in another; a failure changes nothing. */
    method TransferBalance(from: Address, to: Address, amount: int) returns (ok: bool)
      requires Get(escrowTable, to) >= 0
      modifies `escrowTable, `lockedTable, `totalClientLockedCollateral, `totalProviderLockedCollateral,
        `totalClientStorageFee
      ensures ok <==> 0 <= amount <= Get(old(escrowTable), from) && amount <= Get(old(lockedTable), from)
      ensures Funds() == if ok then Transfer(old(Funds()), from, to, amount) else old(Funds())
    {
      if amount < 0 { return false; }
      var escrow := MustSubtract(escrowTable, from, amount);
      if escrow.None? { return false; }
      var unlocked := UnlockBalance(from, amount, ClientStorageFee);
      if !unlocked { return false; }
      escrowTable := Add(escrow.value, to, amount);
      return true;
    }

    /** The escrow table is saved before the lock is released: a failed release leaves it reduced. */
    method SlashBalance(addr: Address, amount: int, reason: Reason) returns (ok: bool)
      modifies `escrowTable, `lockedTable, `totalClientLockedCollateral, `totalProviderLockedCollateral,
        `totalClientStorageFee
      ensures ok <==> 0 <= amount <= Get(old(escrowTable), addr) && amount <= Get(old(lockedTable), addr)
      ensures ok ==> Funds() == Slash(old(Funds()), addr, amount, reason)
      ensures !ok ==> Funds() == if 0 <= amount <= Get(old(escrowTable), addr)
                                 then old(Funds()).(escrow := Add(old(escrowTable), addr, -amount)) else old(Funds())
    {
      if amount < 0 { return false; }
      var escrow := MustSubtract(escrowTable, addr, amount);
      if escrow.None? { return false; }
      escrowTable := escrow.value;
      ok := UnlockBalance(addr, amount, reason);
    }

    method MaybeLockBalance(addr: Address, amount: int) returns (ok: bool)
      requires Get(lockedTable, addr) >= 0
      modifies `lockedTable
      ensures ok <==> 0 <= amount && Covered(old(Funds()), addr, amount)
      ensures lockedTable == if ok then Add(old(lockedTable), addr, amount) else old(lockedTable)
    {
      if amount < 0 { return false; }
      if Get(lockedTable, addr) + amount > Get(escrowTable, addr) { return false; }
      lockedTable := Add(lockedTable, addr, amount);
      return true;
    }

    method LockClientAndProviderBalances(p: Proposal) returns (ok: bool)
      requires Get(lockedTable, p.client) >= 0 && Get(lockedTable, p.provider) >= 0
      modifies `lockedTable, `totalClientLockedCollateral, `totalProviderLockedCollateral, `totalClientStorageFee
      ensures ok <==> Lockable(old(Funds()), p)
      ensures ok ==> Funds() == Lock(old(Funds()), p)
    {
      ok := MaybeLockBalance(p.client, p.ClientRequirement());
      if !ok { return false; }
      AddEffect(old(lockedTable), p.client, p.ClientRequirement());
      ok := MaybeLockBalance(p.provider, p.providerCollateral);
      if !ok { return false; }
      totalClientLockedCollateral := totalClientLockedCollateral + p.clientCollateral;
      totalClientStorageFee := totalClientStorageFee + p.TotalFee();
      totalProviderLockedCollateral := totalProviderLockedCollateral + p.providerCollateral;
    }

    // ---------- Ending and updating deals ----------

    /** The client gets back `fee` and its collateral, and the provider's collateral is burnt. */
    method ForfeitDeal(p: Proposal, fee: int) returns (ok: bool)
      requires p.Sound() && fee >= 0
      modifies `escrowTable, `lockedTable, `totalClientLockedCollateral, `totalProviderLockedCollateral,
        `totalClientStorageFee
      ensures Covers(old(Funds()), p, fee) ==> ok && Funds() == Forfeit(old(Funds()), p, fee)
    {
      ghost var l0 := Funds();
      ok := UnlockBalance(p.client, fee, ClientStorageFee);
      if !ok { return false; }
      ok := UnlockBalance(p.client, p.clientCollateral, ClientCollateral);
      if !ok {
        ForfeitNeeds(l0, p, fee);
        return false;
      }
      ok := SlashBalance(p.provider, p.providerCollateral, ProviderCollateral);
      ForfeitNeeds(l0, p, fee);
    }

    method ProcessDealInitTimedOut(p: Proposal) returns (ok: bool, slashed: int)
      requires p.Sound()
      modifies `escrowTable, `lockedTable, `totalClientLockedCollateral, `totalProviderLockedCollateral,
        `totalClientStorageFee
      ensures Covers(old(Funds()), p, p.TotalFee()) ==>
        ok && Funds() == MissActivation(old(Funds()), p) && slashed == p.providerCollateral
    {
      hide Proposal.Fee, Forfeit, Moves;
      slashed := p.providerCollateral;
      FeeSplits(p, p.start, p.end, p.end);
      ok := ForfeitDeal(p, p.TotalFee());
      if !ok { return; }
      ok := UnlockBalance(p.provider, p.providerCollateral - slashed, ProviderCollateral);
      MissActivationNeeds(old(Funds()), p);
    }

    method PayDeal(p: Proposal, amount: int) returns (ok: bool)
      requires Get(escrowTable, p.provider) >= 0
      modifies `escrowTable, `lockedTable, `totalClientLockedCollateral, `totalProviderLockedCollateral,
        `totalClientStorageFee
      ensures ok <==>
        amount <= 0 || (amount <= Get(old(escrowTable), p.client) && amount <= Get(old(lockedTable), p.client))
      ensures Funds() == if ok then Pay(old(Funds()), p, amount) else old(Funds())
    {
      ok := true;
      if amount > 0 {
        ok := TransferBalance(p.client, p.provider, amount);
      }
    }

    method ProcessDealExpired(p: Proposal, state: DealState) returns (ok: bool)
      requires p.Sound()
      modifies `lockedTable, `totalClientLockedCollateral, `totalProviderLockedCollateral, `totalClientStorageFee
      ensures Covers(old(Funds()), p, 0) && state.sectorStart != EPOCH_UNDEFINED ==>
        ok && Funds() == Expire(old(Funds()), p)
    {
      ghost var l := Funds();
      if state.sectorStart == EPOCH_UNDEFINED { return false; }
      ok := UnlockBalance(p.provider, p.providerCollateral, ProviderCollateral);
      ExpireNeeds(l, p);
      if !ok { return false; }
      ok := UnlockBalance(p.client, p.clientCollateral, ClientCollateral);
    }

    /** Pays a deal marked as slashed up to that epoch, returns the rest to the client and burns the
        provider's collateral. */
    method PaySlashed(p: Proposal, from: Epoch, slash: Epoch) returns (r: UpdateResult)
      requires p.Sound() && p.start <= from && slash <= p.end && Get(escrowTable, p.provider) >= 0
      modifies `escrowTable, `lockedTable, `totalClientLockedCollateral, `totalProviderLockedCollateral,
        `totalClientStorageFee
      ensures (from <= slash || from == p.start) && Covers(old(Funds()), p, p.Fee(from, p.end)) ==>
        && r == Slashed(p.providerCollateral, p.Fee(Max(slash, p.start), p.end) + p.Fee(from, slash))
        && Funds() == SlashedAt(old(Funds()), p, from, slash)
    {
      hide Forfeit, Pay, Covers, Proposal.Fee, SlashedAt;
      var elapsed := p.price * (slash - from);
      FeeIs(p, from, slash);
      if from <= slash || from == p.start {
        SlashPays(Funds(), p, from, slash);
      }
      var ok := PayDeal(p, elapsed);
      if !ok { return UpdateFailed; }
      var remaining := PaymentRemaining(p, slash);
      ok := ForfeitDeal(p, remaining.value);
      if !ok { return UpdateFailed; }
      return Slashed(p.providerCollateral, remaining.value + elapsed);
    }

    /** Pays an active deal up to date and, at its end, releases the collaterals. A deal marked as
        slashed is paid up to that epoch and ended. */
    method ProcessDealUpdate(state: DealState, p: Proposal, epoch: Epoch) returns (r: UpdateResult)
      requires p.Sound() && Get(escrowTable, p.provider) >= 0
      modifies `pendingProposals, `escrowTable, `lockedTable, `totalClientLockedCollateral,
        `totalProviderLockedCollateral, `totalClientStorageFee
      ensures pendingProposals ==
        if state.lastUpdated == EPOCH_UNDEFINED then old(pendingProposals) - {p} else old(pendingProposals)
      ensures var from := Max(p.start, state.lastUpdated);
        state.slashEpoch == EPOCH_UNDEFINED
        && state.lastUpdated <= epoch && state.lastUpdated < p.end && state.sectorStart != EPOCH_UNDEFINED
        && Covers(old(Funds()), p, p.Fee(from, p.end)) ==>
          && r == Updated(DueAt(p, from, epoch), epoch >= p.end)
          && Funds() == Advance(old(Funds()), p, from, epoch)
      ensures var from := Max(p.start, state.lastUpdated);
        state.slashEpoch != EPOCH_UNDEFINED && p.start <= epoch
        && state.lastUpdated <= state.slashEpoch <= p.end && state.slashEpoch <= epoch
        && Covers(old(Funds()), p, p.Fee(from, p.end)) ==>
          && r == Slashed(p.providerCollateral,
                          p.Fee(Max(state.slashEpoch, p.start), p.end) + p.Fee(from, state.slashEpoch))
          && Funds() == SlashedAt(old(Funds()), p, from, state.slashEpoch)
      ensures state.slashEpoch != EPOCH_UNDEFINED && p.start <= epoch && state.slashEpoch > Min(p.end, epoch) ==>
        r == UpdateFailed && Funds() == old(Funds())
      ensures state.lastUpdated > epoch && state.lastUpdated != EPOCH_UNDEFINED ==>
        r == UpdateFailed && Funds() == old(Funds())
    {
      hide Expire, Pay, Covers, Proposal.Fee, SlashedAt;
      ghost var l0 := Funds();
      var everUpdated := state.lastUpdated != EPOCH_UNDEFINED;
      var everSlashed := state.slashEpoch != EPOCH_UNDEFINED;
      if !everUpdated {
        pendingProposals := pendingProposals - {p};
      }
      if everUpdated && state.lastUpdated > epoch {
        return UpdateFailed;
      }
      if p.start > epoch {
        PayNothing(l0, p);
        return Updated(0, false);
      }
      if everSlashed && (epoch < state.slashEpoch || state.slashEpoch > p.end) {
        return UpdateFailed;
      }
      var paymentStart := if everUpdated && state.lastUpdated > p.start then state.lastUpdated else p.start;
      if everSlashed {
        r := PaySlashed(p, paymentStart, state.slashEpoch);
        return;
      }
      var paymentEnd := Min(p.end, epoch);
      var elapsed := p.price * (paymentEnd - paymentStart);
      FeeIs(p, paymentStart, paymentEnd);
      var ok := PayDeal(p, elapsed);
      if state.lastUpdated < p.end {
        AdvanceNeeds(l0, p, paymentStart, epoch);
      }
      if !ok { return UpdateFailed; }
      if epoch >= p.end {
        ok := ProcessDealExpired(p, state);
        if !ok { return UpdateFailed; }
        return Updated(elapsed, true);
      }
      return Updated(elapsed, false);
    }

    /** Delete proposal and state together. */
    method RemoveCompletedDeal(d: DealId) returns (ok: bool)
      modifies `proposals, `states
      ensures ok <==> d in old(states) && d in old(proposals)
      ensures states == old(states) - {d}
      ensures proposals == if d in old(states) then old(proposals) - {d} else old(proposals)
    {
      var known := d in states;
      states := states - {d};
      if !known { return false; }
      ok := d in proposals;
      proposals := proposals - {d};
    }

    /** Finds the state of a deal, or cleans up after one that missed its start. */
    method GetActiveDealOrProcessTimeout(epoch: Epoch, d: DealId, p: Proposal) returns (r: LoadDealState)
      requires d in proposals && p == proposals[d] && p.Sound()
      modifies `proposals, `pendingProposals, `pendingDealAllocationIds, `escrowTable, `lockedTable,
        `totalClientLockedCollateral, `totalProviderLockedCollateral, `totalClientStorageFee
      ensures d in states ==> r == Loaded(states[d]) && unchanged(this)
      ensures d !in states && epoch < p.start ==> r == TooEarly && unchanged(this)
      ensures
        d !in states && epoch >= p.start && Covers(old(Funds()), p, p.TotalFee()) && p in old(pendingProposals) ==>
        && r == ProposalExpired(p.providerCollateral)
        && Funds() == MissActivation(old(Funds()), p)
        && proposals == old(proposals) - {d}
        && pendingProposals == old(pendingProposals) - {p}
        && pendingDealAllocationIds == old(pendingDealAllocationIds) - {d}
    {
      hide Proposal.Fee, MissActivation, Covers;
      if d in states { return Loaded(states[d]); }
      if epoch < p.start { return TooEarly; }
      var ok, slashed := ProcessDealInitTimedOut(p);
      if !ok { return LoadFailed; }
      proposals := proposals - {d};
      var pending := p in pendingProposals;
      pendingProposals := pendingProposals - {p};
      if !pending { return LoadFailed; }
      pendingDealAllocationIds := pendingDealAllocationIds - {d};
      return ProposalExpired(slashed);
    }

    // ---------- Settlement ----------

    /** The fields are those of `spec`, but for state updates and index removals still to be written. */
    ghost predicate Tracks(spec: State, updates: map<DealId, DealState>, gone: map<SectorKey, set<DealId>>)
      reads this
    {
      && proposals == spec.proposals
      && states + updates == spec.states
      && pendingProposals == spec.pending
      && Funds() == spec.ledger
      && nextId == spec.nextId && dealOpsByEpoch == spec.ops && lastCron == spec.lastCron
      && pendingDealAllocationIds == spec.allocations
      && RemoveDeals(sectorDeals, gone) == spec.sectorDeals
      && history == spec.history
    }

    lemma TracksDeal(spec: State, updates: map<DealId, DealState>, gone: map<SectorKey, set<DealId>>, d: DealId)
      requires Tracks(spec, updates, gone) && d !in updates
      ensures proposals == spec.proposals && pendingProposals == spec.pending && Funds() == spec.ledger
      ensures escrowTable == spec.ledger.escrow
      ensures pendingDealAllocationIds == spec.allocations
      ensures d in states <==> d in spec.states
      ensures d in states ==> states[d] == spec.states[d]
    {
    }

    lemma TracksRest(spec: State, updates: map<DealId, DealState>, gone: map<SectorKey, set<DealId>>)
      requires Tracks(spec, updates, gone)
      ensures states + updates == spec.states && RemoveDeals(sectorDeals, gone) == spec.sectorDeals
      ensures nextId == spec.nextId && dealOpsByEpoch == spec.ops && lastCron == spec.lastCron
        && history == spec.history
    {
      hide RemoveDeals;
    }

    lemma TracksNow(spec: State, updates: map<DealId, DealState>, gone: map<SectorKey, set<DealId>>)
      requires proposals == spec.proposals && pendingProposals == spec.pending && Funds() == spec.ledger
      requires pendingDealAllocationIds == spec.allocations
      requires states + updates == spec.states && RemoveDeals(sectorDeals, gone) == spec.sectorDeals
      requires nextId == spec.nextId && dealOpsByEpoch == spec.ops && lastCron == spec.lastCron
        && history == spec.history
      ensures Tracks(spec, updates, gone)
    {
      hide RemoveDeals;
    }

    /** Moves the clock; nothing is deferred yet. */
    method StartCall(now: Epoch)
      modifies `history
      ensures View() == Tick(old(View()), now) && Tracks(View(), map[], map[])
    {
      history := history.(clock := now);
      RemoveNothing(sectorDeals);
      assert states + map[] == states;
    }

    /** Makes the deferred writes. */
    method WriteBack(updates: map<DealId, DealState>, gone: map<SectorKey, set<DealId>>, ghost spec: State)
      requires Tracks(spec, updates, gone)
      modifies `states, `sectorDeals
      ensures View() == spec
    {
      hide RemoveDeals;
      states := states + updates;
      RemoveSectorDealIds(gone);
    }

    method StoreState(d: DealId, state: DealState, gone: map<SectorKey, set<DealId>>, ghost spec: State)
      requires Tracks(spec, map[d := state], gone)
      modifies `states
      ensures Tracks(spec, map[], gone)
    {
      hide RemoveDeals;
      assert states + map[d := state] == states[d := state] + map[];
      states := states[d := state];
    }

    /** Finds the state of a deal, or cleans up after one that missed its start. It cannot fail. */
    method LoadDeal(d: DealId, now: Epoch, ghost updates: map<DealId, DealState>,
                    ghost gone: map<SectorKey, set<DealId>>,
                    ghost spec: State, ghost horizon: Epoch, ghost todo: set<DealId>) returns (r: LoadDealState)
      requires InvDuring(spec, horizon, todo) && spec.history.clock == now
      requires Tracks(spec, updates, gone) && d !in updates && d in proposals && d in spec.proposals
      modifies this
      ensures d in spec.states ==> r == Loaded(spec.states[d]) && unchanged(this)
      ensures d !in spec.states && now < spec.proposals[d].start ==> r == TooEarly && Tracks(spec, updates, gone)
      ensures d !in spec.states && now >= spec.proposals[d].start ==>
        r == ProposalExpired(spec.proposals[d].providerCollateral) && Tracks(TimeOut(spec, d), updates, gone)
    {
      hide InvDuring, RemoveDeals, TimeOut, MissActivation, Covers, Proposal.Fee, PaidUntil, SettlePending, Tracks;
      TracksDeal(spec, updates, gone, d);
      TracksRest(spec, updates, gone);
      DealReady(spec, d, now, horizon, todo);
      r := GetActiveDealOrProcessTimeout(now, d, proposals[d]);
      if r.ProposalExpired? {
        TimeOutFields(spec, d);
        history := TimeOut(spec, d).history;
        TracksNow(TimeOut(spec, d), updates, gone);
      }
    }

    /** The money part of an update, which cannot fail. */
    method PayUp(d: DealId, state: DealState, p: Proposal, now: Epoch, ghost updates: map<DealId, DealState>,
                 ghost gone: map<SectorKey, set<DealId>>, ghost spec: State, ghost horizon: Epoch,
                 ghost todo: set<DealId>)
      returns (r: UpdateResult)
      requires InvDuring(spec, horizon, todo) && spec.history.clock == now
      requires Tracks(spec, updates, gone) && d !in updates
      requires d in spec.proposals && p == spec.proposals[d] && d in spec.states && state == spec.states[d]
      modifies `pendingProposals, `escrowTable, `lockedTable, `totalClientLockedCollateral,
        `totalProviderLockedCollateral, `totalClientStorageFee
      ensures r == Updated(DueAt(p, PaidUntil(spec, d), now), now >= p.end)
      ensures Tracks(PaidUp(spec, d, now), updates, gone)
    {
      hide InvDuring, RemoveDeals, Advance, Covers, DueAt, Proposal.Fee, PaidUntil, SettlePending, Tracks;
      TracksDeal(spec, updates, gone, d);
      TracksRest(spec, updates, gone);
      DealReady(spec, d, now, horizon, todo);
      r := ProcessDealUpdate(state, p, now);
      TracksNow(PaidUp(spec, d, now), updates, gone);
    }

    /** Updates one active deal. It cannot fail; a deal that goes on still has its new state to be written. */
    method UpdateDeal(d: DealId, state: DealState, p: Proposal, now: Epoch, ghost updates: map<DealId, DealState>,
                      gone: map<SectorKey, set<DealId>>, ghost spec: State, ghost horizon: Epoch,
                      ghost todo: set<DealId>)
      returns (r: UpdateResult, gone': map<SectorKey, set<DealId>>)
      requires InvDuring(spec, horizon, todo) && spec.history.clock == now
      requires Tracks(spec, updates, gone) && d !in updates
      requires d in spec.proposals && p == spec.proposals[d] && d in spec.states && state == spec.states[d]
      modifies `proposals, `states, `pendingProposals, `escrowTable, `lockedTable, `totalClientLockedCollateral,
        `totalProviderLockedCollateral, `totalClientStorageFee, `history
      ensures r == Updated(DueAt(p, PaidUntil(spec, d), now), now >= p.end)
      ensures now >= p.end ==> Tracks(Update(spec, d, now), updates, gone')
      ensures now < p.end ==>
        gone' == gone && Tracks(Update(spec, d, now), updates[d := state.(lastUpdated := now)], gone)
    {
      hide InvDuring, Update, DueAt, PaidUntil, Tracks, RemoveDeals, PaidUp;
      gone' := gone;
      r := PayUp(d, state, p, now, updates, gone, spec, horizon, todo);
      if r.UpdateFailed? { return; }
      UpdateWrites(spec, d, now, horizon, todo);
      TracksDeal(PaidUp(spec, d, now), updates, gone, d);
      TracksRest(PaidUp(spec, d, now), updates, gone);
      MergeLater(states, updates, d, state.(lastUpdated := now));
      history := Update(spec, d, now).history;
      if r.completed {
        gone' := DropDeal(d, (p.provider, state.sector), gone);
        TracksNow(Update(spec, d, now), updates, gone');
      } else {
        TracksNow(Update(spec, d, now), updates[d := state.(lastUpdated := now)], gone);
      }
    }

    /** Deletes a deal's proposal and state, and notes that it is to leave the sector index. */
    method DropDeal(d: DealId, key: SectorKey, gone: map<SectorKey, set<DealId>>)
      returns (gone': map<SectorKey, set<DealId>>)
      modifies `proposals, `states
      ensures d in old(states) ==> proposals == old(proposals) - {d}
      ensures states == old(states) - {d}
      ensures RemoveDeals(sectorDeals, gone') == RemoveDeals(RemoveDeals(sectorDeals, gone), map[key := {d}])
    {
      hide RemoveDeals;
      var ok := RemoveCompletedDeal(d);
      RemoveLater(sectorDeals, gone, key, d);
      gone' := gone[key := Entry(gone, key) + {d}];
    }

    /** Settles one deal. It cannot fail: a deal that is gone, or that is timed out now, is reported
        as expired; any other is settled, with nothing to pay when it has not started. */
    method SettleDeal(d: DealId, now: Epoch, updates: map<DealId, DealState>, gone: map<SectorKey, set<DealId>>,
                      ghost spec: State, ghost horizon: Epoch)
      returns (updates': map<DealId, DealState>, gone': map<SectorKey, set<DealId>>,
               settled: bool, completed: bool, payment: int, slashed: int)
      requires InvDuring(spec, horizon, {}) && spec.history.clock == now
      requires Tracks(spec, updates, gone) && d !in updates
      modifies this
      ensures Tracks(Settle(spec, d, now), updates', gone')
      ensures forall c: DealId :: c in updates' ==> c in updates || c == d
      ensures SettlementOf(spec, d, now) == if settled then Some(Settlement(completed, payment)) else None
      ensures slashed == Sum(spec.ledger.escrow) - Sum(Settle(spec, d, now).ledger.escrow)
    {
      hide InvDuring, Sum, Update, TimeOut, DueAt, Tracks, PaidUntil;
      updates', gone', settled, completed, payment, slashed := updates, gone, false, false, 0, 0;
      SettleBurns(spec, d, now, horizon, {});
      TracksDeal(spec, updates, gone, d);
      if d !in proposals { return; }
      var p := proposals[d];
      var loaded := LoadDeal(d, now, updates, gone, spec, horizon, {});
      match loaded {
        case LoadFailed => return;
        case TooEarly => settled := true;
        case ProposalExpired(penalty) => slashed := penalty;
        case Loaded(state) =>
          var r;
          r, gone' := UpdateDeal(d, state, p, now, updates, gone, spec, horizon, {});
          if r.UpdateFailed? { return; }
          payment, completed, settled := r.payment, r.completed, true;
          if !completed {
            updates' := updates[d := state.(lastUpdated := now)];
          }
      }
    }

    /** Takes deals out of the sector index, dropping the entries this leaves empty. */
    method RemoveSectorDealIds(gone: map<SectorKey, set<DealId>>)
      modifies `sectorDeals
      ensures sectorDeals == RemoveDeals(old(sectorDeals), gone)
    {
      hide RemoveDeals;
      var keys := gone.Keys;
      RemoveNothing(sectorDeals);
      assert gone - keys == map[];
      while keys != {}
        invariant keys <= gone.Keys
        invariant sectorDeals == RemoveDeals(old(sectorDeals), gone - keys)
        decreases keys
      {
        var k :| k in keys;
        RemoveAlso(old(sectorDeals), gone, keys, k);
        if k in sectorDeals {
          var rest := sectorDeals[k] - gone[k];
          sectorDeals := if rest == {} then sectorDeals - {k} else sectorDeals[k := rest];
        }
        keys := keys - {k};
      }
      assert gone - {} == gone;
    }

    /** Settles payments for the given deals, each of which succeeds or is reported expired. What is
        returned as slashed is exactly what left escrow. */
    method SettleDealPaymentsCall(ids: seq<DealId>, now: Epoch)
      returns (results: seq<Option<Settlement>>, slashed: int)
      requires Inv(View()) && Enabled(View(), Event(now, SettleDealPayments(ids)))
      requires forall i, j :: 0 <= i < j < |ids| ==> ids[i] < ids[j]
      modifies this
      ensures View() == Apply(old(View()), Event(now, SettleDealPayments(ids)))
      ensures |results| == |ids|
      ensures forall i :: 0 <= i < |ids| ==> results[i] == SettlementOf(old(View()), ids[i], now)
      ensures slashed == Sum(old(escrowTable)) - Sum(escrowTable)
    {
      hide InvDuring, Settle, Sum, SettlementOf, Apply, Tracks;
      ghost var before := View();
      ApplyIs(before, now);
      TickKeeps(before, now);
      StartCall(now);
      ghost var spec := View();
      results, slashed := [], 0;
      var updates: map<DealId, DealState>, gone: map<SectorKey, set<DealId>> := map[], map[];
      assert ids[..0] == [];
      for i := 0 to |ids|
        invariant spec == SettleAll(Tick(before, now), ids[..i], now) && Inv(spec) && spec.history.clock == now
        invariant Tracks(spec, updates, gone)
        invariant forall c: DealId :: c in updates ==> c in ids[..i]
        invariant |results| == i
        invariant forall k :: 0 <= k < i ==> results[k] == SettlementOf(Tick(before, now), ids[k], now)
        invariant forall k :: i <= k < |ids| ==>
          SettlementOf(spec, ids[k], now) == SettlementOf(Tick(before, now), ids[k], now)
        invariant slashed == Sum(before.ledger.escrow) - Sum(spec.ledger.escrow)
      {
        var d := ids[i];
        assert ids[..i + 1][..i] == ids[..i];
        SettleKeeps(spec, d, now, spec.lastCron, {});
        SettleStill(spec, d, now);
        var ok, completed, payment, penalty;
        updates, gone, ok, completed, payment, penalty := SettleDeal(d, now, updates, gone, spec, spec.lastCron);
        forall k | i < k < |ids|
          ensures SettlementOf(Settle(spec, d, now), ids[k], now) == SettlementOf(Tick(before, now), ids[k], now)
        {
          SettlementKept(spec, d, ids[k], now);
        }
        spec := Settle(spec, d, now);
        slashed := slashed + penalty;
        results := results + [if ok then Some(Settlement(completed, payment)) else None];
      }
      assert ids[..|ids|] == ids;
      WriteBack(updates, gone, spec);
      forall i | 0 <= i < |ids| ensures results[i] == SettlementOf(before, ids[i], now) {
        SettlementTick(before, ids[i], now);
      }
    }

    // ---------- The tick ----------

    /** The first visit to an active deal that was never updated: its proposal stops being pending. */
    method Unpend(p: Proposal, ghost gone: map<SectorKey, set<DealId>>, ghost spec: State) returns (removed: bool)
      requires Tracks(spec, map[], gone)
      modifies `pendingProposals
      ensures removed <==> p in spec.pending
      ensures Tracks(spec.(pending := spec.pending - {p}), map[], gone)
    {
      hide RemoveDeals;
      removed := p in pendingProposals;
      pendingProposals := pendingProposals - {p};
    }

    /** Visits one due deal. It cannot fail: the deal has started, and is pending if never updated. */
    method VisitDeal(d: DealId, now: Epoch, gone: map<SectorKey, set<DealId>>, ghost spec: State,
                     ghost todo: set<DealId>)
      returns (ok: bool, gone': map<SectorKey, set<DealId>>, again: bool, slashed: int)
      requires InvDuring(spec, now, todo) && spec.history.clock == now && d in todo
      requires Tracks(spec, map[], gone)
      modifies this
      ensures ok
      ensures Tracks(Visit(spec, d, now).0, map[], gone') && again == Visit(spec, d, now).1
      ensures slashed == Sum(spec.ledger.escrow) - Sum(Visit(spec, d, now).0.ledger.escrow)
    {
      hide InvDuring, Sum, Update, TimeOut, DueAt, Tracks, PaidUntil;
      ok, gone', again, slashed := true, gone, false, 0;
      VisitBurns(spec, d, now, todo);
      TracksDeal(spec, map[], gone, d);
      if d !in proposals { return; }
      var p := proposals[d];
      DueHasStarted(spec, d, now, todo);
      var loaded := LoadDeal(d, now, map[], gone, spec, now, todo);
      match loaded {
        case LoadFailed => return false, gone', again, slashed;
        case TooEarly => return false, gone', again, slashed;
        case ProposalExpired(penalty) => slashed := penalty;
        case Loaded(state) =>
          if state.lastUpdated == EPOCH_UNDEFINED {
            ok := Unpend(p, gone, spec);
            return;
          }
          UpdateGoesOn(spec, d, now, now, todo);
          var r;
          r, gone' := UpdateDeal(d, state, p, now, map[], gone, spec, now, todo);
          if r.UpdateFailed? { return false, gone', again, slashed; }
          if !r.completed {
            StoreState(d, state.(lastUpdated := now), gone, Update(spec, d, now));
            again := true;
          }
      }
    }

    /** Visits some due deals in turn. */
    method VisitDeals(ids: seq<DealId>, now: Epoch, gone: map<SectorKey, set<DealId>>, planned: map<Epoch, set<DealId>>,
                      ghost s0: State, ghost order: seq<DealId>, ghost todo: set<DealId>)
      returns (ok: bool, gone': map<SectorKey, set<DealId>>, planned': map<Epoch, set<DealId>>, slashed: int)
      requires InvDuring(s0, now, todo) && s0.history.clock == now >= 0
      requires Distinct(order + ids) && IdSet(order + ids) <= todo
      requires Tracks(VisitAll(s0, order, now).0, map[], gone)
      requires planned == Grouped(VisitAll(s0, order, now).1, now)
      modifies this
      ensures ok
      ensures Tracks(VisitAll(s0, order + ids, now).0, map[], gone')
      ensures planned' == Grouped(VisitAll(s0, order + ids, now).1, now)
      ensures slashed ==
        Sum(VisitAll(s0, order, now).0.ledger.escrow) - Sum(VisitAll(s0, order + ids, now).0.ledger.escrow)
    {
      hide InvDuring, Sum, Visit, Grouped, VisitAgain, Schedule, Tracks;
      ok, gone', planned', slashed := true, gone, planned, 0;
      assert order + ids[..0] == order;
      for j := 0 to |ids|
        invariant ok
        invariant Tracks(VisitAll(s0, order + ids[..j], now).0, map[], gone')
        invariant planned' == Grouped(VisitAll(s0, order + ids[..j], now).1, now)
        invariant slashed ==
          Sum(VisitAll(s0, order, now).0.ledger.escrow) - Sum(VisitAll(s0, order + ids[..j], now).0.ledger.escrow)
      {
        var d := ids[j];
        ghost var done := order + ids[..j];
        assert order + ids[..j + 1] == done + [d];
        assert (done + [d])[..|done + [d]| - 1] == done;
        assert forall k :: 0 <= k < |done| ==> done[k] == (order + ids)[k];
        assert d == (order + ids)[|done|] && d in IdSet(order + ids);
        VisitAllKeeps(s0, done, now, todo);
        ghost var (spec, again) := VisitAll(s0, done, now);
        var more, penalty;
        ok, gone', more, penalty := VisitDeal(d, now, gone', spec, todo - (set c | c in done));
        if !ok { return; }
        slashed := slashed + penalty;
        if more {
          GroupedMore(again, now, d);
          var e := VisitAgain(d, now);
          planned' := Schedule(planned', e, d);
        }
      }
      assert ids[..|ids|] == ids;
    }

    /** Makes the deferred index removals and moves the schedule on. */
    method FinishTick(now: Epoch, gone: map<SectorKey, set<DealId>>, planned: map<Epoch, set<DealId>>,
                      ghost spec: State, ghost again: set<DealId>)
      requires Tracks(spec, map[], gone) && planned == Grouped(again, now)
      requires forall e :: e in spec.ops ==> e > spec.lastCron
      modifies `states, `sectorDeals, `dealOpsByEpoch, `lastCron
      ensures View() == spec.(ops := Reschedule(spec.ops, now, again), lastCron := now)
    {
      hide RemoveDeals, Grouped, Reschedule, Merged, Without, Tracks;
      WriteBack(map[], gone, spec);
      MergedIsReschedule(spec.ops, spec.lastCron, now, again);
      dealOpsByEpoch := Merged(Without(dealOpsByEpoch, lastCron, now), planned);
      lastCron := now;
    }

    /** The deals planned for one epoch, in some order. */
    method DealsForEpoch(e: Epoch, ghost spec: State, ghost gone: map<SectorKey, set<DealId>>)
      returns (ids: seq<DealId>)
      requires Tracks(spec, map[], gone)
      ensures Enumerates(ids, if e in spec.ops then spec.ops[e] else {})
    {
      ids := [];
      if e in dealOpsByEpoch {
        ids := Listing(dealOpsByEpoch[e]);
      }
    }

    /** Processes the deals due since the last tick. It never aborts, whatever order each epoch's
        deals come in, and what it reports as slashed is exactly what left escrow. */
    method CronTickCall(now: Epoch) returns (ok: bool, slashed: int, ghost order: seq<DealId>)
      requires Inv(View()) && 0 <= now && history.clock <= now && lastCron < now
      modifies this
      ensures ok
      ensures Enabled(old(View()), Event(now, EpochTick(order)))
      ensures View() == Apply(old(View()), Event(now, EpochTick(order)))
      ensures slashed == Sum(old(escrowTable)) - Sum(escrowTable)
    {
      hide InvDuring, Sum, Visit, Grouped, Reschedule, Apply, Tracks, Due, Planned;
      ghost var before := View();
      ghost var s0 := Tick(before, now);
      ApplyIs(before, now);
      TickKeeps(before, now);
      TickBegins(s0, now);
      TickFields(before, now);
      var last := lastCron;
      StartCall(now);
      ghost var due := Due(s0, now);
      ok, slashed, order := true, 0, [];
      var gone: map<SectorKey, set<DealId>>, planned: map<Epoch, set<DealId>> := map[], map[];
      GroupedNone(now);
      for i := last + 1 to now + 1
        invariant ok
        invariant Tracks(VisitAll(s0, order, now).0, map[], gone)
        invariant planned == Grouped(VisitAll(s0, order, now).1, now)
        invariant slashed == Sum(s0.ledger.escrow) - Sum(VisitAll(s0, order, now).0.ledger.escrow)
        invariant VisitedBefore(s0, order, last, i)
      {
        VisitedAreDue(s0, order, i, now);
        VisitAllKeeps(s0, order, now, due);
        var ids := DealsForEpoch(i, VisitAll(s0, order, now).0, gone);
        EpochIsNew(s0, order, ids, i, now);
        var penalty;
        ok, gone, planned, penalty := VisitDeals(ids, now, gone, planned, s0, order, due);
        if !ok { return; }
        slashed := slashed + penalty;
        order := order + ids;
      }
      OrderIsDue(s0, order, now);
      VisitAllKeeps(s0, order, now, due);
      ghost var (spec, again) := VisitAll(s0, order, now);
      FinishTick(now, gone, planned, spec, again);
    }

    // ---------- Termination ----------

    /** Pays a deal up to its termination, returns the rest to the client and burns the provider's collateral. */
    method ProcessSlashedDeal(p: Proposal, state: DealState) returns (ok: bool, slashed: int)
      requires p.Sound() && Get(escrowTable, p.provider) >= 0
      modifies `escrowTable, `lockedTable, `totalClientLockedCollateral, `totalProviderLockedCollateral,
        `totalClientStorageFee
      ensures var from := Max(p.start, state.lastUpdated);
        state.slashEpoch <= p.end && from <= p.end && (p.price == 0 || from <= Max(state.slashEpoch, p.start))
        && Covers(old(Funds()), p, p.Fee(from, p.end)) ==>
          && ok && slashed == p.providerCollateral
          && Funds() == SlashedAt(old(Funds()), p, from, state.slashEpoch)
    {
      hide Forfeit, Pay, Covers, Proposal.Fee, SlashedAt;
      ghost var l0 := Funds();
      slashed := p.providerCollateral;
      var paymentStart := Max(p.start, state.lastUpdated);
      var paymentEnd := Min(p.end, state.slashEpoch);
      var elapsed := Max(0, paymentEnd - paymentStart);
      var payment := p.price * elapsed;
      FeeIs(p, paymentStart, paymentStart + elapsed);
      if state.slashEpoch <= p.end && paymentStart <= p.end
         && (p.price == 0 || paymentStart <= Max(state.slashEpoch, p.start)) {
        assert paymentStart + elapsed == Max(state.slashEpoch, paymentStart);
        SlashTakes(l0, p, paymentStart, state.slashEpoch);
      }
      ok := PayDeal(p, payment);
      if !ok { return; }
      var remaining := PaymentRemaining(p, state.slashEpoch);
      if remaining.None? { return false, slashed; }
      ok := ForfeitDeal(p, remaining.value);
    }

    /** Takes the listed sectors out of the index and returns the deals they held. */
    method PopSectorDealIds(miner: Address, numbers: set<SectorNumber>) returns (popped: seq<DealId>)
      requires IndexOk(View())
      modifies `sectorDeals
      ensures sectorDeals == old(sectorDeals) - KeysOf(miner, numbers)
      ensures Enumerates(popped, Listed(old(View()), miner, numbers))
    {
      ghost var s := View();
      popped := [];
      var rest := numbers;
      while rest != {}
        invariant rest <= numbers
        invariant sectorDeals == s.sectorDeals - KeysOf(miner, numbers - rest)
        invariant Enumerates(popped, Listed(s, miner, numbers - rest))
        decreases rest
      {
        var n :| n in rest;
        assert Entry(sectorDeals, (miner, n)) == Entry(s.sectorDeals, (miner, n));
        if (miner, n) in sectorDeals {
          var more := Listing(sectorDeals[(miner, n)]);
          ListedMore(s, miner, numbers - rest, n, popped, more);
          popped := popped + more;
          sectorDeals := sectorDeals - {(miner, n)};
        } else {
          ListedMore(s, miner, numbers - rest, n, popped, []);
          assert popped + [] == popped;
        }
        assert numbers - (rest - {n}) == (numbers - rest) + {n};
        assert KeysOf(miner, (numbers - rest) + {n}) == KeysOf(miner, numbers - rest) + {(miner, n)};
        rest := rest - {n};
      }
      assert numbers - {} == numbers;
    }

    /** Ends the deals of terminated sectors, as of `at`. It never aborts: each deal listed is its caller's,
        and active. What it burns is exactly what leaves escrow. */
    method OnMinerSectorsTerminateCall(miner: Address, numbers: set<SectorNumber>, at: Epoch, now: Epoch)
      returns (ok: bool, burn: int, ghost order: seq<DealId>)
      requires Inv(View()) && 0 <= now && history.clock <= now && lastCron < now
      requires at == now || forall d <- Listed(View(), miner, numbers) :: Terminable(Tick(View(), now), d, at)
      modifies this
      ensures ok
      ensures Enabled(old(View()), Event(now, OnMinerSectorsTerminate(miner, numbers, at, order)))
      ensures View() == Apply(old(View()), Event(now, OnMinerSectorsTerminate(miner, numbers, at, order)))
      ensures burn == Sum(old(escrowTable)) - Sum(escrowTable)
    {
      hide InvDuring, Sum, RemoveDeals, Terminate, Listed, Entry, Apply, Terminable;
      ApplyIs(View(), now);
      ghost var s0 := Tick(View(), now);
      TickKeeps(View(), now);
      TickFields(View(), now);
      forall d: DealId | d in Listed(s0, miner, numbers) ensures Terminable(s0, d, at) {
        if at == now { TerminableNow(s0, d); }
      }
      history := s0.history;
      var proposals0, states0 := proposals, states;
      InvIndex(s0);
      var ids := PopSectorDealIds(miner, numbers);
      ok, burn, order := true, 0, ids;
      ghost var keys := KeysOf(miner, numbers);
      ghost var spec := s0;
      assert ids[..0] == [];
      for i := 0 to |ids|
        invariant ok && spec == TerminateAll(s0, ids[..i], at) && Inv(spec) && spec.history.clock == now
        invariant View() == spec.(sectorDeals := spec.sectorDeals - keys)
        invariant burn == Sum(s0.ledger.escrow) - Sum(escrowTable)
        invariant forall k :: i <= k < |ids| ==> SameDeal(spec, s0, ids[k]) && Terminable(spec, ids[k], at)
      {
        var d := ids[i];
        assert ids[..i + 1][..i] == ids[..i];
        ListedIsOwn(s0, miner, numbers, d);
        TerminateKeeps(spec, d, at, spec.lastCron, {});
        TerminateStill(spec, d, at);
        forall k | i < k < |ids|
          ensures SameDeal(Terminate(spec, d, at), s0, ids[k]) && Terminable(Terminate(spec, d, at), ids[k], at)
        {
          TerminateOthers(spec, d, ids[k], at);
          StaysTerminable(spec, d, ids[k], at);
        }
        var stepped, slashed := TerminateDeal(d, miner, at, now, proposals0, states0, spec, keys);
        if !stepped { return false, burn, order; }
        burn := burn + slashed;
        spec := Terminate(spec, d, at);
      }
      assert ids[..|ids|] == ids;
    }

    /** Slashes a deal that has not ended and removes what is kept of it. */
    method SlashDeal(d: DealId, p: Proposal, state: DealState, at: Epoch) returns (ok: bool, slashed: int)
      requires p.Sound() && Get(escrowTable, p.provider) >= 0 && d in proposals && d in states
      requires at < p.end && Max(p.start, state.lastUpdated) <= p.end
      requires p.price == 0 || Max(p.start, state.lastUpdated) <= Max(at, p.start)
      requires Covers(Funds(), p, p.Fee(Max(p.start, state.lastUpdated), p.end))
      modifies `escrowTable, `lockedTable, `totalClientLockedCollateral, `totalProviderLockedCollateral,
        `totalClientStorageFee, `pendingProposals, `proposals, `states
      ensures ok && slashed == p.providerCollateral
      ensures var from := Max(p.start, state.lastUpdated);
        Funds() == Forfeit(Pay(old(Funds()), p, p.Fee(from, Max(at, from))), p, p.Fee(Max(at, p.start), p.end))
      ensures pendingProposals == if state.lastUpdated == EPOCH_UNDEFINED then old(pendingProposals) - {p}
                                  else old(pendingProposals)
      ensures proposals == old(proposals) - {d} && states == old(states) - {d}
    {
      hide Forfeit, Pay, Covers, Proposal.Fee, Proposal.Sound, Get;
      if state.lastUpdated == EPOCH_UNDEFINED {
        pendingProposals := pendingProposals - {p};
      }
      ok, slashed := ProcessSlashedDeal(p, state.(slashEpoch := at));
      if !ok { return; }
      ok := RemoveCompletedDeal(d);
    }

    /** One turn of the termination loop, reading the deal from the snapshots. */
    method TerminateDeal(d: DealId, miner: Address, at: Epoch, now: Epoch, proposals0: map<DealId, Proposal>,
                         states0: map<DealId, DealState>, ghost spec: State, ghost keys: set<SectorKey>)
      returns (ok: bool, slashed: int)
      requires InvDuring(spec, spec.lastCron, {}) && spec.history.clock == now && Terminable(spec, d, at)
      requires View() == spec.(sectorDeals := spec.sectorDeals - keys)
      requires d in proposals && d in states && (miner, states[d].sector) in keys && proposals[d].provider == miner
      requires d in proposals0 && proposals0[d] == proposals[d] && d in states0 && states0[d] == states[d]
      modifies this
      ensures ok
      ensures View() == Terminate(spec, d, at).(sectorDeals := Terminate(spec, d, at).sectorDeals - keys)
      ensures slashed == Sum(spec.ledger.escrow) - Sum(Terminate(spec, d, at).ledger.escrow)
    {
      hide InvDuring, Sum, RemoveDeals, Forfeit, Pay, Covers, PaidUntil, Proposal.Fee, SettlePending, Terminate;
      ok, slashed := true, 0;
      TerminateEnded(spec, d, at);
      if d !in proposals0 { return; }
      var p := proposals0[d];
      if p.provider != miner { return false, slashed; }
      if p.end <= at { return; }
      if d !in states0 { return false, slashed; }
      var state := states0[d];
      DealReady(spec, d, now, spec.lastCron, {});
      TerminateFields(spec, d, at);
      TerminateBurns(spec, d, at, spec.lastCron, {});
      RemoveFromForgotten(spec.sectorDeals, keys, (miner, state.sector), d);
      ok, slashed := SlashDeal(d, p, state, at);
      if !ok { return; }
      history := Terminate(spec, d, at).history;
    }

    // ---------- Balances ----------

    method AddBalanceCall(account: Address, value: int, now: Epoch) returns (ok: bool)
      requires Inv(View()) && Enabled(View(), Event(now, AddBalance(account, value)))
      modifies this
      ensures ok <==> value > 0
      ensures View() == Apply(old(View()), Event(now, AddBalance(account, value)))
      ensures !ok ==> View() == Tick(old(View()), now)
      ensures forall a: Address ::
        Get(escrowTable, a) == Get(old(escrowTable), a) + (if ok && a == account then value else 0)
      ensures lockedTable == old(lockedTable)
    {
      hide InvDuring, Add;
      EscrowNonNegative(View(), account);
      if value > 0 {
        AddEffect(escrowTable, account, value);
      }
      history := Tick(View(), now).history;
      if value <= 0 { return false; }
      escrowTable := Add(escrowTable, account, value);
      history := Deposit(Tick(old(View()), now), account, value).history;
      return true;
    }

    /** Yields what was asked for, or all that is not locked. */
    method WithdrawBalanceCall(account: Address, amount: int, now: Epoch) returns (ok: bool, extracted: int)
      requires Inv(View()) && Enabled(View(), Event(now, WithdrawBalance(account, amount)))
      modifies this
      ensures ok <==> amount >= 0
      ensures View() == Apply(old(View()), Event(now, WithdrawBalance(account, amount)))
      ensures !ok ==> View() == Tick(old(View()), now)
      ensures ok ==> extracted == Min(amount, Get(old(escrowTable), account) - Get(lockedTable, account))
      ensures forall a: Address ::
        Get(escrowTable, a) == Get(old(escrowTable), a) - (if ok && a == account then extracted else 0)
      ensures lockedTable == old(lockedTable)
    {
      hide InvDuring, Add, Sum;
      EscrowNonNegative(View(), account);
      history := Tick(View(), now).history;
      if amount < 0 { return false, 0; }
      var floor := Get(lockedTable, account);
      var (sub, escrow) := SubtractWithMinimum(escrowTable, account, amount, floor);
      escrowTable := escrow;
      history := Withdraw(Tick(old(View()), now), account, sub, escrow).history;
      return true, sub;
    }

    // ---------- Publication ----------

    /** Decides which deals of a batch to publish, against the state as it is now. */
    method FilterDeals(provider: Address, deals: seq<ClientDeal>, balances: Table, now: Epoch) returns (b: Batch)
      ensures b == Filter(View(), provider, now, balances, deals)
      ensures Selected(View(), provider, now, balances, deals, b.picked) && b.valid == At(deals, b.picked)
      ensures Running(b, balances)
    {
      hide Proposal.Fee, Proposal.Publishable, Filter, Selected, Running, At;
      var valid: seq<Proposal>, picked: seq<nat>, clientLock: Table, providerLock, datacap: Table :=
        [], [], map[], 0, map[];
      FilterNone(View(), provider, now, balances, deals);
      for i := 0 to |deals|
        invariant Batch(valid, picked, clientLock, providerLock, datacap) ==
          Filter(View(), provider, now, balances, deals[..i])
      {
        FilterStep(View(), provider, now, balances, deals, i);
        var deal := deals[i];
        var p := deal.proposal;
        if !deal.authentic || !p.Publishable(now, deal.minCollateral) { continue; }
        if p.provider != provider { continue; }
        var clientLockup := Get(clientLock, p.client) + p.ClientRequirement();
        if Get(lockedTable, p.client) + clientLockup > Get(escrowTable, p.client) { continue; }
        var providerLockup := providerLock + p.providerCollateral;
        if Get(lockedTable, provider) + providerLockup > Get(escrowTable, provider) { continue; }
        if p in pendingProposals || p in valid { continue; }
        if p.verified {
          var remaining := if p.client in datacap then datacap[p.client] else Get(balances, p.client);
          var required := p.pieceSize * DATACAP_PER_BYTE;
          if remaining < required {
            datacap := datacap[p.client := remaining];
            continue;
          }
          datacap := datacap[p.client := remaining - required];
        }
        providerLock, clientLock := providerLockup, clientLock[p.client := clientLockup];
        valid, picked := valid + [p], picked + [i];
      }
      assert deals[..|deals|] == deals;
      b := Batch(valid, picked, clientLock, providerLock, datacap);
      FilterExact(View(), provider, now, balances, deals);
    }

    /** Locks the funds of the accepted deals in turn, giving each the next identifier. */
    method LockDeals(ps: seq<Proposal>) returns (ok: bool, ids: seq<DealId>)
      requires Solvent(Funds()) && (forall p :: p in ps ==> p.Sound())
      modifies `lockedTable, `totalClientLockedCollateral, `totalProviderLockedCollateral, `totalClientStorageFee,
        `nextId
      ensures ok <==> AllLockable(old(Funds()), ps)
      ensures ok ==> Funds() == LockAll(old(Funds()), ps) && nextId == old(nextId) + |ps|
      ensures ok ==> |ids| == |ps| && forall i :: 0 <= i < |ps| ==> ids[i] == old(nextId) + i
    {
      hide Lockable, Lock, Proposal.Fee;
      ghost var l0 := Funds();
      ids := [];
      assert ps[..0] == [];
      for i := 0 to |ps|
        invariant AllLockable(l0, ps[..i]) && Funds() == LockAll(l0, ps[..i])
        invariant nextId == old(nextId) + i && |ids| == i
        invariant forall k :: 0 <= k < i ==> ids[k] == old(nextId) + k
      {
        assert ps[..i + 1][..i] == ps[..i];
        LockAllEffect(l0, ps[..i], ps[i].client);
        LockAllEffect(l0, ps[..i], ps[i].provider);
        var locked := LockClientAndProviderBalances(ps[i]);
        if !locked {
          NotAllLockable(l0, ps, i);
          return false, ids;
        }
        ids := ids + [nextId];
        nextId := nextId + 1;
      }
      assert ps[..|ps|] == ps;
      return true, ids;
    }

    /** Publishes accepted deals, all of them or, if any cannot be locked for, none. */
    method PublishValid(ps: seq<Proposal>, allocations: map<Proposal, AllocationId>, ghost s0: State)
      returns (ok: bool, ids: seq<DealId>)
      requires View() == s0 && Solvent(s0.ledger) && (forall p :: p in ps ==> p.Sound())
      modifies this
      ensures ok <==> AllLockable(s0.ledger, ps)
      ensures View() == if ok then PublishAll(s0, ps, allocations) else s0
      ensures ok ==> |ids| == |ps| && forall i :: 0 <= i < |ids| ==> ids[i] == s0.nextId + i
    {
      hide AllLockable, LockAll, PublishAll, Solvent, Proposal.Sound;
      var saved := (lockedTable, totalClientLockedCollateral, totalProviderLockedCollateral, totalClientStorageFee,
                    nextId);
      ok, ids := LockDeals(ps);
      if !ok {
        lockedTable, totalClientLockedCollateral, totalProviderLockedCollateral, totalClientStorageFee, nextId :=
          saved.0, saved.1, saved.2, saved.3, saved.4;
        return;
      }
      WriteDeals(ps, ids, allocations, s0);
    }

    /** Publishes the valid deals of a batch, all of them or none. */
    method PublishStorageDealsCall(provider: Address, deals: seq<ClientDeal>, balances: Table, transferred: bool,
                                   allocations: map<Proposal, AllocationId>, now: Epoch)
      returns (ok: bool, ids: seq<DealId>, picked: seq<nat>)
      requires Inv(View())
      requires Enabled(View(), Event(now, PublishStorageDeals(provider, deals, balances, transferred, allocations)))
      modifies this
      ensures View() == Apply(old(View()),
                              Event(now, PublishStorageDeals(provider, deals, balances, transferred, allocations)))
      ensures picked == Filter(Tick(old(View()), now), provider, now, balances, deals).picked
      ensures Selected(Tick(old(View()), now), provider, now, balances, deals, picked)
      ensures ok <==>
        && picked != [] && transferred
        && AllLockable(old(Funds()), Filter(Tick(old(View()), now), provider, now, balances, deals).valid)
      ensures NoSelfDeals(provider, deals) ==> (ok <==> picked != [] && transferred)
      ensures !ok ==> View() == Tick(old(View()), now)
      ensures ok ==> |ids| == |picked| && forall i :: 0 <= i < |ids| ==>
        ids[i] == old(nextId) + i && ids[i] in proposals && proposals[ids[i]] == deals[picked[i]].proposal
    {
      hide Running, Selected, NoSelfDeals, InvDuring, Filter, AllLockable, PublishAll, Apply, BatchOk, Solvent, Tracks;
      ApplyIs(View(), now);
      TickKeeps(View(), now);
      StartCall(now);
      ghost var s0 := View();
      InvSolvent(s0);
      var b := FilterDeals(provider, deals, balances, now);
      FilterOk(s0, provider, now, balances, deals);
      BatchSound(s0, provider, now, b);
      FilterPicks(s0, provider, now, balances, deals);
      if NoSelfDeals(provider, deals) {
        PrefilterSufficient(s0, provider, now, balances, deals);
      }
      ok, ids, picked := false, [], b.picked;
      if !transferred || b.valid == [] { return; }
      SelectedWithin(s0, provider, now, balances, deals, picked);
      ok, ids := PublishValid(b.valid, allocations, s0);
      if ok {
        forall i | 0 <= i < |ids|
          ensures ids[i] in proposals && proposals[ids[i]] == deals[picked[i]].proposal
        {
          PublishAllAt(s0, b.valid, allocations, i);
          assert View().proposals == proposals && ids[i] == s0.nextId + i;
        }
      }
    }

    /** Records the published deals, once all their funds are locked. */
    method WriteDeals(ps: seq<Proposal>, ids: seq<DealId>, allocations: map<Proposal, AllocationId>, ghost s0: State)
      requires |ids| == |ps| && forall i :: 0 <= i < |ps| ==> ids[i] == s0.nextId + i
      requires View() == s0.(ledger := LockAll(s0.ledger, ps), nextId := s0.nextId + |ps|)
      modifies `proposals, `pendingProposals, `pendingDealAllocationIds, `dealOpsByEpoch, `history
      ensures View() == PublishAll(s0, ps, allocations)
    {
      hide LockAll, Lock, Schedule, NextUpdateEpoch, Publish, PublishAll;
      ghost var spec := s0;
      PublishNone(s0, allocations);
      assert ps[..0] == [];
      for i := 0 to |ps|
        invariant spec == PublishAll(s0, ps[..i], allocations) && spec.nextId == s0.nextId + i
        invariant proposals == spec.proposals && pendingProposals == spec.pending && history == spec.history
        invariant pendingDealAllocationIds == spec.allocations && dealOpsByEpoch == spec.ops
        invariant states == spec.states && lastCron == spec.lastCron && sectorDeals == spec.sectorDeals
      {
        var p, d := ps[i], ids[i];
        PublishNext(s0, ps, i, allocations);
        PublishFields(spec, p, AllocationFor(allocations, p));
        pendingProposals := pendingProposals + {p};
        proposals := proposals[d := p];
        if p in allocations {
          pendingDealAllocationIds := pendingDealAllocationIds[d := allocations[p]];
        }
        dealOpsByEpoch := Schedule(dealOpsByEpoch, NextUpdateEpoch(d, DEAL_UPDATES_INTERVAL, p.start), d);
        spec := Publish(spec, p, AllocationFor(allocations, p));
        history := spec.history;
      }
      assert ps[..|ps|] == ps;
      PublishAllFields(s0, ps, allocations);
    }

    // ---------- Activation ----------

    /** Checks that a deal can be activated now, against the stored proposals, states and pending set. */
    predicate Preactivates(d: DealId, miner: Address, commitment: Epoch, now: Epoch)
      reads this
    {
      && d in proposals
      && proposals[d].provider == miner && now <= proposals[d].start && proposals[d].end <= commitment
      && d !in states
      && proposals[d] in pendingProposals
    }

    /** Validates all of a sector's deals before any of them is activated. `begun` holds the deals
        activated earlier in the same call. */
    method ValidateSector(sector: SectorDeals, miner: Address, now: Epoch, begun: map<DealId, DealState>,
                          ghost spec: State)
      returns (ready: bool)
      requires spec.proposals == proposals && spec.pending == pendingProposals && spec.states == states + begun
      ensures ready <==> SectorReady(spec, miner, sector, now)
    {
      for i := 0 to |sector.ids|
        invariant forall k, l :: 0 <= k < l < i ==> sector.ids[k] != sector.ids[l]
      {
        if sector.ids[i] in sector.ids[..i] { return false; }
      }
      for i := 0 to |sector.ids|
        invariant forall k :: 0 <= k < i ==> CanActivate(spec, sector.ids[k], miner, sector.expiry, now)
      {
        var d := sector.ids[i];
        if d in begun || !Preactivates(d, miner, sector.expiry, now) {
          assert d in sector.ids && !CanActivate(spec, d, miner, sector.expiry, now);
          return false;
        }
      }
      return true;
    }

    /** Works out what activating some sectors' deals is to write. */
    method PlanActivation(miner: Address, sectors: seq<SectorDeals>, now: Epoch, ghost s0: State)
      returns (activated: seq<bool>, begun: map<DealId, DealState>, allocations: map<DealId, AllocationId>,
               list: seq<(SectorNumber, set<DealId>)>)
      requires View() == s0
      ensures Activating(s0, ActivateAll(s0, miner, sectors, now), miner, begun, allocations, list)
      ensures |activated| == |sectors|
      ensures forall i :: 0 <= i < |sectors| ==>
        (activated[i] <==> SectorReady(ActivateAll(s0, miner, sectors[..i], now), miner, sectors[i], now))
    {
      hide ActivateAll, SectorReady, Activate, Activating;
      activated, begun, allocations, list := [], map[], pendingDealAllocationIds, [];
      ghost var spec := s0;
      assert sectors[..0] == [];
      ActivatingNone(s0, miner, now);
      for i := 0 to |sectors|
        invariant spec == ActivateAll(s0, miner, sectors[..i], now)
        invariant Activating(s0, spec, miner, begun, allocations, list)
        invariant |activated| == i
        invariant forall k :: 0 <= k < i ==>
          (activated[k] <==> SectorReady(ActivateAll(s0, miner, sectors[..k], now), miner, sectors[k], now))
      {
        var sector := sectors[i];
        ActivateNext(s0, miner, sectors, i, now);
        ActivatingIs(s0, spec, miner, begun, allocations, list);
        var ready := ValidateSector(sector, miner, now, begun, spec);
        activated := activated + [ready];
        if ready {
          ActivatingMore(s0, spec, miner, begun, allocations, list, sector.number, IdSet(sector.ids), now);
          begun := begun + (map d | d in IdSet(sector.ids)
                              :: DealState(sector.number, now, EPOCH_UNDEFINED, EPOCH_UNDEFINED));
          allocations := allocations - IdSet(sector.ids);
          list := list + [(sector.number, IdSet(sector.ids))];
        }
        spec := ActivateSector(spec, miner, sector, now);
      }
      assert sectors[..|sectors|] == sectors;
    }

    /** Activates deals sector by sector; each sector's deals together or not at all. */
    method BatchActivateDealsCall(miner: Address, sectors: seq<SectorDeals>, now: Epoch) returns (activated: seq<bool>)
      requires Inv(View()) && Enabled(View(), Event(now, BatchActivateDeals(miner, sectors)))
      modifies this
      ensures View() == Apply(old(View()), Event(now, BatchActivateDeals(miner, sectors)))
      ensures |activated| == |sectors|
      ensures forall i :: 0 <= i < |sectors| ==>
        (activated[i] <==>
          SectorReady(ActivateAll(Tick(old(View()), now), miner, sectors[..i], now), miner, sectors[i], now))
      ensures Places(Tick(old(View()), now), miner, sectors, now, activated)
      ensures StartedIn(old(View()), View(), sectors, now, activated)
    {
      hide InvDuring, ActivateAll, SectorReady, IndexAll, Apply, Activating, Tracks, Places, StartedIn;
      ApplyIs(View(), now);
      TickKeeps(View(), now);
      StartCall(now);
      ghost var s0 := View();
      var begun, allocations, list;
      activated, begun, allocations, list := PlanActivation(miner, sectors, now, s0);
      PlacesIff(s0, miner, sectors, now, activated);
      StartedIs(s0, miner, sectors, now, activated);
      StartedTick(old(View()), ActivateAll(s0, miner, sectors, now), sectors, now, activated);
      ActivatingIs(s0, ActivateAll(s0, miner, sectors, now), miner, begun, allocations, list);
      WriteActivation(miner, begun, allocations, list);
    }

    method WriteActivation(miner: Address, begun: map<DealId, DealState>, allocations: map<DealId, AllocationId>,
                           list: seq<(SectorNumber, set<DealId>)>)
      modifies `states, `sectorDeals, `pendingDealAllocationIds
      ensures states == old(states) + begun && pendingDealAllocationIds == allocations
      ensures sectorDeals == IndexAll(old(sectorDeals), miner, list)
    {
      states := states + begun;
      assert list[..0] == [];
      for i := 0 to |list|
        invariant sectorDeals == IndexAll(old(sectorDeals), miner, list[..i]) && states == old(states) + begun
      {
        assert list[..i + 1][..i] == list[..i];
        var key := (miner, list[i].0);
        var ids := list[i].1;
        if key in sectorDeals {
          ids := ids + sectorDeals[key];
        }
        assert ids == Entry(sectorDeals, key) + list[i].1;
        sectorDeals := sectorDeals[key := ids];
      }
      assert list[..|list|] == list;
      pendingDealAllocationIds := allocations;
    }

    /** Accepts each piece of a sector on its own; the first fitting piece for a deal is the one taken. */
    method AcceptPieces(change: SectorChange, miner: Address, now: Epoch, begun: map<DealId, DealState>,
                        ghost spec: State)
      returns (ids: set<DealId>, taken: seq<bool>)
      requires spec.proposals == proposals && spec.pending == pendingProposals && spec.states == states + begun
      ensures ids == Accepted(spec, miner, change.commitment, change.pieces, now)
      ensures TakesPieces(spec, miner, change, now, taken)
    {
      hide Accepted, CanActivate;
      ids, taken := {}, [];
      AcceptedNone(spec, miner, change.commitment, now);
      for i := 0 to |change.pieces|
        invariant ids == Accepted(spec, miner, change.commitment, change.pieces[..i], now)
        invariant |taken| == i
        invariant forall k :: 0 <= k < i ==>
          (taken[k] <==> PieceFits(spec, miner, change.commitment, change.pieces[k], now)
                         && forall l :: 0 <= l < k && taken[l] ==> change.pieces[l].deal != change.pieces[k].deal)
        invariant forall d: DealId :: d in ids <==>
          exists k :: 0 <= k < i && taken[k] && change.pieces[k].deal == Some(d)
      {
        var piece := change.pieces[i];
        var take := false;
        assert change.pieces[..i + 1] == change.pieces[..i] + [piece];
        AcceptedMore(spec, miner, change.commitment, change.pieces[..i], piece, now);
        if piece.deal.Some? {
          var d := piece.deal.value;
          CanActivateIs(spec, d, miner, change.commitment, now);
          if d !in begun && d !in ids && Preactivates(d, miner, change.commitment, now) {
            take := piece.data == proposals[d].pieceCid && piece.size == proposals[d].pieceSize;
          }
          assert PieceFits(spec, miner, change.commitment, piece, now) && d !in ids <==> take;
          if take { ids := ids + {d}; }
        }
        taken := taken + [take];
      }
      assert change.pieces[..|change.pieces|] == change.pieces;
    }

    /** Works out what activating deals piece by piece is to write. */
    method PlanChanges(miner: Address, changes: seq<SectorChange>, now: Epoch, ghost s0: State)
      returns (accepted: seq<seq<bool>>, begun: map<DealId, DealState>, allocations: map<DealId, AllocationId>,
               list: seq<(SectorNumber, set<DealId>)>)
      requires View() == s0
      ensures Activating(s0, ChangeAll(s0, miner, changes, now), miner, begun, allocations, list)
      ensures |accepted| == |changes|
      ensures forall i :: 0 <= i < |changes| ==>
        TakesPieces(ChangeAll(s0, miner, changes[..i], now), miner, changes[i], now, accepted[i])
    {
      hide ChangeAll, Activate, Accepted, Activating, TakesPieces;
      accepted, begun, allocations, list := [], map[], pendingDealAllocationIds, [];
      ghost var spec := s0;
      assert changes[..0] == [];
      ActivatingNone(s0, miner, now);
      for i := 0 to |changes|
        invariant spec == ChangeAll(s0, miner, changes[..i], now)
        invariant Activating(s0, spec, miner, begun, allocations, list)
        invariant |accepted| == i
        invariant forall k :: 0 <= k < i ==>
          TakesPieces(ChangeAll(s0, miner, changes[..k], now), miner, changes[k], now, accepted[k])
      {
        var change := changes[i];
        ChangeNext(s0, miner, changes, i, now);
        ActivatingIs(s0, spec, miner, begun, allocations, list);
        var ids, taken := AcceptPieces(change, miner, now, begun, spec);
        ActivatingMore(s0, spec, miner, begun, allocations, list, change.number, ids, now);
        begun := begun + (map d | d in ids :: DealState(change.number, now, EPOCH_UNDEFINED, EPOCH_UNDEFINED));
        allocations := allocations - ids;
        list := list + [(change.number, ids)];
        accepted := accepted + [taken];
        spec := ChangeSector(spec, miner, change, now);
      }
      assert changes[..|changes|] == changes;
    }

    /** Activates deals piece by piece, and reports which pieces it took. */
    method SectorContentChangedCall(miner: Address, changes: seq<SectorChange>, now: Epoch)
      returns (accepted: seq<seq<bool>>)
      requires Inv(View()) && Enabled(View(), Event(now, SectorContentChanged(miner, changes)))
      modifies this
      ensures View() == Apply(old(View()), Event(now, SectorContentChanged(miner, changes)))
      ensures |accepted| == |changes|
      ensures forall i :: 0 <= i < |changes| ==>
        TakesPieces(ChangeAll(Tick(old(View()), now), miner, changes[..i], now), miner, changes[i], now, accepted[i])
      ensures AcceptsExactly(Tick(old(View()), now), miner, changes, now, accepted)
      ensures StartedBy(old(View()), View(), changes, now, accepted)
    {
      hide TakesPieces, InvDuring, ChangeAll, IndexAll, Apply, Activating, Tracks, AcceptsExactly, StartedBy;
      ApplyIs(View(), now);
      TickKeeps(View(), now);
      StartCall(now);
      ghost var s0 := View();
      var begun, allocations, list;
      accepted, begun, allocations, list := PlanChanges(miner, changes, now, s0);
      AcceptsIff(s0, miner, changes, now, accepted);
      StartedByIs(s0, miner, changes, now, accepted);
      StartedByTick(old(View()), ChangeAll(s0, miner, changes, now), changes, now, accepted);
      ActivatingIs(s0, ChangeAll(s0, miner, changes, now), miner, begun, allocations, list);
      WriteActivation(miner, begun, allocations, list);
    }
  }

  lemma CanActivateIs(s: State, d: DealId, miner: Address, commitment: Epoch, now: Epoch)
    ensures CanActivate(s, d, miner, commitment, now) <==>
      && d in s.proposals
      && s.proposals[d].provider == miner && now <= s.proposals[d].start && s.proposals[d].end <= commitment
      && d !in s.states && s.proposals[d] in s.pending
  {
  }

  lemma AcceptedNone(s: State, miner: Address, commitment: Epoch, now: Epoch)
    ensures Accepted(s, miner, commitment, [], now) == {}
  {
  }

  lemma AcceptedMore(s: State, miner: Address, commitment: Epoch, pieces: seq<Piece>, piece: Piece, now: Epoch)
    ensures Accepted(s, miner, commitment, pieces + [piece], now) == Accepted(s, miner, commitment, pieces, now)
      + if PieceFits(s, miner, commitment, piece, now) then {piece.deal.value} else {}
  {
    hide CanActivate;
    forall d: DealId ensures d in Accepted(s, miner, commitment, pieces + [piece], now) <==>
      d in Accepted(s, miner, commitment, pieces, now)
        || (PieceFits(s, miner, commitment, piece, now) && d == piece.deal.value)
    {
      if PieceFits(s, miner, commitment, piece, now) {
        assert piece in pieces + [piece];
      }
    }
  }

  lemma ActivatingNone(s: State, miner: Address, now: Epoch)
    ensures ActivateAll(s, miner, [], now) == s && ChangeAll(s, miner, [], now) == s
    ensures Activating(s, s, miner, map[], s.allocations, [])
  {
    assert s.states + map[] == s.states;
  }

  lemma ActivatingIs(s: State, spec: State, miner: Address, begun: map<DealId, DealState>,
                     allocations: map<DealId, AllocationId>, list: seq<(SectorNumber, set<DealId>)>)
    requires Activating(s, spec, miner, begun, allocations, list)
    ensures spec.proposals == s.proposals && spec.pending == s.pending && spec.states == s.states + begun
    ensures spec == s.(states := s.states + begun, allocations := allocations,
                       sectorDeals := IndexAll(s.sectorDeals, miner, list))
  {
    hide IndexAll;
  }

  lemma BatchSound(s: State, provider: Address, now: Epoch, b: Batch)
    requires BatchOk(s, provider, now, b)
    ensures forall p :: p in b.valid ==> p.Sound()
  {
    hide Need, ClientNeed, Covered;
  }

  lemma PublishNone(s: State, allocations: map<Proposal, AllocationId>)
    ensures PublishAll(s, [], allocations) == s
  {
  }

  lemma {:induction false} NotAllLockable(l: Ledger, ps: seq<Proposal>, i: nat)
    requires i < |ps| && !Lockable(LockAll(l, ps[..i]), ps[i])
    ensures !AllLockable(l, ps)
  {
    hide Lockable;
    var pre := ps[..|ps| - 1];
    if i < |pre| {
      assert pre[..i] == ps[..i];
      NotAllLockable(l, pre, i);
    }
  }

  ghost predicate SameDeal(s: State, s': State, d: DealId) {
    && (d in s.proposals <==> d in s'.proposals) && (d in s.proposals ==> s.proposals[d] == s'.proposals[d])
    && (d in s.states <==> d in s'.states) && (d in s.states ==> s.states[d] == s'.states[d])
  }

  /** What is left of the fee when a deal ends at `slash`, which must not be after its end. */
  function PaymentRemaining(p: Proposal, slash: Epoch): (r: Option<int>)
    ensures r.Some? <==> slash <= p.end && p.start <= p.end
    ensures r.Some? ==> p.Fee(p.start, Max(slash, p.start)) + r.value == p.TotalFee()
    ensures r.Some? ==> r.value == p.Fee(Max(slash, p.start), p.end)
  {
    if slash > p.end then None else
      var from := Max(slash, p.start);
      var remaining := p.end - from;
      if remaining < 0 then None else Some(p.price * remaining)
  }

  /** The ledger once a deal paid for until `from` is slashed at `slash`. */
  ghost function SlashedAt(l: Ledger, p: Proposal, from: Epoch, slash: Epoch): Ledger {
    Forfeit(Pay(l, p, p.Fee(from, Max(slash, from))), p, p.Fee(Max(slash, p.start), p.end))
  }

  /** A slash before the payments have begun pays nothing. */
  lemma PayAtMost(l: Ledger, p: Proposal, from: Epoch, slash: Epoch)
    requires p.Sound()
    ensures Pay(l, p, p.Fee(from, slash)) == Pay(l, p, p.Fee(from, Max(slash, from)))
    ensures slash < from ==> p.Fee(from, slash) <= 0
  {
    hide Proposal.Fee, Transfer;
    FeeSplits(p, slash, from, slash);
    FeeSplits(p, slash, slash, slash);
    FeeSplits(p, from, from, from);
  }

  lemma SlashTakes(l: Ledger, p: Proposal, from: Epoch, slash: Epoch)
    requires p.Sound() && p.start <= from <= p.end && slash <= p.end
    requires p.price == 0 || from <= Max(slash, p.start)
    ensures Covers(l, p, p.Fee(from, p.end)) ==>
      var due := p.Fee(from, Max(slash, from));
      var rest := p.Fee(Max(slash, p.start), p.end);
      && 0 <= due <= Get(l.locked, p.client) && due <= Get(l.escrow, p.client)
      && rest >= 0 && Covers(Pay(l, p, due), p, rest)
      && SlashedAt(l, p, from, slash) == Forfeit(Pay(l, p, due), p, rest)
  {
    hide Pay, Forfeit, Covers, Proposal.Fee;
    SlashNeeds(l, p, from, slash);
  }

  /** A covered deal can pay the fee up to the slash, and holds the rest. */
  lemma SlashPays(l: Ledger, p: Proposal, from: Epoch, slash: Epoch)
    requires p.Sound() && p.start <= from && slash <= p.end && (from <= slash || from == p.start)
    ensures Covers(l, p, p.Fee(from, p.end)) ==>
      var due := p.Fee(from, slash);
      var rest := p.Fee(Max(slash, p.start), p.end);
      && (due <= 0 || (due <= Get(l.locked, p.client) && due <= Get(l.escrow, p.client)))
      && rest >= 0 && Covers(Pay(l, p, due), p, rest)
      && SlashedAt(l, p, from, slash) == Forfeit(Pay(l, p, due), p, rest)
  {
    hide Pay, Forfeit, Covers, Proposal.Fee;
    SlashNeeds(l, p, from, slash);
    PayAtMost(l, p, from, slash);
  }

  /** A covered deal can pay up to its termination and still hold the rest. */
  lemma SlashNeeds(l: Ledger, p: Proposal, from: Epoch, slash: Epoch)
    requires p.Sound() && p.start <= from <= p.end && slash <= p.end
    requires p.price == 0 || from <= Max(slash, p.start)
    ensures Covers(l, p, p.Fee(from, p.end)) ==>
      var due := p.Fee(from, Max(slash, from));
      var rest := p.Fee(Max(slash, p.start), p.end);
      && 0 <= due <= Get(l.locked, p.client) && due <= Get(l.escrow, p.client)
      && rest >= 0 && Covers(Pay(l, p, due), p, rest)
  {
    hide Pay, Proposal.Fee;
    if Covers(l, p, p.Fee(from, p.end)) {
      var mid := Max(slash, from);
      FeeSplits(p, from, mid, p.end);
      FeeSplits(p, mid, p.end, p.end);
      if p.price == 0 {
        FreeDeal(p);
      }
      PayMoves(l, p, p.Fee(from, p.end), p.Fee(from, mid));
      assert ShareOf(p, p.Fee(from, p.end), p.client) <= Get(l.locked, p.client) <= Get(l.escrow, p.client);
    }
  }

  lemma InvIndex(s: State)
    requires Inv(s)
    ensures IndexOk(s)
  {
    hide DealsOk, LockedOk, TotalsOk, PendingOk, ScheduleOk, IndexOk, RecordsOk, FundsOk;
  }

  lemma ListedIsOwn(s: State, miner: Address, numbers: set<SectorNumber>, d: DealId)
    requires Inv(s) && d in Listed(s, miner, numbers)
    ensures d in s.proposals && d in s.states && s.proposals[d].provider == miner
    ensures (miner, s.states[d].sector) in KeysOf(miner, numbers)
  {
    hide DealsOk, LockedOk, TotalsOk, PendingOk, ScheduleOk, RecordsOk, FundsOk, Entry;
  }

  lemma OneSector(s: State, k: SectorKey, l: SectorKey, d: DealId)
    requires IndexOk(s) && d in Entry(s.sectorDeals, k) && d in Entry(s.sectorDeals, l)
    ensures k == l
  {
    hide Entry;
    assert k == (s.proposals[d].provider, s.states[d].sector) == l;
  }

  /** Distinct sectors list distinct deals. */
  lemma ListedMore(s: State, miner: Address, numbers: set<SectorNumber>, n: SectorNumber, list: seq<DealId>,
                   more: seq<DealId>)
    requires IndexOk(s) && n !in numbers
    requires Enumerates(list, Listed(s, miner, numbers)) && Enumerates(more, Entry(s.sectorDeals, (miner, n)))
    ensures Enumerates(list + more, Listed(s, miner, numbers + {n}))
  {
    hide Entry;
    forall d: DealId | d in more ensures d !in list {
      if d in list {
        var m :| m in numbers && d in Entry(s.sectorDeals, (miner, m));
        OneSector(s, (miner, m), (miner, n), d);
      }
    }
    DistinctAppend(list, more);
    forall d: DealId ensures d in list + more <==> d in Listed(s, miner, numbers + {n}) {
      if d in Listed(s, miner, numbers + {n}) {
        var m :| m in numbers + {n} && d in Entry(s.sectorDeals, (miner, m));
      }
    }
  }

  method Listing(ids: set<DealId>) returns (list: seq<DealId>)
    ensures Enumerates(list, ids)
  {
    list := [];
    var rest := ids;
    while rest != {}
      invariant rest <= ids && Enumerates(list, ids - rest)
      decreases rest
    {
      var d :| d in rest;
      list := list + [d];
      rest := rest - {d};
    }
    assert ids - {} == ids;
  }

  lemma GroupedNone(now: Epoch)
    ensures Grouped({}, now) == map[]
  {
  }

  /** The deals visited are those planned from the last tick up to, not including, epoch `i`. */
  ghost predicate VisitedBefore(s: State, order: seq<DealId>, last: Epoch, i: Epoch) {
    && Distinct(order)
    && forall d: DealId :: d in order <==> exists e :: last < e < i && Planned(s.ops, e, d)
  }

  lemma VisitedAreDue(s: State, order: seq<DealId>, i: Epoch, now: Epoch)
    requires VisitedBefore(s, order, s.lastCron, i) && i <= now + 1
    ensures forall d: DealId :: d in order ==> d in Due(s, now)
  {
    forall d: DealId | d in order ensures d in Due(s, now) {
      var e :| s.lastCron < e < i && Planned(s.ops, e, d);
      assert e in s.ops && d in s.ops[e];
    }
  }

  /** Every deal is planned once, so an epoch's deals are none of those visited before. */
  lemma EpochIsNew(s: State, order: seq<DealId>, ids: seq<DealId>, i: Epoch, now: Epoch)
    requires Inv(s) && s.lastCron < i <= now && VisitedBefore(s, order, s.lastCron, i)
    requires Enumerates(ids, if i in s.ops then s.ops[i] else {})
    ensures VisitedBefore(s, order + ids, s.lastCron, i + 1) && IdSet(order + ids) <= Due(s, now)
  {
    hide InvDuring;
    forall d: DealId | d in ids ensures d !in order && Planned(s.ops, i, d) {
      if d in order {
        var e :| s.lastCron < e < i && Planned(s.ops, e, d);
        PlannedOnce(s, e, i, d);
      }
    }
    DistinctAppend(order, ids);
    forall d: DealId ensures d in order + ids <==> exists e :: s.lastCron < e < i + 1 && Planned(s.ops, e, d) {
    }
    VisitedAreDue(s, order + ids, i + 1, now);
  }

  lemma DistinctAppend(xs: seq<DealId>, ys: seq<DealId>)
    requires Distinct(xs) && Distinct(ys) && forall y :: y in ys ==> y !in xs
    ensures Distinct(xs + ys)
  {
    forall i, j | 0 <= i < j < |xs + ys| ensures (xs + ys)[i] != (xs + ys)[j] {
      if i < |xs| <= j {
        assert ys[j - |xs|] in ys && xs[i] in xs;
      }
    }
  }

  lemma OrderIsDue(s: State, order: seq<DealId>, now: Epoch)
    requires VisitedBefore(s, order, s.lastCron, now + 1)
    ensures Enumerates(order, Due(s, now))
  {
    VisitedAreDue(s, order, now + 1, now);
    forall d: DealId | d in Due(s, now) ensures d in order {
      var e :| e in s.ops && s.lastCron < e <= now && d in s.ops[e];
      assert Planned(s.ops, e, d);
    }
  }

  /** What the invariant gives a step on deal `d`. */
  lemma DealReady(s: State, d: DealId, now: Epoch, horizon: Epoch, todo: set<DealId>)
    requires InvDuring(s, horizon, todo) && s.history.clock == now && d in s.proposals
    ensures var p := s.proposals[d];
      && p.Sound() && Get(s.ledger.escrow, p.provider) >= 0
      && Covers(s.ledger, p, p.Fee(PaidUntil(s, d), p.end))
      && (d !in s.states ==> p in s.pending && PaidUntil(s, d) == p.start)
      && (d in s.states ==>
            && d !in s.allocations
            && PaidUntil(s, d) == Max(p.start, s.states[d].lastUpdated)
            && s.states[d].lastUpdated <= now && s.states[d].lastUpdated < p.end
            && s.states[d].sectorStart != EPOCH_UNDEFINED && s.states[d].slashEpoch == EPOCH_UNDEFINED
            && SettlePending(s, d) == if s.states[d].lastUpdated == EPOCH_UNDEFINED then s.pending - {p} else s.pending)
  {
    hide LockedOk, TotalsOk, ScheduleOk, IndexOk, RecordsOk, FundsOk, Fresh, Proposal.Fee, Covers;
    DealCovered(s, d);
    LockedNonNegative(s, s.proposals[d].provider);
  }

  lemma FeeIs(p: Proposal, lo: Epoch, hi: Epoch)
    ensures p.price * (hi - lo) == p.Fee(lo, hi)
  {
  }

  lemma PayNothing(l: Ledger, p: Proposal)
    ensures Pay(l, p, 0) == l
  {
  }

  lemma ExpireNeeds(l: Ledger, p: Proposal)
    requires p.Sound()
    ensures Covers(l, p, 0) ==>
      && p.providerCollateral <= Get(l.locked, p.provider)
      && p.clientCollateral <= Get(Unlock(l, p.provider, p.providerCollateral, ProviderCollateral).locked, p.client)
  {
    hide Sum, Add, Proposal.Fee;
    if Covers(l, p, 0) {
      assert ShareOf(p, 0, p.provider) <= Get(l.locked, p.provider);
      assert ShareOf(p, 0, p.client) <= Get(l.locked, p.client);
      UnlockEffect(l, p.provider, p.providerCollateral, ProviderCollateral);
    }
  }

  /** A covered deal can pay what is due and then, at its end, release what it holds. */
  lemma AdvanceNeeds(l: Ledger, p: Proposal, from: Epoch, now: Epoch)
    requires p.Sound() && p.start <= from <= p.end && from <= now
    ensures Covers(l, p, p.Fee(from, p.end)) ==>
      var due := p.Fee(from, Min(p.end, now));
      && 0 <= due <= Get(l.locked, p.client) && due <= Get(l.escrow, p.client)
      && (now >= p.end ==> Covers(Pay(l, p, due), p, 0))
  {
    hide Pay, Proposal.Fee;
    if Covers(l, p, p.Fee(from, p.end)) {
      FeeSplits(p, from, Min(p.end, now), p.end);
      FeeSplits(p, Min(p.end, now), p.end, p.end);
      PayMoves(l, p, p.Fee(from, p.end), p.Fee(from, Min(p.end, now)));
      assert ShareOf(p, p.Fee(from, p.end), p.client) <= Get(l.locked, p.client) <= Get(l.escrow, p.client);
    }
  }

  lemma ForfeitNeeds(l: Ledger, p: Proposal, fee: int)
    requires p.Sound() && fee >= 0
    ensures Covers(l, p, fee) ==>
      var l1 := Unlock(l, p.client, fee, ClientStorageFee);
      var l2 := Unlock(l1, p.client, p.clientCollateral, ClientCollateral);
      && fee <= Get(l.locked, p.client) && p.clientCollateral <= Get(l1.locked, p.client)
      && p.providerCollateral <= Get(l2.escrow, p.provider) && p.providerCollateral <= Get(l2.locked, p.provider)
  {
    hide Sum, Add, Proposal.Fee;
    if Covers(l, p, fee) {
      assert ShareOf(p, fee, p.provider) <= Get(l.locked, p.provider) <= Get(l.escrow, p.provider);
      assert ShareOf(p, fee, p.client) <= Get(l.locked, p.client);
      UnlockEffect(l, p.client, fee, ClientStorageFee);
      UnlockEffect(Unlock(l, p.client, fee, ClientStorageFee), p.client, p.clientCollateral, ClientCollateral);
    }
  }

  lemma MissActivationNeeds(l: Ledger, p: Proposal)
    requires p.Sound()
    ensures Covers(l, p, p.TotalFee()) ==> Get(Forfeit(l, p, p.TotalFee()).locked, p.provider) >= 0
  {
    hide Sum, Add, Proposal.Fee, Forfeit;
    FeeSplits(p, p.start, p.end, p.end);
    if Covers(l, p, p.TotalFee()) {
      ForfeitMoves(l, p, p.TotalFee());
      assert ShareOf(p, p.TotalFee(), p.provider) <= Get(l.locked, p.provider);
    }
  }
}
