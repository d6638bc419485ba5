/** Whole actor calls as functions of the state, and the invariant through each of them. */
module MarketCalls {
  import opened Arithmetic
  import opened BalanceTable
  import opened Deals
  import opened FiniteSums
  import opened MarketFrames
  import opened MarketInvariant
  import opened MarketLedger
  import opened MarketSchedule
  import opened MarketState
  import opened MarketSteps

  // ---------- Deposits and withdrawals ----------

  function Deposit(s: State, a: Address, amount: int): State {
    s.(ledger := s.ledger.(escrow := Add(s.ledger.escrow, a, amount)),
       history := s.history.(net := s.history.net[a := Get(s.history.net, a) + amount],
                             deposited := s.history.deposited + amount))
  }

  function Withdraw(s: State, a: Address, extracted: int, escrow: Table): State {
    s.(ledger := s.ledger.(escrow := escrow),
       history := s.history.(net := s.history.net[a := Get(s.history.net, a) - extracted],
                             withdrawn := s.history.withdrawn + extracted))
  }

  /** Escrow and the net deposit of one account move together; nothing else does. */
  lemma EscrowFrame(s: State, s': State, a: Address, amount: int)
    requires Inv(s)
    requires s' == s.(ledger := s.ledger.(escrow := s'.ledger.escrow),
                      history := s.history.(net := s.history.net[a := Get(s.history.net, a) + amount],
                                            deposited := s'.history.deposited, withdrawn := s'.history.withdrawn))
    requires s'.history.deposited - s'.history.withdrawn == s.history.deposited - s.history.withdrawn + amount
    requires forall b: Address :: Get(s'.ledger.escrow, b) == Get(s.ledger.escrow, b) + (if a == b then amount else 0)
    requires Sum(s'.ledger.escrow) == Sum(s.ledger.escrow) + amount
    requires Get(s.ledger.locked, a) <= Get(s'.ledger.escrow, a)
    ensures Inv(s')
  {
    hide Sum, RecordsOk, PendingOk, ScheduleOk, DealsOk, IndexOk, Proposal.Fee, ShareOf, FlowOf, TotalsOk;
    EscrowIndex(s, s');
    EscrowRecords(s, s');
    ScheduleFrame(s, s', s.lastCron, {});
    forall b: Address ensures Shares(s', b) == Shares(s, b) && Flows(s', b) == Flows(s, b) {}
    forall b: Address ensures Get(s'.ledger.locked, b) <= Get(s'.ledger.escrow, b) {
      assert Get(s.ledger.locked, b) <= Get(s.ledger.escrow, b);
    }
    forall b: Address ensures Get(s'.ledger.escrow, b) == Get(s'.history.net, b) + Sum(Flows(s', b)) {
      assert Get(s.ledger.escrow, b) == Get(s.history.net, b) + Sum(Flows(s, b));
    }
    assert Burns(s') == Burns(s);
  }

  lemma EscrowIndex(s: State, s': State)
    requires DealsOk(s) && IndexOk(s)
    requires s'.proposals == s.proposals && s'.states == s.states && s'.sectorDeals == s.sectorDeals
    requires s'.nextId == s.nextId && s'.allocations == s.allocations && s'.history.clock == s.history.clock
    ensures DealsOk(s') && IndexOk(s')
  {
    hide Entry;
  }

  lemma EscrowRecords(s: State, s': State)
    requires RecordsOk(s) && TotalsOk(s)
    requires s'.proposals == s.proposals && s'.states == s.states && s'.nextId == s.nextId
    requires s'.history.records == s.history.records
    requires s'.ledger == s.ledger.(escrow := s'.ledger.escrow)
    ensures RecordsOk(s') && TotalsOk(s')
  {
    hide RecordOk, Sum, Proposal.Fee;
    assert forall d: DealId :: d in s.proposals ==>
      PaidUntil(s', d) == PaidUntil(s, d) && Unpaid(s', d) == Unpaid(s, d);
    assert ClientCollaterals(s') == ClientCollaterals(s);
    assert ProviderCollaterals(s') == ProviderCollaterals(s);
    assert UnpaidFees(s') == UnpaidFees(s);
  }

  lemma DepositKeeps(s: State, a: Address, amount: int)
    requires Inv(s) && amount > 0
    ensures Inv(Deposit(s, a, amount))
  {
    hide InvDuring, Sum, Add;
    EscrowNonNegative(s, a);
    AddEffect(s.ledger.escrow, a, amount);
    EscrowFrame(s, Deposit(s, a, amount), a, amount);
  }

  lemma EscrowNonNegative(s: State, a: Address)
    requires Inv(s)
    ensures 0 <= Get(s.ledger.locked, a) <= Get(s.ledger.escrow, a)
  {
    hide PendingOk, ScheduleOk, IndexOk, RecordsOk, FundsOk, TotalsOk;
    LockedNonNegative(s, a);
  }

  lemma WithdrawKeeps(s: State, a: Address, amount: int)
    requires Inv(s) && amount >= 0
    ensures Get(s.ledger.escrow, a) >= 0 && Get(s.ledger.locked, a) >= 0
    ensures var r := SubtractWithMinimum(s.ledger.escrow, a, amount, Get(s.ledger.locked, a));
      Inv(Withdraw(s, a, r.0, r.1))
  {
    hide InvDuring, Sum, Add;
    EscrowNonNegative(s, a);
    var r := SubtractWithMinimum(s.ledger.escrow, a, amount, Get(s.ledger.locked, a));
    EscrowFrame(s, Withdraw(s, a, r.0, r.1), a, -r.0);
  }

  // ---------- Settlement ----------

  function SettleAll(s: State, ids: seq<DealId>, now: Epoch): State {
    if ids == [] then s else Settle(SettleAll(s, ids[..|ids| - 1], now), ids[|ids| - 1], now)
  }

  /** Settlement touches neither schedule, nor the clock, nor the last tick. */
  lemma SettleStill(s: State, d: DealId, now: Epoch)
    ensures Settle(s, d, now).ops == s.ops && Settle(s, d, now).lastCron == s.lastCron
    ensures Settle(s, d, now).history.clock == s.history.clock && Settle(s, d, now).nextId == s.nextId
  {
    hide Proposal.Fee, RemoveDeals, SettlePending, Pay, Expire, MissActivation;
  }

  lemma {:induction false} SettleAllKeeps(s: State, ids: seq<DealId>, now: Epoch)
    requires Inv(s) && s.history.clock == now
    ensures Inv(SettleAll(s, ids, now)) && SettleAll(s, ids, now).history.clock == now
  {
    hide InvDuring, Settle;
    if ids != [] {
      var t := SettleAll(s, ids[..|ids| - 1], now);
      SettleAllKeeps(s, ids[..|ids| - 1], now);
      SettleKeeps(t, ids[|ids| - 1], now, t.lastCron, {});
      SettleStill(t, ids[|ids| - 1], now);
    }
  }

  // ---------- Termination ----------

  function TerminateAll(s: State, ids: seq<DealId>, at: Epoch): State {
    if ids == [] then s else Terminate(TerminateAll(s, ids[..|ids| - 1], at), ids[|ids| - 1], at)
  }

  /** The deals listed for some sectors of a miner. */
  function Listed(s: State, miner: Address, sectors: set<SectorNumber>): set<DealId> {
    set n, d | n in sectors && d in Entry(s.sectorDeals, (miner, n)) :: d
  }

  function KeysOf(miner: Address, sectors: set<SectorNumber>): set<SectorKey> {
    set n | n in sectors :: (miner, n)
  }

  /** Ends the listed deals that have not expired, then forgets the sectors. */
  function TerminateSectors(s: State, miner: Address, sectors: set<SectorNumber>, order: seq<DealId>,
                            at: Epoch): State {
    var t := TerminateAll(s, order, at);
    t.(sectorDeals := t.sectorDeals - KeysOf(miner, sectors))
  }

  lemma TerminateStill(s: State, d: DealId, at: Epoch)
    ensures Terminate(s, d, at).ops == s.ops && Terminate(s, d, at).lastCron == s.lastCron
    ensures Terminate(s, d, at).history.clock == s.history.clock && Terminate(s, d, at).nextId == s.nextId
    ensures forall c: DealId :: c in Terminate(s, d, at).proposals ==>
      c in s.proposals && Terminate(s, d, at).proposals[c] == s.proposals[c]
    ensures forall c: DealId :: c in Terminate(s, d, at).states ==> c in s.states
    ensures d in Terminate(s, d, at).states && d in Terminate(s, d, at).proposals
      ==> Terminate(s, d, at).proposals[d].end <= at
  {
    hide Proposal.Fee, RemoveDeals, SettlePending, Pay, Forfeit;
  }

  /** Entries of the index only lose deals. */
  lemma TerminateEntries(s: State, d: DealId, at: Epoch, k: SectorKey)
    requires IndexOk(s)
    ensures Entry(Terminate(s, d, at).sectorDeals, k) <= Entry(s.sectorDeals, k)
  {
    hide Proposal.Fee, RemoveDeals, SettlePending, Pay, Forfeit, Entry;
    if d in s.proposals && d in s.states {
      EntryRemoved(s.sectorDeals, map[(s.proposals[d].provider, s.states[d].sector) := {d}], k);
    }
  }

  /** A termination leaves the other deals as they are. */
  lemma TerminateOthers(s: State, d: DealId, c: DealId, at: Epoch)
    requires c != d
    ensures var s' := Terminate(s, d, at);
      && (c in s'.proposals <==> c in s.proposals) && (c in s.proposals ==> s'.proposals[c] == s.proposals[c])
      && (c in s'.states <==> c in s.states) && (c in s.states ==> s'.states[c] == s.states[c])
      && (c in s'.history.records <==> c in s.history.records)
      && (c in s.history.records ==> s'.history.records[c] == s.history.records[c])
  {
    hide Forfeit, Pay, SettlePending, RemoveDeals, PaidUntil, Proposal.Fee;
  }

  lemma StaysTerminable(s: State, d: DealId, c: DealId, at: Epoch)
    requires Terminable(s, c, at)
    ensures Terminable(Terminate(s, d, at), c, at)
  {
    hide Forfeit, Pay, SettlePending, RemoveDeals, Proposal.Fee;
    if c != d {
      TerminateOthers(s, d, c, at);
    }
  }

  /** The current epoch, which is what a miner passes, will do for every deal. */
  lemma TerminableNow(s: State, d: DealId)
    requires Inv(s)
    ensures Terminable(s, d, s.history.clock)
  {
    hide LockedOk, TotalsOk, PendingOk, ScheduleOk, IndexOk, RecordsOk, FundsOk;
  }

  lemma {:induction false} TerminateAllKeeps(s: State, ids: seq<DealId>, at: Epoch, k: SectorKey)
    requires Inv(s) && (forall d: DealId :: d in ids ==> Terminable(s, d, at))
    ensures var t := TerminateAll(s, ids, at);
      && Inv(t) && t.history.clock == s.history.clock
      && (forall d: DealId :: Terminable(s, d, at) ==> Terminable(t, d, at))
      && Entry(t.sectorDeals, k) <= Entry(s.sectorDeals, k)
      && forall d: DealId :: d in ids && d in t.states && d in t.proposals ==> t.proposals[d].end <= at
  {
    hide DealsOk, LockedOk, TotalsOk, PendingOk, ScheduleOk, IndexOk, RecordsOk, FundsOk, Terminate, Entry, Terminable;
    if ids != [] {
      var t := TerminateAll(s, ids[..|ids| - 1], at);
      TerminateAllKeeps(s, ids[..|ids| - 1], at, k);
      TerminateKeeps(t, ids[|ids| - 1], at, t.lastCron, {});
      TerminateStill(t, ids[|ids| - 1], at);
      forall c: DealId | Terminable(t, c, at) ensures Terminable(Terminate(t, ids[|ids| - 1], at), c, at) {
        StaysTerminable(t, ids[|ids| - 1], c, at);
      }
      TerminateEntries(t, ids[|ids| - 1], at, k);
    }
  }

  lemma ForgetIndex(s: State, keys: set<SectorKey>)
    requires DealsOk(s) && IndexOk(s)
    requires forall k, d: DealId :: k in keys && d in Entry(s.sectorDeals, k) && d in s.proposals ==>
      s.proposals[d].end <= s.history.clock
    ensures var s' := s.(sectorDeals := s.sectorDeals - keys); DealsOk(s') && IndexOk(s')
  {
    var s' := s.(sectorDeals := s.sectorDeals - keys);
    forall k: SectorKey ensures Entry(s'.sectorDeals, k) == if k in keys then {} else Entry(s.sectorDeals, k) {}
  }

  lemma ForgetKeeps(s: State, keys: set<SectorKey>)
    requires Inv(s)
    requires forall k, d: DealId :: k in keys && d in Entry(s.sectorDeals, k) && d in s.proposals ==>
      s.proposals[d].end <= s.history.clock
    ensures Inv(s.(sectorDeals := s.sectorDeals - keys))
  {
    hide DealsOk, LockedOk, TotalsOk, PendingOk, ScheduleOk, IndexOk, RecordsOk, FundsOk, Entry;
    var s' := s.(sectorDeals := s.sectorDeals - keys);
    MoneyFrame(s, s');
    ScheduleFrame(s, s', s.lastCron, {});
    ForgetIndex(s, keys);
  }

  lemma ListedLive(s: State, k: SectorKey, d: DealId)
    requires Inv(s) && d in Entry(s.sectorDeals, k)
    ensures d in s.states && d in s.proposals
  {
    hide Entry;
  }

  lemma TerminateSectorsKeeps(s: State, miner: Address, sectors: set<SectorNumber>, order: seq<DealId>, at: Epoch)
    requires Inv(s) && (forall d: DealId :: d in Listed(s, miner, sectors) <==> d in order)
    requires forall d: DealId :: d in order ==> Terminable(s, d, at)
    ensures Inv(TerminateSectors(s, miner, sectors, order, at))
  {
    hide InvDuring, Entry, Listed, Terminable;
    var t := TerminateAll(s, order, at);
    TerminateAllKeeps(s, order, at, (miner, 0));
    forall k, d: DealId | k in KeysOf(miner, sectors) && d in Entry(t.sectorDeals, k) && d in t.proposals
      ensures t.proposals[d].end <= t.history.clock
    {
      TerminateAllKeeps(s, order, at, k);
      ListedLive(t, k, d);
      ListedIs(s, miner, sectors, k, d);
      OverIsOver(t, d, at);
    }
    ForgetKeeps(t, KeysOf(miner, sectors));
  }

  lemma ListedIs(s: State, miner: Address, sectors: set<SectorNumber>, k: SectorKey, d: DealId)
    requires k in KeysOf(miner, sectors) && d in Entry(s.sectorDeals, k)
    ensures d in Listed(s, miner, sectors)
  {
    hide Entry;
    assert k.1 in sectors && k == (miner, k.1);
  }

  lemma OverIsOver(s: State, d: DealId, at: Epoch)
    requires d in s.proposals && d in s.states && Terminable(s, d, at) && s.proposals[d].end <= at
    ensures s.proposals[d].end <= s.history.clock
  {
  }

  ghost predicate SameAt(s: State, s': State, d: DealId) {
    && (d in s'.proposals <==> d in s.proposals) && (d in s.proposals ==> s'.proposals[d] == s.proposals[d])
    && (d in s'.states <==> d in s.states) && (d in s.states ==> s'.states[d] == s.states[d])
    && (d in s'.history.records <==> d in s.history.records)
    && (d in s.history.records ==> s'.history.records[d] == s.history.records[d])
  }

  lemma {:induction false} TerminateAllOthers(s: State, ids: seq<DealId>, d: DealId, at: Epoch)
    requires d !in ids
    ensures SameAt(s, TerminateAll(s, ids, at), d)
  {
    hide Terminate;
    if ids != [] {
      var pre := ids[..|ids| - 1];
      TerminateAllOthers(s, pre, d, at);
      TerminateOthers(TerminateAll(s, pre, at), ids[|ids| - 1], d, at);
    }
  }

  /** Among distinct deals, each is terminated as if it were the only one. */
  lemma {:induction false} TerminateAllAt(s: State, ids: seq<DealId>, d: DealId, at: Epoch)
    requires d in ids && (forall i, j :: 0 <= i < j < |ids| ==> ids[i] != ids[j])
    ensures SameAt(Terminate(s, d, at), TerminateAll(s, ids, at), d)
  {
    hide Terminate;
    var pre, last := ids[..|ids| - 1], ids[|ids| - 1];
    if d == last {
      TerminateAllOthers(s, pre, d, at);
      TerminateSameAt(s, TerminateAll(s, pre, at), d, at);
    } else {
      TerminateAllAt(s, pre, d, at);
      TerminateOthers(TerminateAll(s, pre, at), last, d, at);
    }
  }

  lemma TerminateSameAt(s: State, s': State, d: DealId, at: Epoch)
    requires SameAt(s, s', d)
    ensures SameAt(Terminate(s, d, at), Terminate(s', d, at), d)
  {
    hide Forfeit, Pay, SettlePending, RemoveDeals, Proposal.Fee;
  }

  /** A termination before what has been paid for leaves a record that does not add up. */
  lemma TerminatedTooEarly(s: State, d: DealId, at: Epoch)
    requires DealsOk(s) && RecordsOk(s) && d in s.proposals && d in s.states
    requires at < s.proposals[d].end && !Terminable(s, d, at)
    ensures d in Terminate(s, d, at).history.records && !RecordOk(Terminate(s, d, at).history.records[d], 0)
    ensures d !in Terminate(s, d, at).proposals
  {
    hide Forfeit, Pay, SettlePending, RemoveDeals, Proposal.Fee;
    var p, from := s.proposals[d], PaidUntil(s, d);
    FeeSplits(p, from, from, from);
    FeeSplits(p, p.start, Max(at, p.start), from);
    FeeGrows(p, Max(at, p.start), from);
  }

  lemma FeeGrows(p: Proposal, a: Epoch, b: Epoch)
    requires p.price > 0 && a < b
    ensures p.Fee(a, b) > 0
  {
  }

  /** The specified effect keeps the invariant if and only if the epoch will do for every deal listed. */
  lemma TerminateSectorsKeepsIff(s: State, miner: Address, sectors: set<SectorNumber>, order: seq<DealId>, at: Epoch)
    requires Inv(s) && Enumerates(order, Listed(s, miner, sectors))
    ensures Inv(TerminateSectors(s, miner, sectors, order, at)) <==>
      forall d: DealId :: d in Listed(s, miner, sectors) ==> Terminable(s, d, at)
  {
    hide InvDuring, Listed, Terminable;
    if forall d: DealId :: d in Listed(s, miner, sectors) ==> Terminable(s, d, at) {
      TerminateSectorsKeeps(s, miner, sectors, order, at);
    } else {
      var d: DealId :| d in Listed(s, miner, sectors) && !Terminable(s, d, at);
      NotKept(s, miner, sectors, order, at, d);
    }
  }

  lemma NotKept(s: State, miner: Address, sectors: set<SectorNumber>, order: seq<DealId>, at: Epoch, d: DealId)
    requires Inv(s) && Enumerates(order, Listed(s, miner, sectors))
    requires d in Listed(s, miner, sectors) && !Terminable(s, d, at)
    ensures !Inv(TerminateSectors(s, miner, sectors, order, at))
  {
    hide LockedOk, TotalsOk, PendingOk, ScheduleOk, FundsOk, Terminable, Entry, TerminateAll, Terminate, RecordOk;
    var t := TerminateSectors(s, miner, sectors, order, at);
    var n: SectorNumber :| n in sectors && d in Entry(s.sectorDeals, (miner, n));
    TerminateAllAt(s, order, d, at);
    if s.proposals[d].end <= at {
      NotOver(s, d, at);
      TerminateAllClock(s, order, at);
      Forgotten(TerminateAll(s, order, at).sectorDeals, KeysOf(miner, sectors), (miner, n));
    } else {
      TerminatedTooEarly(s, d, at);
    }
  }

  lemma NotOver(s: State, d: DealId, at: Epoch)
    requires d in s.proposals && d in s.states && s.proposals[d].end <= at && !Terminable(s, d, at)
    ensures Terminate(s, d, at) == s && s.proposals[d].end > s.history.clock
  {
  }

  lemma Forgotten(index: map<SectorKey, set<DealId>>, keys: set<SectorKey>, k: SectorKey)
    requires k in keys
    ensures Entry(index - keys, k) == {}
  {
  }

  lemma {:induction false} TerminateAllClock(s: State, ids: seq<DealId>, at: Epoch)
    ensures TerminateAll(s, ids, at).history.clock == s.history.clock
  {
    hide Terminate;
    if ids != [] {
      TerminateAllClock(s, ids[..|ids| - 1], at);
      TerminateStill(TerminateAll(s, ids[..|ids| - 1], at), ids[|ids| - 1], at);
    }
  }

  // ---------- The tick ----------

  /** Visits deals in order, collecting those to be visited again. */
  function VisitAll(s: State, ids: seq<DealId>, now: Epoch): (State, set<DealId>) {
    if ids == [] then (s, {}) else
      var (t, again) := VisitAll(s, ids[..|ids| - 1], now);
      var (u, more) := Visit(t, ids[|ids| - 1], now);
      (u, if more then again + {ids[|ids| - 1]} else again)
  }

  function CronTick(s: State, order: seq<DealId>, now: Epoch): State {
    var (t, again) := VisitAll(s, order, now);
    t.(ops := Reschedule(t.ops, now, again), lastCron := now)
  }

  ghost predicate Enumerates(order: seq<DealId>, ids: set<DealId>) {
    && (forall d: DealId :: d in order <==> d in ids)
    && (forall i, j :: 0 <= i < j < |order| ==> order[i] != order[j])
  }

  /** What is due is still to be visited: the invariant as the tick begins. */
  lemma TickBegins(s: State, now: Epoch)
    requires Inv(s) && s.history.clock == now > s.lastCron
    ensures InvDuring(s, now, Due(s, now))
  {
    hide DealsOk, LockedOk, TotalsOk, IndexOk, RecordsOk, FundsOk, Fresh;
    var due := Due(s, now);
    forall d: DealId ensures d in due <==> exists e :: Planned(s.ops, e, d) && s.lastCron < e <= now {
      if d in due {
        var e :| e in s.ops && s.lastCron < e <= now && d in s.ops[e];
        assert Planned(s.ops, e, d);
      }
    }
    forall d: DealId ensures Scheduled(s.ops, now, due, d) <==> Scheduled(s.ops, s.lastCron, {}, d) {
      if Scheduled(s.ops, s.lastCron, {}, d) {
        var e :| Planned(s.ops, e, d) && e > s.lastCron;
      }
    }
  }

  lemma VisitStill(s: State, d: DealId, now: Epoch)
    requires now >= 0
    ensures Visit(s, d, now).0.ops == s.ops && Visit(s, d, now).0.lastCron == s.lastCron
    ensures Visit(s, d, now).0.history.clock == s.history.clock && Visit(s, d, now).0.nextId == s.nextId
    ensures forall c: DealId :: c in Visit(s, d, now).0.proposals ==>
      c in s.proposals && Visit(s, d, now).0.proposals[c] == s.proposals[c]
    ensures forall c: DealId :: !Fresh(s, c) ==> !Fresh(Visit(s, d, now).0, c)
  {
    hide Proposal.Fee, RemoveDeals, SettlePending, Pay, Expire, MissActivation;
  }

  lemma {:induction false} VisitAllKeeps(s: State, ids: seq<DealId>, now: Epoch, todo: set<DealId>)
    requires InvDuring(s, now, todo) && s.history.clock == now >= 0
    requires forall d: DealId :: d in ids ==> d in todo
    requires forall i, j :: 0 <= i < j < |ids| ==> ids[i] != ids[j]
    ensures var (t, again) := VisitAll(s, ids, now);
      && InvDuring(t, now, todo - (set d | d in ids))
      && t.ops == s.ops && t.lastCron == s.lastCron && t.history.clock == now && t.nextId == s.nextId
      && forall d: DealId :: d in again ==> d in ids && !Fresh(t, d)
  {
    hide InvDuring, Visit, Fresh;
    if ids == [] {
      assert todo - (set d | d in ids) == todo;
    } else {
      var pre, d := ids[..|ids| - 1], ids[|ids| - 1];
      VisitAllKeeps(s, pre, now, todo);
      var (t, again) := VisitAll(s, pre, now);
      var rest := todo - (set d | d in pre);
      assert ids == pre + [d];
      VisitKeeps(t, d, now, rest);
      VisitStill(t, d, now);
      assert rest - {d} == todo - (set d | d in ids);
    }
  }

  lemma PlannedAgain(ops: map<Epoch, set<DealId>>, now: Epoch, again: set<DealId>, e: Epoch, d: DealId)
    ensures Planned(Reschedule(ops, now, again), e, d) <==>
      e > now && (Planned(ops, e, d) || (d in again && e == VisitAgain(d, now)))
  {
    hide VisitAgain;
  }

  /** The tick ends with everything due visited and the next visits planned. */
  lemma TickEnds(s: State, now: Epoch, again: set<DealId>, due: set<DealId>)
    requires InvDuring(s, now, {}) && ScheduleOk(s, now, due) && 0 <= now == s.history.clock
    requires forall d: DealId :: d in again ==> d in due && !Fresh(s, d)
    ensures Inv(s.(ops := Reschedule(s.ops, now, again), lastCron := now))
  {
    hide DealsOk, LockedOk, TotalsOk, PendingOk, ScheduleOk, IndexOk, RecordsOk, FundsOk, Reschedule;
    var s' := s.(ops := Reschedule(s.ops, now, again), lastCron := now);
    MoneyFrame(s, s');
    EscrowIndex(s, s');
    RescheduleOk(s, now, again, due);
    ReschedulePending(s, now, again);
    RescheduleLater(s.ops, now, again);
  }

  lemma RescheduleLater(ops: map<Epoch, set<DealId>>, now: Epoch, again: set<DealId>)
    ensures forall e :: e in Reschedule(ops, now, again) ==> e > now
  {
  }

  lemma RescheduleOk(s: State, now: Epoch, again: set<DealId>, due: set<DealId>)
    requires ScheduleOk(s, now, due) && again <= due
    ensures ScheduleOk(s.(ops := Reschedule(s.ops, now, again), lastCron := now), now, {})
  {
    hide Planned, Reschedule, VisitAgain;
    forall e, d: DealId { PlannedAgain(s.ops, now, again, e, d); }
  }

  lemma ReschedulePending(s: State, now: Epoch, again: set<DealId>)
    requires PendingOk(s, now, {})
    requires forall d: DealId :: d in again ==> !Fresh(s, d)
    ensures PendingOk(s.(ops := Reschedule(s.ops, now, again), lastCron := now), now, {})
  {
    hide Planned, Reschedule, VisitAgain;
    var s' := s.(ops := Reschedule(s.ops, now, again), lastCron := now);
    forall d: DealId | Fresh(s, d) ensures Scheduled(s'.ops, now, {}, d) <==> Scheduled(s.ops, now, {}, d) {
      forall e { PlannedAgain(s.ops, now, again, e, d); }
    }
    assert forall d: DealId :: Fresh(s', d) <==> Fresh(s, d);
  }

  lemma CronKeeps(s: State, order: seq<DealId>, now: Epoch)
    requires Inv(s) && s.history.clock == now > s.lastCron && now >= 0 && Enumerates(order, Due(s, now))
    ensures Inv(CronTick(s, order, now)) && CronTick(s, order, now).history.clock == now
  {
    hide DealsOk, LockedOk, TotalsOk, PendingOk, ScheduleOk, IndexOk, RecordsOk, FundsOk, Fresh, Due, Reschedule;
    var due := Due(s, now);
    TickBegins(s, now);
    VisitAllKeeps(s, order, now, due);
    var (t, again) := VisitAll(s, order, now);
    assert due - (set d | d in order) == {};
    VisitAllSchedule(s, order, now, due);
    TickEnds(t, now, again, due);
  }

  lemma {:induction false} VisitAllSchedule(s: State, ids: seq<DealId>, now: Epoch, due: set<DealId>)
    requires ScheduleOk(s, now, due) && now >= 0
    ensures ScheduleOk(VisitAll(s, ids, now).0, now, due)
  {
    hide ScheduleOk, Visit, Fresh;
    if ids != [] {
      var (t, again) := VisitAll(s, ids[..|ids| - 1], now);
      VisitAllSchedule(s, ids[..|ids| - 1], now, due);
      VisitStill(t, ids[|ids| - 1], now);
      ScheduleShrinks(t, Visit(t, ids[|ids| - 1], now).0, now, due);
    }
  }
}
