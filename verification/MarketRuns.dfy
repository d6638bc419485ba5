/** Runs of the market: any calls, in any order, from the empty state. */
module MarketRuns {
  import opened Arithmetic
  import opened BalanceTable
  import opened Deals
  import opened FiniteSums
  import opened MarketActivation
  import opened MarketCalls
  import opened MarketInvariant
  import opened MarketLedger
  import opened MarketPublication
  import opened MarketSchedule
  import opened MarketState

  datatype Call =
    | AddBalance(account: Address, amount: int)
    | WithdrawBalance(account: Address, amount: int)
    | PublishStorageDeals(provider: Address, deals: seq<ClientDeal>, balances: Table, transferred: bool,
                          allocations: map<Proposal, AllocationId>)
    | BatchActivateDeals(miner: Address, sectors: seq<SectorDeals>)
    | SectorContentChanged(miner: Address, changes: seq<SectorChange>)
    | OnMinerSectorsTerminate(miner: Address, numbers: set<SectorNumber>, at: Epoch, order: seq<DealId>)
    | SettleDealPayments(ids: seq<DealId>)
    | EpochTick(order: seq<DealId>)

  datatype Event = Event(now: Epoch, call: Call)

  /** Time does not go back, the tick is the last call of its epoch, and deals are processed
      in some order that misses none (the one chosen by the underlying collections). A miner
      terminates deals as of an epoch that will do for all of them, such as the current one. */
  ghost predicate Enabled(s: State, e: Event) {
    && 0 <= e.now && s.history.clock <= e.now && s.lastCron < e.now
    && match e.call
       case OnMinerSectorsTerminate(miner, numbers, at, order) =>
         Enumerates(order, Listed(s, miner, numbers)) && forall d <- order :: Terminable(Tick(s, e.now), d, at)
       case EpochTick(order) => Enumerates(order, Due(s, e.now))
       case _ => true
  }

  /** The effect of one call. A call that aborts changes nothing. */
  function Apply(s: State, e: Event): State {
    var t := Tick(s, e.now);
    match e.call
    case AddBalance(a, amount) => if amount > 0 then Deposit(t, a, amount) else t
    case WithdrawBalance(a, amount) =>
      if amount >= 0 && Get(t.ledger.escrow, a) >= 0 && Get(t.ledger.locked, a) >= 0 then
        var r := SubtractWithMinimum(t.ledger.escrow, a, amount, Get(t.ledger.locked, a));
        Withdraw(t, a, r.0, r.1)
      else t
    case PublishStorageDeals(provider, deals, balances, transferred, allocations) =>
      PublishBatch(t, provider, e.now, balances, deals, transferred, allocations)
    case BatchActivateDeals(miner, sectors) => ActivateAll(t, miner, sectors, e.now)
    case SectorContentChanged(miner, changes) => ChangeAll(t, miner, changes, e.now)
    case OnMinerSectorsTerminate(miner, numbers, at, order) => TerminateSectors(t, miner, numbers, order, at)
    case SettleDealPayments(ids) => SettleAll(t, ids, e.now)
    case EpochTick(order) => CronTick(t, order, e.now)
  }

  lemma ApplyIs(s: State, now: Epoch)
    ensures forall ids :: Apply(s, Event(now, SettleDealPayments(ids))) == SettleAll(Tick(s, now), ids, now)
    ensures forall order :: Apply(s, Event(now, EpochTick(order))) == CronTick(Tick(s, now), order, now)
    ensures forall miner, numbers, at, order ::
              Apply(s, Event(now, OnMinerSectorsTerminate(miner, numbers, at, order))) ==
              TerminateSectors(Tick(s, now), miner, numbers, order, at)
    ensures forall miner, sectors ::
              Apply(s, Event(now, BatchActivateDeals(miner, sectors))) == ActivateAll(Tick(s, now), miner, sectors, now)
    ensures forall miner, changes ::
              Apply(s, Event(now, SectorContentChanged(miner, changes))) == ChangeAll(Tick(s, now), miner, changes, now)
    ensures forall provider, deals, balances, transferred, allocations ::
              Apply(s, Event(now, PublishStorageDeals(provider, deals, balances, transferred, allocations))) ==
              PublishBatch(Tick(s, now), provider, now, balances, deals, transferred, allocations)
  {
    hide SettleAll, CronTick, TerminateSectors, ActivateAll, ChangeAll, PublishBatch;
  }

  lemma TickFields(s: State, now: Epoch)
    ensures Due(Tick(s, now), now) == Due(s, now)
    ensures forall miner, numbers :: Listed(Tick(s, now), miner, numbers) == Listed(s, miner, numbers)
  {
  }

  /** Every call keeps the invariant. */
  lemma ApplyKeeps(s: State, e: Event)
    requires Inv(s) && Enabled(s, e)
    ensures Inv(Apply(s, e))
  {
    hide InvDuring, Deposit, Withdraw, SubtractWithMinimum, PublishBatch, ActivateAll, ChangeAll, TerminateSectors,
      SettleAll, CronTick, Due, Listed;
    TickKeeps(s, e.now);
    TickFields(s, e.now);
    var t := Tick(s, e.now);
    match e.call
    case AddBalance(a, amount) =>
      if amount > 0 { DepositKeeps(t, a, amount); }
    case WithdrawBalance(a, amount) =>
      if amount >= 0 { WithdrawKeeps(t, a, amount); }
    case PublishStorageDeals(provider, deals, balances, transferred, allocations) =>
      PublishBatchKeeps(t, provider, e.now, balances, deals, transferred, allocations);
    case BatchActivateDeals(miner, sectors) => ActivateAllKeeps(t, miner, sectors, e.now);
    case SectorContentChanged(miner, changes) => ChangeAllKeeps(t, miner, changes, e.now);
    case OnMinerSectorsTerminate(miner, numbers, at, order) => TerminateSectorsKeeps(t, miner, numbers, order, at);
    case SettleDealPayments(ids) => SettleAllKeeps(t, ids, e.now);
    case EpochTick(order) => CronKeeps(t, order, e.now);
  }

  function Run(events: seq<Event>): State {
    if events == [] then INITIAL else Apply(Run(events[..|events| - 1]), events[|events| - 1])
  }

  ghost predicate Possible(events: seq<Event>) {
    forall i :: 0 <= i < |events| ==> Enabled(Run(events[..i]), events[i])
  }

  lemma NothingHeld(a: Address)
    ensures Sum(Shares(INITIAL, a)) == 0
  {
    hide ShareOf, Unpaid;
    assert Shares(INITIAL, a) == map[];
  }

  lemma NothingFlowed(a: Address)
    ensures Sum(Flows(INITIAL, a)) == 0
  {
    hide FlowOf;
    assert Flows(INITIAL, a) == map[];
  }

  lemma NothingUnpaid()
    ensures Sum(UnpaidFees(INITIAL)) == 0
  {
    hide Unpaid;
    assert UnpaidFees(INITIAL) == map[];
  }

  lemma NothingInTotals()
    ensures Sum(ClientCollaterals(INITIAL)) == 0 && Sum(ProviderCollaterals(INITIAL)) == 0
    ensures Sum(Burns(INITIAL)) == 0
  {
    assert ClientCollaterals(INITIAL) == map[];
    assert ProviderCollaterals(INITIAL) == map[];
    assert Burns(INITIAL) == map[];
  }

  lemma NothingInTables()
    ensures Sum(INITIAL.ledger.escrow) == 0 && Sum(INITIAL.ledger.locked) == 0
  {
  }

  lemma InitialLocked()
    ensures LockedOk(INITIAL)
  {
    hide Shares, Sum;
    forall a: Address ensures Sum(Shares(INITIAL, a)) == 0 {
      NothingHeld(a);
    }
  }

  lemma InitialTotals()
    ensures TotalsOk(INITIAL)
  {
    hide UnpaidFees, ClientCollaterals, ProviderCollaterals, Sum;
    NothingUnpaid();
    NothingInTotals();
    NothingInTables();
  }

  lemma InitialFunds()
    ensures FundsOk(INITIAL)
  {
    hide Flows, Burns, Sum;
    forall a: Address ensures Sum(Flows(INITIAL, a)) == 0 {
      NothingFlowed(a);
    }
    NothingInTotals();
    NothingInTables();
  }

  lemma InitialInv()
    ensures Inv(INITIAL)
  {
    hide LockedOk, TotalsOk, FundsOk, RecordOk, Proposal.Sound, ActiveSound, PaidUntil;
    InitialLocked();
    InitialTotals();
    InitialFunds();
  }

  /** The invariant holds after every run. */
  lemma {:induction false} RunInv(events: seq<Event>)
    requires Possible(events)
    ensures Inv(Run(events))
  {
    hide Inv, Apply, Enabled;
    if events == [] {
      InitialInv();
    } else {
      var pre := events[..|events| - 1];
      assert forall i :: 0 <= i < |pre| ==> pre[..i] == events[..i];
      RunInv(pre);
      ApplyKeeps(Run(pre), events[|events| - 1]);
    }
  }

  // ---------- What holds of every run ----------

  /** Each account's locked balance is exactly what its live deals still hold: collateral and
      unpaid fee as a client, collateral as a provider. It is never negative nor above escrow,
      and the memoised totals agree with the deals and with the table. */
  lemma LockedIsWhatDealsHold(events: seq<Event>, a: Address)
    requires Possible(events)
    ensures var s := Run(events);
      && Get(s.ledger.locked, a) == Sum(Shares(s, a))
      && 0 <= Get(s.ledger.locked, a) <= Get(s.ledger.escrow, a)
      && s.ledger.clientCollateral == Sum(ClientCollaterals(s))
      && s.ledger.providerCollateral == Sum(ProviderCollaterals(s))
      && s.ledger.storageFee == Sum(UnpaidFees(s))
      && Sum(s.ledger.locked) == s.ledger.clientCollateral + s.ledger.providerCollateral + s.ledger.storageFee
  {
    hide Run, Sum, DealsOk, PendingOk, ScheduleOk, IndexOk, RecordsOk, FundsOk;
    RunInv(events);
    LockedNonNegative(Run(events), a);
  }

  /** However a deal was settled on the way, a completed one has paid the whole fee, one
      terminated at `t` exactly the fee up to then with the rest refunded, and one that timed
      out nothing; provider collateral is burnt in the last two cases and no other. */
  lemma PaymentIsIndependentOfSettlement(events: seq<Event>, d: DealId)
    requires Possible(events) && d < Run(events).nextId
    ensures d in Run(events).history.records
    ensures var r := Run(events).history.records[d];
      var p := r.proposal;
      match r.outcome
      case Live =>
        && d in Run(events).proposals && r.burnt == 0 && r.refunded == 0
        && r.paid == p.price * (PaidUntil(Run(events), d) - p.start) && 0 <= r.paid <= p.price * (p.end - p.start)
      case Completed => r.paid == p.price * (p.end - p.start) && r.refunded == 0 && r.burnt == 0
      case Terminated(t) =>
        && r.paid == p.price * (Max(t, p.start) - p.start)
        && r.refunded == p.price * (p.end - Max(t, p.start))
        && r.burnt == p.providerCollateral
      case TimedOut => r.paid == 0 && r.refunded == p.TotalFee() && r.burnt == p.providerCollateral
  {
    hide Run, LockedOk, TotalsOk, PendingOk, ScheduleOk, IndexOk, FundsOk;
    RunInv(events);
    var s := Run(events);
    if d in s.proposals {
      var p := s.proposals[d];
      FeeSplits(p, p.start, PaidUntil(s, d), p.end);
      FeeSplits(p, PaidUntil(s, d), p.end, p.end);
    }
  }

  /** Escrow holds what was deposited, less withdrawals and burns; and each account's escrow is
      its own net deposit moved by the payments on its deals and reduced by its burnt collateral. */
  lemma FundsAreConserved(events: seq<Event>, a: Address)
    requires Possible(events)
    ensures var s := Run(events);
      && Sum(s.ledger.escrow) == s.history.deposited - s.history.withdrawn - Sum(Burns(s))
      && Get(s.ledger.escrow, a) == Get(s.history.net, a) + Sum(Flows(s, a))
  {
    hide Run, Sum, DealsOk, PendingOk, ScheduleOk, IndexOk, RecordsOk, LockedOk, TotalsOk;
    RunInv(events);
  }

  /** The sector index agrees with the deals: what it lists is active there, for that provider,
      and once; and it lists every active deal whose term is not over. */
  lemma IndexAgreesWithDeals(events: seq<Event>, key: SectorKey, d: DealId)
    requires Possible(events)
    ensures var s := Run(events);
      && (d in Entry(s.sectorDeals, key) ==>
            && d in s.states && d in s.proposals
            && key == (s.proposals[d].provider, s.states[d].sector))
      && (d in s.states && d in s.proposals && s.proposals[d].end > s.history.clock ==>
            d in Entry(s.sectorDeals, (s.proposals[d].provider, s.states[d].sector)))
      && (d in s.states ==> d in s.proposals && s.states[d].slashEpoch == EPOCH_UNDEFINED)
  {
    hide Run, RecordsOk, LockedOk, TotalsOk, PendingOk, ScheduleOk, FundsOk, Entry;
    RunInv(events);
  }

  /** What a tick relies on for each deal it visits: a deal without a state has started and is
      pending, and so is an active deal that was never updated. */
  lemma TickFindsWhatItNeeds(events: seq<Event>, now: Epoch, d: DealId)
    requires Possible(events) && Run(events).lastCron < now
    requires d in Due(Run(events), now) && d in Run(events).proposals
    ensures var s := Run(events);
      && s.proposals[d].start <= now
      && (NeverUpdated(s, d) ==> s.proposals[d] in s.pending)
  {
    hide Run, RecordsOk, LockedOk, TotalsOk, IndexOk, FundsOk, DealsOk;
    RunInv(events);
    var s := Run(events);
    var e :| e in s.ops && s.lastCron < e <= now && d in s.ops[e];
    assert Planned(s.ops, e, d);
  }
}
