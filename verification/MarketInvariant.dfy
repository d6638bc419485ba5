/** What holds in every reachable state of the market. */
module MarketInvariant {
  import opened Arithmetic
  import opened BalanceTable
  import opened Deals
  import opened FiniteSums
  import opened MarketLedger
  import opened MarketState

  // ---------- Deals ----------

  ghost predicate ActiveSound(p: Proposal, st: DealState, clock: Epoch) {
    && 0 <= st.sectorStart <= clock
    && st.sectorStart <= p.start
    && (st.lastUpdated == EPOCH_UNDEFINED || st.sectorStart <= st.lastUpdated <= clock)
    && st.lastUpdated < p.end
    && st.slashEpoch == EPOCH_UNDEFINED
  }

  ghost predicate DealsOk(s: State) {
    && (forall d: DealId :: d in s.proposals ==> d < s.nextId && s.proposals[d].Sound())
    && (forall d: DealId :: d in s.states ==>
          d in s.proposals && ActiveSound(s.proposals[d], s.states[d], s.history.clock))
    && (forall d: DealId :: d in s.allocations ==> d in s.proposals && d !in s.states)
  }

  // ---------- Ledger ----------

  ghost function Shares(s: State, a: Address): map<DealId, int> {
    map d | d in s.proposals :: ShareOf(s.proposals[d], Unpaid(s, d), a)
  }

  ghost function ClientCollaterals(s: State): map<DealId, int> {
    map d | d in s.proposals :: s.proposals[d].clientCollateral
  }

  ghost function ProviderCollaterals(s: State): map<DealId, int> {
    map d | d in s.proposals :: s.proposals[d].providerCollateral
  }

  ghost function UnpaidFees(s: State): map<DealId, int> {
    map d | d in s.proposals :: Unpaid(s, d)
  }

  /** Each account's locked balance is what its live deals account for, and is covered by escrow. */
  ghost predicate LockedOk(s: State) {
    && (forall a: Address {:trigger Get(s.ledger.locked, a)} :: Get(s.ledger.locked, a) == Sum(Shares(s, a)))
    && (forall a: Address {:trigger Get(s.ledger.escrow, a)} :: Get(s.ledger.locked, a) <= Get(s.ledger.escrow, a))
  }

  /** The memoised totals are the sums over the live deals, and add up to the locked table. */
  ghost predicate TotalsOk(s: State) {
    && s.ledger.clientCollateral == Sum(ClientCollaterals(s))
    && s.ledger.providerCollateral == Sum(ProviderCollaterals(s))
    && s.ledger.storageFee == Sum(UnpaidFees(s))
    && Sum(s.ledger.locked) == s.ledger.clientCollateral + s.ledger.providerCollateral + s.ledger.storageFee
  }

  // ---------- Pending proposals and the schedule ----------

  ghost predicate Fresh(s: State, d: DealId) {
    d in s.proposals && NeverUpdated(s, d)
  }

  /** Some fresh deal has this proposal. */
  ghost predicate Owned(s: State, p: Proposal) {
    exists d: DealId :: Fresh(s, d) && s.proposals[d] == p
  }

  predicate Planned(ops: map<Epoch, set<DealId>>, e: Epoch, d: DealId) {
    e in ops && d in ops[e]
  }

  /** `d` is to be visited: in the part `todo` of the running tick, or at an epoch after `horizon`. */
  ghost predicate Scheduled(ops: map<Epoch, set<DealId>>, horizon: Epoch, todo: set<DealId>, d: DealId) {
    d in todo || exists e :: Planned(ops, e, d) && e > horizon
  }

  /** The pending set holds the proposals of the fresh deals not visited yet, one each.
      A fresh deal that is no longer pending started no later than `horizon`, so its
      proposal cannot be published again. */
  ghost predicate PendingOk(s: State, horizon: Epoch, todo: set<DealId>) {
    && (forall d: DealId :: Fresh(s, d) ==>
          (s.proposals[d] in s.pending <==> Scheduled(s.ops, horizon, todo, d)))
    && (forall d: DealId :: Fresh(s, d) ==> s.proposals[d] in s.pending || s.proposals[d].start <= horizon)
    && (forall d: DealId :: d in s.proposals && d !in s.states ==> s.proposals[d] in s.pending)
    && (forall c: DealId, d: DealId :: Fresh(s, c) && Fresh(s, d) && s.proposals[c] == s.proposals[d] ==> c == d)
    && (forall p :: p in s.pending ==> Owned(s, p))
  }

  /** Every deal is scheduled at most once, and never before it starts. */
  ghost predicate ScheduleOk(s: State, horizon: Epoch, todo: set<DealId>) {
    && (forall e, d: DealId :: Planned(s.ops, e, d) && e > horizon ==>
          d < s.nextId && d !in todo && (d in s.proposals ==> s.proposals[d].start <= e))
    && (forall e, f, d: DealId :: Planned(s.ops, e, d) && Planned(s.ops, f, d) && e > horizon && f > horizon ==> e == f)
    && (forall d: DealId :: d in todo ==> d < s.nextId && (d in s.proposals ==> s.proposals[d].start <= horizon))
  }

  // ---------- The sector index ----------

  ghost predicate IndexOk(s: State) {
    && (forall k, d: DealId :: d in Entry(s.sectorDeals, k) ==>
          d in s.states && d in s.proposals && s.proposals[d].provider == k.0 && s.states[d].sector == k.1)
    && (forall d: DealId :: d in s.states && d in s.proposals && s.proposals[d].end > s.history.clock ==>
          d in Entry(s.sectorDeals, (s.proposals[d].provider, s.states[d].sector)))
  }

  // ---------- History ----------

  /** What the record of a deal says once and for all, whatever updates it went through. */
  ghost predicate RecordOk(r: Record, paidUntil: Epoch) {
    var p := r.proposal;
    && p.Sound()
    && match r.outcome
       case Live => r.paid == p.Fee(p.start, paidUntil) && r.refunded == 0 && r.burnt == 0
       case Completed => r.paid == p.TotalFee() && r.refunded == 0 && r.burnt == 0
       case Terminated(t) =>
         && t < p.end
         && r.paid == p.Fee(p.start, Max(t, p.start))
         && r.refunded == p.Fee(Max(t, p.start), p.end)
         && r.burnt == p.providerCollateral
       case TimedOut => r.paid == 0 && r.refunded == p.TotalFee() && r.burnt == p.providerCollateral
  }

  ghost function Flows(s: State, a: Address): map<DealId, int> {
    map d | d in s.history.records ::
      FlowOf(s.history.records[d].proposal, s.history.records[d].paid, s.history.records[d].burnt, a)
  }

  ghost function Burns(s: State): map<DealId, int> {
    map d | d in s.history.records :: s.history.records[d].burnt
  }

  ghost predicate RecordsOk(s: State) {
    && (forall d: DealId :: d in s.history.records <==> d < s.nextId)
    && (forall d: DealId :: d in s.history.records ==>
          && (s.history.records[d].outcome.Live? <==> d in s.proposals)
          && (d in s.proposals ==> s.history.records[d].proposal == s.proposals[d])
          && RecordOk(s.history.records[d], if d in s.proposals then PaidUntil(s, d) else 0))
  }

  /** Escrow holds what was deposited and not withdrawn, moved by payments and reduced by burns. */
  ghost predicate FundsOk(s: State) {
    && (forall a: Address {:trigger Get(s.ledger.escrow, a)} ::
          Get(s.ledger.escrow, a) == Get(s.history.net, a) + Sum(Flows(s, a)))
    && Sum(s.ledger.escrow) == s.history.deposited - s.history.withdrawn - Sum(Burns(s))
  }

  /** The invariant during a tick that has still to visit `todo`. */
  ghost predicate InvDuring(s: State, horizon: Epoch, todo: set<DealId>) {
    && DealsOk(s) && LockedOk(s) && TotalsOk(s)
    && PendingOk(s, horizon, todo) && ScheduleOk(s, horizon, todo)
    && IndexOk(s) && RecordsOk(s) && FundsOk(s)
  }

  /** The invariant between calls. */
  ghost predicate Inv(s: State) {
    && InvDuring(s, s.lastCron, {})
    && EPOCH_UNDEFINED <= s.lastCron <= s.history.clock
    && forall e :: e in s.ops ==> e > s.lastCron
  }

  // ---------- Consequences ----------

  lemma UnpaidNonNegative(s: State, d: DealId)
    requires DealsOk(s) && d in s.proposals
    ensures Unpaid(s, d) >= 0
    ensures s.proposals[d].start <= PaidUntil(s, d) <= s.proposals[d].end
  {
    FeeSplits(s.proposals[d], PaidUntil(s, d), s.proposals[d].end, s.proposals[d].end);
  }

  lemma SharesNonNegative(s: State, a: Address)
    requires DealsOk(s)
    ensures forall d :: d in Shares(s, a) ==> Shares(s, a)[d] >= 0
  {
    forall d | d in s.proposals ensures ShareOf(s.proposals[d], Unpaid(s, d), a) >= 0 {
      UnpaidNonNegative(s, d);
    }
  }

  /** Every lock is sufficient: no release of a live deal can fail. */
  lemma DealCovered(s: State, d: DealId)
    requires DealsOk(s) && LockedOk(s) && d in s.proposals
    ensures Covers(s.ledger, s.proposals[d], Unpaid(s, d))
  {
    forall a: Address
      ensures ShareOf(s.proposals[d], Unpaid(s, d), a) <= Get(s.ledger.locked, a) <= Get(s.ledger.escrow, a)
    {
      SharesNonNegative(s, a);
      SumAtLeast(Shares(s, a), d);
    }
  }

  lemma LockedNonNegative(s: State, a: Address)
    requires DealsOk(s) && LockedOk(s)
    ensures 0 <= Get(s.ledger.locked, a) <= Get(s.ledger.escrow, a)
  {
    SharesNonNegative(s, a);
    SumNonNegative(Shares(s, a));
  }
}
