/** A change to one deal, and what has to match for the invariant to survive it. */
module MarketFrames {
  import opened BalanceTable
  import opened Deals
  import opened FiniteSums
  import opened MarketInvariant
  import opened MarketLedger
  import opened MarketState

  // ---------- Ledger ----------

  ghost function HeldFor(s: State, d: DealId, a: Address): int {
    if d in s.proposals then ShareOf(s.proposals[d], Unpaid(s, d), a) else 0
  }

  ghost function FeeHeld(s: State, d: DealId): int {
    if d in s.proposals then Unpaid(s, d) else 0
  }

  ghost function ClientHeld(s: State, d: DealId): int {
    if d in s.proposals then s.proposals[d].clientCollateral else 0
  }

  ghost function ProviderHeld(s: State, d: DealId): int {
    if d in s.proposals then s.proposals[d].providerCollateral else 0
  }

  /** No deal but `d` is added, removed, changed or paid for. */
  ghost predicate OthersSame(s: State, s': State, d: DealId) {
    forall c: DealId :: c != d ==>
      && (c in s'.proposals <==> c in s.proposals)
      && (c in s.proposals ==> s'.proposals[c] == s.proposals[c] && PaidUntil(s', c) == PaidUntil(s, c))
  }

  lemma LockedFrame(s: State, s': State, d: DealId)
    requires LockedOk(s) && OthersSame(s, s', d)
    requires forall a: Address ::
      && Get(s'.ledger.locked, a) == Get(s.ledger.locked, a) - HeldFor(s, d, a) + HeldFor(s', d, a)
      && Get(s'.ledger.locked, a) <= Get(s'.ledger.escrow, a)
    ensures LockedOk(s')
  {
    hide Sum, ShareOf, Proposal.Fee, PaidUntil;
    forall a: Address ensures Get(s'.ledger.locked, a) == Sum(Shares(s', a)) {
      assert Shares(s', a) - {d} == Shares(s, a) - {d};
      SumDrop(Shares(s, a), d);
      SumDrop(Shares(s', a), d);
    }
  }

  lemma TotalsFrame(s: State, s': State, d: DealId)
    requires TotalsOk(s) && OthersSame(s, s', d)
    requires s'.ledger.clientCollateral == s.ledger.clientCollateral - ClientHeld(s, d) + ClientHeld(s', d)
    requires s'.ledger.providerCollateral == s.ledger.providerCollateral - ProviderHeld(s, d) + ProviderHeld(s', d)
    requires s'.ledger.storageFee == s.ledger.storageFee - FeeHeld(s, d) + FeeHeld(s', d)
    requires Sum(s'.ledger.locked) ==
      s'.ledger.clientCollateral + s'.ledger.providerCollateral + s'.ledger.storageFee
    ensures TotalsOk(s')
  {
    hide Sum, ClientCollaterals, ProviderCollaterals, UnpaidFees, ClientHeld, ProviderHeld, FeeHeld;
    CollateralsFrame(s, s', d);
    FeesFrame(s, s', d);
  }

  lemma CollateralsFrame(s: State, s': State, d: DealId)
    requires OthersSame(s, s', d)
    ensures Sum(ClientCollaterals(s')) == Sum(ClientCollaterals(s)) - ClientHeld(s, d) + ClientHeld(s', d)
    ensures Sum(ProviderCollaterals(s')) == Sum(ProviderCollaterals(s)) - ProviderHeld(s, d) + ProviderHeld(s', d)
  {
    hide Sum, PaidUntil;
    assert ClientCollaterals(s') - {d} == ClientCollaterals(s) - {d};
    SumDrop(ClientCollaterals(s), d);
    SumDrop(ClientCollaterals(s'), d);
    assert ProviderCollaterals(s') - {d} == ProviderCollaterals(s) - {d};
    SumDrop(ProviderCollaterals(s), d);
    SumDrop(ProviderCollaterals(s'), d);
  }

  lemma FeesFrame(s: State, s': State, d: DealId)
    requires OthersSame(s, s', d)
    ensures Sum(UnpaidFees(s')) == Sum(UnpaidFees(s)) - FeeHeld(s, d) + FeeHeld(s', d)
  {
    hide Sum, Proposal.Fee, PaidUntil;
    assert UnpaidFees(s') - {d} == UnpaidFees(s) - {d};
    SumDrop(UnpaidFees(s), d);
    SumDrop(UnpaidFees(s'), d);
  }

  // ---------- History ----------

  ghost function FlowIn(s: State, d: DealId, a: Address): int {
    if d in s.history.records
    then FlowOf(s.history.records[d].proposal, s.history.records[d].paid, s.history.records[d].burnt, a)
    else 0
  }

  ghost function BurntFor(s: State, d: DealId): int {
    if d in s.history.records then s.history.records[d].burnt else 0
  }

  lemma FundsFrame(s: State, s': State, d: DealId)
    requires FundsOk(s) && d in s'.history.records
    requires s'.history.records == s.history.records[d := s'.history.records[d]]
    requires s'.history.(records := s.history.records) == s.history
    requires forall a: Address ::
      Get(s'.ledger.escrow, a) == Get(s.ledger.escrow, a) - FlowIn(s, d, a) + FlowIn(s', d, a)
    requires Sum(s'.ledger.escrow) == Sum(s.ledger.escrow) + BurntFor(s, d) - BurntFor(s', d)
    ensures FundsOk(s')
  {
    hide Sum, FlowOf;
    forall a: Address ensures Get(s'.ledger.escrow, a) == Get(s'.history.net, a) + Sum(Flows(s', a)) {
      assert Flows(s', a) - {d} == Flows(s, a) - {d};
      SumDrop(Flows(s, a), d);
      SumDrop(Flows(s', a), d);
    }
    assert Burns(s') - {d} == Burns(s) - {d};
    SumDrop(Burns(s), d);
    SumDrop(Burns(s'), d);
  }

  lemma RecordsFrame(s: State, s': State, d: DealId)
    requires RecordsOk(s) && OthersSame(s, s', d) && d in s'.history.records
    requires s'.history.records == s.history.records[d := s'.history.records[d]]
    requires s'.nextId == if d == s.nextId then s.nextId + 1 else s.nextId
    requires d <= s.nextId
    requires s'.history.records[d].outcome.Live? <==> d in s'.proposals
    requires d in s'.proposals ==> s'.history.records[d].proposal == s'.proposals[d]
    requires RecordOk(s'.history.records[d], if d in s'.proposals then PaidUntil(s', d) else 0)
    ensures RecordsOk(s')
  {
    hide RecordOk, PaidUntil;
  }

  // ---------- Pending proposals and the schedule ----------

  /** A deal that ends or is updated stops being fresh and takes its proposal out of the pending set. */
  lemma PendingShrinks(s: State, s': State, d: DealId, horizon: Epoch, todo: set<DealId>)
    requires PendingOk(s, horizon, todo) && d in s.proposals
    requires forall c: DealId :: Fresh(s', c) <==> Fresh(s, c) && c != d
    requires forall c: DealId :: c in s'.proposals ==> c in s.proposals && s'.proposals[c] == s.proposals[c]
    requires forall c: DealId :: c in s'.proposals && c !in s'.states ==> c !in s.states && c != d
    requires s'.ops == s.ops && s'.pending == SettlePending(s, d)
    ensures PendingOk(s', horizon, todo)
  {
    hide PendingOk;
    forall c: DealId | Fresh(s', c) ensures c in s'.proposals {}
    PendingWithout(s, s', d, horizon, todo);
  }

  lemma PendingWithout(s: State, s': State, d: DealId, horizon: Epoch, todo: set<DealId>)
    requires PendingOk(s, horizon, todo) && d in s.proposals
    requires forall c: DealId :: Fresh(s', c) <==> Fresh(s, c) && c != d
    requires forall c: DealId :: Fresh(s', c) ==> c in s'.proposals
    requires forall c: DealId :: c in s'.proposals ==> c in s.proposals && s'.proposals[c] == s.proposals[c]
    requires forall c: DealId :: c in s'.proposals && c !in s'.states ==> c !in s.states && Fresh(s', c)
    requires s'.ops == s.ops && s'.pending == if Fresh(s, d) then s.pending - {s.proposals[d]} else s.pending
    ensures PendingOk(s', horizon, todo)
  {
    hide Scheduled, Fresh, Owned;
    forall c: DealId | Fresh(s', c) ensures s'.proposals[c] in s'.pending <==> s.proposals[c] in s.pending {
      assert Fresh(s, c);
    }
    PendingWitness(s, s', d);
  }

  lemma PendingWitness(s: State, s': State, d: DealId)
    requires forall p :: p in s.pending ==> Owned(s, p)
    requires d in s.proposals && forall c: DealId :: Fresh(s, c) && c != d ==> Fresh(s', c)
    requires forall c: DealId :: Fresh(s', c) ==> c in s.proposals && s'.proposals[c] == s.proposals[c]
    requires s'.pending == if Fresh(s, d) then s.pending - {s.proposals[d]} else s.pending
    ensures forall p :: p in s'.pending ==> Owned(s', p)
  {
    forall p | p in s'.pending ensures Owned(s', p) {
      var c: DealId :| Fresh(s, c) && s.proposals[c] == p;
      assert Fresh(s', c);
    }
  }

  lemma ScheduleShrinks(s: State, s': State, horizon: Epoch, todo: set<DealId>)
    requires ScheduleOk(s, horizon, todo)
    requires s'.ops == s.ops && s'.nextId == s.nextId
    requires forall c: DealId :: c in s'.proposals ==> c in s.proposals && s'.proposals[c] == s.proposals[c]
    ensures ScheduleOk(s', horizon, todo)
  {
  }
}
