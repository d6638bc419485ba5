/** Every step on a deal keeps the invariant. */
module MarketSteps {
  import opened Arithmetic
  import opened BalanceTable
  import opened Deals
  import opened FiniteSums
  import opened MarketFrames
  import opened MarketInvariant
  import opened MarketLedger
  import opened MarketState

  // ---------- Ending a deal ----------

  lemma EntryRemoved(index: map<SectorKey, set<DealId>>, gone: map<SectorKey, set<DealId>>, k: SectorKey)
    ensures Entry(RemoveDeals(index, gone), k) == Entry(index, k) - Entry(gone, k)
    ensures k in RemoveDeals(index, gone) <==> k in index && (k in gone ==> Entry(index, k) - Entry(gone, k) != {})
  {
  }

  lemma CloseLedger(s: State, d: DealId, l: Ledger, o: Outcome, pay: int, refund: int, burn: int)
    requires LockedOk(s) && TotalsOk(s) && d in s.proposals && d in s.history.records
    requires Moves(s.ledger, l, s.proposals[d], Unpaid(s, d), true, pay, burn)
    requires 0 <= pay <= Unpaid(s, d) && 0 <= burn <= s.proposals[d].providerCollateral
    requires s.proposals[d].clientCollateral >= 0
    ensures LockedOk(Close(s, d, l, o, pay, refund, burn))
    ensures TotalsOk(Close(s, d, l, o, pay, refund, burn))
  {
    hide Proposal.Fee, RemoveDeals, Sum, Shares, ClientCollaterals, ProviderCollaterals, UnpaidFees, SettlePending;
    var s' := Close(s, d, l, o, pay, refund, burn);
    assert OthersSame(s, s', d);
    forall a: Address ensures
      && Get(l.locked, a) == Get(s.ledger.locked, a) - HeldFor(s, d, a)
      && Get(l.locked, a) <= Get(l.escrow, a)
    {
      assert Get(s.ledger.locked, a) <= Get(s.ledger.escrow, a);
    }
    LockedFrame(s, s', d);
    TotalsFrame(s, s', d);
  }

  lemma ClosePending(s: State, d: DealId, l: Ledger, o: Outcome, pay: int, refund: int, burn: int,
                     horizon: Epoch, todo: set<DealId>)
    requires PendingOk(s, horizon, todo) && ScheduleOk(s, horizon, todo)
    requires d in s.proposals && d in s.history.records
    ensures PendingOk(Close(s, d, l, o, pay, refund, burn), horizon, todo)
    ensures ScheduleOk(Close(s, d, l, o, pay, refund, burn), horizon, todo)
  {
    hide PendingOk, ScheduleOk, RemoveDeals;
    PendingShrinks(s, Close(s, d, l, o, pay, refund, burn), d, horizon, todo);
    ScheduleShrinks(s, Close(s, d, l, o, pay, refund, burn), horizon, todo);
  }

  lemma CloseEntry(s: State, d: DealId, l: Ledger, o: Outcome, pay: int, refund: int, burn: int, k: SectorKey)
    requires IndexOk(s) && d in s.proposals && d in s.history.records
    ensures Entry(Close(s, d, l, o, pay, refund, burn).sectorDeals, k) == Entry(s.sectorDeals, k) - {d}
  {
    hide RemoveDeals;
    if d in s.states {
      EntryRemoved(s.sectorDeals, map[(s.proposals[d].provider, s.states[d].sector) := {d}], k);
    }
  }

  lemma CloseIndex(s: State, d: DealId, l: Ledger, o: Outcome, pay: int, refund: int, burn: int)
    requires DealsOk(s) && IndexOk(s) && d in s.proposals && d in s.history.records
    ensures DealsOk(Close(s, d, l, o, pay, refund, burn))
    ensures IndexOk(Close(s, d, l, o, pay, refund, burn))
  {
    hide RemoveDeals, Entry, SettlePending;
    forall k { CloseEntry(s, d, l, o, pay, refund, burn, k); }
  }

  lemma CloseHistory(s: State, d: DealId, l: Ledger, o: Outcome, pay: int, refund: int, burn: int)
    requires RecordsOk(s) && FundsOk(s) && d in s.proposals && d in s.history.records
    requires Moves(s.ledger, l, s.proposals[d], Unpaid(s, d), true, pay, burn)
    requires !o.Live?
    requires RecordOk(Record(s.proposals[d], s.history.records[d].paid + pay, refund, burn, o), 0)
    ensures RecordsOk(Close(s, d, l, o, pay, refund, burn))
    ensures FundsOk(Close(s, d, l, o, pay, refund, burn))
  {
    hide Proposal.Fee, RemoveDeals, Sum, Flows, Burns, SettlePending;
    var s' := Close(s, d, l, o, pay, refund, burn);
    assert OthersSame(s, s', d);
    assert s'.history.records[d] == Record(s.proposals[d], s.history.records[d].paid + pay, refund, burn, o);
    assert s.history.records[d].burnt == 0;
    RecordsFrame(s, s', d);
    FundsFrame(s, s', d);
  }

  lemma CloseKeeps(s: State, d: DealId, l: Ledger, o: Outcome, pay: int, refund: int, burn: int,
                   horizon: Epoch, todo: set<DealId>)
    requires InvDuring(s, horizon, todo) && d in s.proposals && d in s.history.records && s.proposals[d].Sound()
    requires Moves(s.ledger, l, s.proposals[d], Unpaid(s, d), true, pay, burn)
    requires 0 <= pay <= Unpaid(s, d) && 0 <= burn <= s.proposals[d].providerCollateral
    requires !o.Live?
    requires RecordOk(Record(s.proposals[d], s.history.records[d].paid + pay, refund, burn, o), 0)
    ensures InvDuring(Close(s, d, l, o, pay, refund, burn), horizon, todo)
  {
    hide DealsOk, LockedOk, TotalsOk, PendingOk, ScheduleOk, IndexOk, RecordsOk, FundsOk, RecordOk, Moves, Close,
      Unpaid;
    CloseLedger(s, d, l, o, pay, refund, burn);
    ClosePending(s, d, l, o, pay, refund, burn, horizon, todo);
    CloseIndex(s, d, l, o, pay, refund, burn);
    CloseHistory(s, d, l, o, pay, refund, burn);
  }

  // ---------- Paying on a deal that goes on ----------

  /** Paying up to `now` moves the paid-until mark there, and the unpaid fee down by the payment. */
  lemma TouchUnpaid(s: State, d: DealId, now: Epoch, l: Ledger, pay: int)
    requires DealsOk(s) && d in s.proposals && d in s.states && d in s.history.records
    requires s.history.clock == now < s.proposals[d].end
    requires pay == s.proposals[d].Fee(PaidUntil(s, d), Max(now, PaidUntil(s, d)))
    ensures var s' := Touch(s, d, now, l, pay);
      && PaidUntil(s', d) == Max(now, PaidUntil(s, d))
      && Unpaid(s', d) == Unpaid(s, d) - pay
      && 0 <= pay <= Unpaid(s, d)
      && OthersSame(s, s', d)
      && s.proposals[d].Sound() && now != EPOCH_UNDEFINED
  {
    var p := s.proposals[d];
    FeeSplits(p, PaidUntil(s, d), Max(now, PaidUntil(s, d)), p.end);
    FeeSplits(p, Max(now, PaidUntil(s, d)), p.end, p.end);
  }

  lemma TouchLedger(s: State, d: DealId, now: Epoch, l: Ledger, pay: int)
    requires DealsOk(s) && LockedOk(s) && TotalsOk(s) && d in s.proposals && d in s.states && d in s.history.records
    requires s.history.clock == now < s.proposals[d].end
    requires pay == s.proposals[d].Fee(PaidUntil(s, d), Max(now, PaidUntil(s, d)))
    requires Moves(s.ledger, l, s.proposals[d], pay, false, pay, 0)
    ensures LockedOk(Touch(s, d, now, l, pay)) && TotalsOk(Touch(s, d, now, l, pay))
  {
    hide DealsOk, Proposal.Fee, PaidUntil, Unpaid, Sum, Shares, ClientCollaterals, ProviderCollaterals, UnpaidFees,
      SettlePending, OthersSame;
    var s' := Touch(s, d, now, l, pay);
    TouchUnpaid(s, d, now, l, pay);
    forall a: Address ensures
      && Get(l.locked, a) == Get(s.ledger.locked, a) - HeldFor(s, d, a) + HeldFor(s', d, a)
      && Get(l.locked, a) <= Get(l.escrow, a)
    {
      assert Get(s.ledger.locked, a) <= Get(s.ledger.escrow, a);
    }
    LockedFrame(s, s', d);
    TotalsFrame(s, s', d);
  }

  lemma TouchPending(s: State, d: DealId, now: Epoch, l: Ledger, pay: int, horizon: Epoch, todo: set<DealId>)
    requires PendingOk(s, horizon, todo) && ScheduleOk(s, horizon, todo)
    requires d in s.proposals && d in s.states && d in s.history.records && now != EPOCH_UNDEFINED
    ensures var s' := Touch(s, d, now, l, pay); PendingOk(s', horizon, todo) && ScheduleOk(s', horizon, todo)
  {
    hide PendingOk, ScheduleOk;
    PendingShrinks(s, Touch(s, d, now, l, pay), d, horizon, todo);
    ScheduleShrinks(s, Touch(s, d, now, l, pay), horizon, todo);
  }

  lemma TouchDeals(s: State, d: DealId, now: Epoch, l: Ledger, pay: int)
    requires DealsOk(s) && d in s.proposals && d in s.states && d in s.history.records
    requires s.history.clock == now < s.proposals[d].end
    ensures DealsOk(Touch(s, d, now, l, pay))
  {
    hide SettlePending;
  }

  lemma TouchIndex(s: State, d: DealId, now: Epoch, l: Ledger, pay: int)
    requires IndexOk(s) && d in s.proposals && d in s.states && d in s.history.records
    ensures IndexOk(Touch(s, d, now, l, pay))
  {
    hide Entry, SettlePending;
    var s' := Touch(s, d, now, l, pay);
    assert forall c: DealId ::
      (c in s'.states <==> c in s.states) && (c in s.states ==> s'.states[c].sector == s.states[c].sector);
    assert s'.sectorDeals == s.sectorDeals && s'.proposals == s.proposals && s'.history.clock == s.history.clock;
  }

  lemma TouchHistory(s: State, d: DealId, now: Epoch, l: Ledger, pay: int)
    requires DealsOk(s) && RecordsOk(s) && FundsOk(s)
    requires d in s.proposals && d in s.states && d in s.history.records
    requires s.history.clock == now < s.proposals[d].end
    requires pay == s.proposals[d].Fee(PaidUntil(s, d), Max(now, PaidUntil(s, d)))
    requires Moves(s.ledger, l, s.proposals[d], pay, false, pay, 0)
    ensures RecordsOk(Touch(s, d, now, l, pay)) && FundsOk(Touch(s, d, now, l, pay))
  {
    hide DealsOk, Proposal.Fee, PaidUntil, Unpaid, Sum, Flows, Burns, SettlePending, OthersSame;
    var s' := Touch(s, d, now, l, pay);
    TouchUnpaid(s, d, now, l, pay);
    FeeSplits(s.proposals[d], s.proposals[d].start, PaidUntil(s, d), PaidUntil(s', d));
    RecordsFrame(s, s', d);
    FundsFrame(s, s', d);
  }

  lemma TouchKeeps(s: State, d: DealId, now: Epoch, l: Ledger, pay: int, horizon: Epoch, todo: set<DealId>)
    requires InvDuring(s, horizon, todo) && d in s.proposals && d in s.states && d in s.history.records
    requires s.history.clock == now < s.proposals[d].end
    requires pay == s.proposals[d].Fee(PaidUntil(s, d), Max(now, PaidUntil(s, d)))
    requires Moves(s.ledger, l, s.proposals[d], pay, false, pay, 0)
    ensures InvDuring(Touch(s, d, now, l, pay), horizon, todo)
  {
    hide DealsOk, LockedOk, TotalsOk, PendingOk, ScheduleOk, IndexOk, RecordsOk, FundsOk, Moves, Touch, Unpaid,
      PaidUntil, Proposal.Fee, OthersSame;
    TouchUnpaid(s, d, now, l, pay);
    TouchLedger(s, d, now, l, pay);
    TouchPending(s, d, now, l, pay, horizon, todo);
    TouchDeals(s, d, now, l, pay);
    TouchIndex(s, d, now, l, pay);
    TouchHistory(s, d, now, l, pay);
  }

  // ---------- The deal steps ----------

  /** A deal that never became active has not been paid for. */
  lemma TimeOutAmounts(s: State, d: DealId)
    requires DealsOk(s) && RecordsOk(s) && d in s.proposals && d !in s.states && d in s.history.records
    ensures var p := s.proposals[d];
      && p.Sound() && 0 <= Unpaid(s, d) == p.TotalFee()
      && RecordOk(Record(p, s.history.records[d].paid + 0, p.TotalFee(), p.providerCollateral, TimedOut), 0)
  {
    UnpaidNonNegative(s, d);
  }

  lemma TimeOutKeeps(s: State, d: DealId, horizon: Epoch, todo: set<DealId>)
    requires InvDuring(s, horizon, todo) && d in s.proposals && d in s.history.records && d !in s.states
    ensures InvDuring(TimeOut(s, d), horizon, todo)
  {
    hide Proposal.Fee, DealsOk, LockedOk, TotalsOk, PendingOk, ScheduleOk, IndexOk, RecordsOk, FundsOk, RecordOk,
      Close, MissActivation, Moves, Covers, Unpaid, PaidUntil;
    var p := s.proposals[d];
    TimeOutAmounts(s, d);
    DealCovered(s, d);
    MissActivationMoves(s.ledger, p);
    CloseKeeps(s, d, MissActivation(s.ledger, p), TimedOut, 0, p.TotalFee(), p.providerCollateral, horizon, todo);
  }

  /** A deal that runs to its end has by then been paid for in full. */
  lemma CompletionAmounts(s: State, d: DealId)
    requires DealsOk(s) && RecordsOk(s) && d in s.proposals && d in s.history.records
    ensures s.proposals[d].Sound() && 0 <= Unpaid(s, d)
    ensures RecordOk(Record(s.proposals[d], s.history.records[d].paid + Unpaid(s, d), 0, 0, Completed), 0)
  {
    UnpaidNonNegative(s, d);
    FeeSplits(s.proposals[d], s.proposals[d].start, PaidUntil(s, d), s.proposals[d].end);
  }

  lemma CompleteKeeps(s: State, d: DealId, now: Epoch, horizon: Epoch, todo: set<DealId>)
    requires InvDuring(s, horizon, todo) && d in s.proposals && d in s.history.records && d in s.states
    requires now >= s.proposals[d].end && s.proposals[d].Sound()
    ensures InvDuring(Update(s, d, now), horizon, todo)
  {
    hide Proposal.Fee, DealsOk, LockedOk, TotalsOk, PendingOk, ScheduleOk, IndexOk, RecordsOk, FundsOk, RecordOk,
      Close, Expire, Pay, Moves, Covers, PaidUntil;
    var p := s.proposals[d];
    var due := Unpaid(s, d);
    CompletionAmounts(s, d);
    DealCovered(s, d);
    PayMoves(s.ledger, p, due, due);
    var l := Pay(s.ledger, p, due);
    ExpireMoves(l, p);
    MovesCompose(s.ledger, l, Expire(l, p), p, due, 0, true, due, 0, 0);
    CloseKeeps(s, d, Expire(l, p), Completed, due, 0, 0, horizon, todo);
  }

  lemma ContinueKeeps(s: State, d: DealId, now: Epoch, horizon: Epoch, todo: set<DealId>)
    requires InvDuring(s, horizon, todo) && d in s.proposals && d in s.history.records && d in s.states
    requires s.history.clock == now < s.proposals[d].end
    ensures InvDuring(Update(s, d, now), horizon, todo)
  {
    hide Proposal.Fee, DealsOk, LockedOk, TotalsOk, PendingOk, ScheduleOk, IndexOk, RecordsOk, FundsOk,
      Touch, Pay, Moves, Covers, PaidUntil, Unpaid, OthersSame, DueAt;
    var pay := DueAt(s.proposals[d], PaidUntil(s, d), now);
    DueNow(s, d, now);
    TouchUnpaid(s, d, now, s.ledger, pay);
    DealCovered(s, d);
    PayMoves(s.ledger, s.proposals[d], Unpaid(s, d), pay);
    TouchKeeps(s, d, now, Pay(s.ledger, s.proposals[d], pay), pay, horizon, todo);
  }

  /** Nothing is due before a deal starts; afterwards what is due runs to the current epoch. */
  lemma DueNow(s: State, d: DealId, now: Epoch)
    requires DealsOk(s) && d in s.proposals && d in s.states && s.history.clock == now
    requires now < s.proposals[d].end
    ensures DueAt(s.proposals[d], PaidUntil(s, d), now) ==
      s.proposals[d].Fee(PaidUntil(s, d), Max(now, PaidUntil(s, d)))
  {
  }

  lemma UpdateKeeps(s: State, d: DealId, now: Epoch, horizon: Epoch, todo: set<DealId>)
    requires InvDuring(s, horizon, todo) && d in s.proposals && d in s.history.records && d in s.states
    requires s.history.clock == now
    ensures InvDuring(Update(s, d, now), horizon, todo)
  {
    hide DealsOk, LockedOk, TotalsOk, PendingOk, ScheduleOk, IndexOk, RecordsOk, FundsOk, Update;
    if now >= s.proposals[d].end {
      CompletionAmounts(s, d);
      CompleteKeeps(s, d, now, horizon, todo);
    } else {
      ContinueKeeps(s, d, now, horizon, todo);
    }
  }

  /** A terminated deal has been paid for up to the termination, whatever was settled before,
      and the rest of its fee is what remains locked. */
  lemma TerminationAmounts(s: State, d: DealId, at: Epoch)
    requires DealsOk(s) && RecordsOk(s) && d in s.proposals && d in s.states
    requires at < s.proposals[d].end && Terminable(s, d, at)
    ensures d in s.history.records
    ensures var p := s.proposals[d];
      var due := p.Fee(PaidUntil(s, d), Max(at, PaidUntil(s, d)));
      var rest := p.Fee(Max(at, p.start), p.end);
      && p.Sound() && due >= 0 && rest >= 0 && due + rest == Unpaid(s, d)
      && RecordOk(Record(p, s.history.records[d].paid + due, rest, p.providerCollateral, Terminated(at)), 0)
  {
    hide Proposal.Fee;
    var p := s.proposals[d];
    var from := PaidUntil(s, d);
    if p.price == 0 {
      FreeDeal(p);
    } else {
      assert Max(at, from) == Max(at, p.start);
      FeeSplits(p, from, Max(at, from), p.end);
      FeeSplits(p, Max(at, from), p.end, p.end);
      FeeSplits(p, p.start, from, Max(at, from));
    }
  }

  lemma FreeDeal(p: Proposal)
    requires p.price == 0
    ensures forall a, b :: p.Fee(a, b) == 0
  {
  }

  lemma Recorded(s: State, d: DealId)
    requires DealsOk(s) && RecordsOk(s) && d in s.proposals
    ensures d in s.history.records
  {
  }

  lemma TerminateKeeps(s: State, d: DealId, at: Epoch, horizon: Epoch, todo: set<DealId>)
    requires InvDuring(s, horizon, todo) && Terminable(s, d, at)
    ensures InvDuring(Terminate(s, d, at), horizon, todo)
  {
    hide Proposal.Fee, DealsOk, LockedOk, TotalsOk, PendingOk, ScheduleOk, IndexOk, RecordsOk, FundsOk, RecordOk,
      Close, Forfeit, Pay, Moves, Covers, Unpaid, PaidUntil, Terminable;
    if d in s.proposals {
      Recorded(s, d);
      if d in s.states && at < s.proposals[d].end {
        var p := s.proposals[d];
        var due := p.Fee(PaidUntil(s, d), Max(at, PaidUntil(s, d)));
        var rest := p.Fee(Max(at, p.start), p.end);
        TerminationAmounts(s, d, at);
        DealCovered(s, d);
        PayMoves(s.ledger, p, due + rest, due);
        var l := Pay(s.ledger, p, due);
        ForfeitMoves(l, p, rest);
        MovesCompose(s.ledger, l, Forfeit(l, p, rest), p, due, rest, true, due, 0, p.providerCollateral);
        CloseKeeps(s, d, Forfeit(l, p, rest), Terminated(at), due, rest, p.providerCollateral, horizon, todo);
      }
    }
  }

  lemma SettleKeeps(s: State, d: DealId, now: Epoch, horizon: Epoch, todo: set<DealId>)
    requires InvDuring(s, horizon, todo) && s.history.clock == now
    ensures InvDuring(Settle(s, d, now), horizon, todo)
  {
    hide DealsOk, LockedOk, TotalsOk, PendingOk, ScheduleOk, IndexOk, RecordsOk, FundsOk, Update, TimeOut;
    if d in s.proposals {
      Recorded(s, d);
      if d in s.states {
        UpdateKeeps(s, d, now, horizon, todo);
      } else {
        TimeOutKeeps(s, d, horizon, todo);
      }
    }
  }
}
