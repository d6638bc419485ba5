/** Which deals are activated, and where: the two notifications of a miner stated on deals alone. */
module MarketPlacement {
  import opened BalanceTable
  import opened Deals
  import opened MarketActivation
  import opened MarketCalls
  import opened MarketInvariant
  import opened MarketPublication
  import opened MarketRuns
  import opened MarketState
  import opened MarketTwins
  import opened Wrappers

  // ---------- Batches of sectors ----------

  /** The deal is the miner's, has not started, ends by the commitment, and is not active. */
  ghost predicate MayStart(s: State, d: DealId, miner: Address, commitment: Epoch, now: Epoch) {
    && d in s.proposals && d !in s.states
    && s.proposals[d].provider == miner
    && now <= s.proposals[d].start && s.proposals[d].end <= commitment
  }

  /** The sectors activated are exactly those that name no deal twice, and only deals that may start and that
      no sector activated before them names. */
  ghost predicate Places(s: State, miner: Address, sectors: seq<SectorDeals>, now: Epoch, activated: seq<bool>) {
    && |activated| == |sectors|
    && forall i :: 0 <= i < |sectors| ==>
         (activated[i] <==>
           forall j :: 0 <= j < |sectors[i].ids| ==>
             var d := sectors[i].ids[j];
             && MayStart(s, d, miner, sectors[i].expiry, now)
             && (forall k :: 0 <= k < j ==> sectors[i].ids[k] != d)
             && (forall k :: 0 <= k < i && activated[k] ==> d !in sectors[k].ids))
  }

  /** Sector `k` of the batch is activated, with deal `d` in it. */
  ghost predicate PlacedIn(s: State, miner: Address, sectors: seq<SectorDeals>, now: Epoch, k: nat, d: DealId) {
    && k < |sectors| && d in sectors[k].ids
    && SectorReady(ActivateAll(s, miner, sectors[..k], now), miner, sectors[k], now)
  }

  lemma ActivateOne(s: State, miner: Address, sector: SectorDeals, now: Epoch, d: DealId)
    ensures var t := ActivateSector(s, miner, sector, now);
      && t.proposals == s.proposals && t.pending == s.pending
      && if SectorReady(s, miner, sector, now) && d in sector.ids then
           && d !in s.states && d in t.states
           && t.states[d] == DealState(sector.number, now, EPOCH_UNDEFINED, EPOCH_UNDEFINED)
         else (d in t.states <==> d in s.states) && (d in s.states ==> t.states[d] == s.states[d])
  {
    hide Entry;
    if SectorReady(s, miner, sector, now) && d in sector.ids {
      assert CanActivate(s, d, miner, sector.expiry, now);
    }
  }

  /** The deals active once the first `n` sectors have been seen to. */
  lemma {:induction false} ActiveAfter(s: State, miner: Address, sectors: seq<SectorDeals>, now: Epoch, n: nat,
                                       d: DealId)
    requires n <= |sectors|
    ensures var t := ActivateAll(s, miner, sectors[..n], now);
      && t.proposals == s.proposals && t.pending == s.pending
      && (d in t.states ==> d in s.states || exists k: nat :: k < n && PlacedIn(s, miner, sectors, now, k, d))
      && (d in s.states ==> d in t.states && t.states[d] == s.states[d])
      && (forall k: nat :: k < n && PlacedIn(s, miner, sectors, now, k, d) ==>
            && d !in s.states && d in t.states
            && t.states[d] == DealState(sectors[k].number, now, EPOCH_UNDEFINED, EPOCH_UNDEFINED))
  {
    hide ActivateSector, SectorReady;
    if n == 0 {
      assert sectors[..0] == [];
    } else {
      var m := n - 1;
      assert sectors[..n][..m] == sectors[..m];
      ActiveAfter(s, miner, sectors, now, m, d);
      ActivateOne(ActivateAll(s, miner, sectors[..m], now), miner, sectors[m], now, d);
      if SectorReady(ActivateAll(s, miner, sectors[..m], now), miner, sectors[m], now) && d in sectors[m].ids {
        assert PlacedIn(s, miner, sectors, now, m, d);
      }
    }
  }

  /** A sector is ready at its turn exactly when its deals may start and are not taken by then. */
  lemma ReadyIff(s: State, miner: Address, sectors: seq<SectorDeals>, now: Epoch, i: nat)
    requires Inv(s) && i < |sectors|
    ensures SectorReady(ActivateAll(s, miner, sectors[..i], now), miner, sectors[i], now) <==>
      forall j :: 0 <= j < |sectors[i].ids| ==>
        var d := sectors[i].ids[j];
        && MayStart(s, d, miner, sectors[i].expiry, now)
        && (forall k :: 0 <= k < j ==> sectors[i].ids[k] != d)
        && (forall k: nat :: k < i ==> !PlacedIn(s, miner, sectors, now, k, d))
  {
    hide Inv, ActivateAll, PlacedIn;
    var t, ids := ActivateAll(s, miner, sectors[..i], now), sectors[i].ids;
    forall j | 0 <= j < |ids|
      ensures CanActivate(t, ids[j], miner, sectors[i].expiry, now) <==>
        && MayStart(s, ids[j], miner, sectors[i].expiry, now)
        && (forall k: nat :: k < i ==> !PlacedIn(s, miner, sectors, now, k, ids[j]))
    {
      var d := ids[j];
      ActiveAfter(s, miner, sectors, now, i, d);
      if d in s.proposals && d !in s.states {
        InactiveIsPending(s, d);
      }
    }
    assert forall d: DealId :: d in ids ==> exists j :: 0 <= j < |ids| && ids[j] == d;
  }

  lemma PlacesIff(s: State, miner: Address, sectors: seq<SectorDeals>, now: Epoch, activated: seq<bool>)
    requires Inv(s) && |activated| == |sectors|
    requires forall i :: 0 <= i < |sectors| ==>
      (activated[i] <==> SectorReady(ActivateAll(s, miner, sectors[..i], now), miner, sectors[i], now))
    ensures Places(s, miner, sectors, now, activated)
  {
    hide Inv, ActivateAll, SectorReady;
    forall i | 0 <= i < |sectors|
      ensures activated[i] <==>
        forall j :: 0 <= j < |sectors[i].ids| ==>
          var d := sectors[i].ids[j];
          && MayStart(s, d, miner, sectors[i].expiry, now)
          && (forall k :: 0 <= k < j ==> sectors[i].ids[k] != d)
          && (forall k :: 0 <= k < i && activated[k] ==> d !in sectors[k].ids)
    {
      ReadyIff(s, miner, sectors, now, i);
      assert forall k: nat, d: DealId :: k < i ==>
        (PlacedIn(s, miner, sectors, now, k, d) <==> activated[k] && d in sectors[k].ids);
    }
  }

  /** The deals of the sectors activated start in them, and the others stay as they are. */
  ghost predicate StartedIn(s: State, t: State, sectors: seq<SectorDeals>, now: Epoch, activated: seq<bool>) {
    && |activated| == |sectors|
    && (forall i, d: DealId :: 0 <= i < |sectors| && activated[i] && d in sectors[i].ids ==>
          d in t.states && t.states[d] == DealState(sectors[i].number, now, EPOCH_UNDEFINED, EPOCH_UNDEFINED))
    && (forall d: DealId :: d in s.states ==> d in t.states && t.states[d] == s.states[d])
    && (forall d: DealId :: d in t.states && d !in s.states ==> Named(sectors, activated, d))
  }

  ghost predicate Named(sectors: seq<SectorDeals>, activated: seq<bool>, d: DealId)
    requires |activated| == |sectors|
  {
    exists i :: 0 <= i < |sectors| && activated[i] && d in sectors[i].ids
  }

  lemma StartedIs(s: State, miner: Address, sectors: seq<SectorDeals>, now: Epoch, activated: seq<bool>)
    requires |activated| == |sectors|
    requires forall i :: 0 <= i < |sectors| ==>
      (activated[i] <==> SectorReady(ActivateAll(s, miner, sectors[..i], now), miner, sectors[i], now))
    ensures StartedIn(s, ActivateAll(s, miner, sectors, now), sectors, now, activated)
  {
    hide ActivateAll, SectorReady;
    assert sectors[..|sectors|] == sectors;
    forall d: DealId { ActiveAfter(s, miner, sectors, now, |sectors|, d); }
    assert forall k: nat, d: DealId :: k < |sectors| ==>
      (PlacedIn(s, miner, sectors, now, k, d) <==> activated[k] && d in sectors[k].ids);
  }

  lemma StartedTick(s: State, t: State, sectors: seq<SectorDeals>, now: Epoch, activated: seq<bool>)
    requires StartedIn(Tick(s, now), t, sectors, now, activated)
    ensures StartedIn(s, t, sectors, now, activated)
  {
  }

  // ---------- Changes piece by piece ----------

  ghost predicate TakenAt(changes: seq<SectorChange>, accepted: seq<seq<bool>>, k: nat, l: nat, d: DealId) {
    && k < |changes| && k < |accepted| && l < |changes[k].pieces| && l < |accepted[k]|
    && accepted[k][l] && changes[k].pieces[l].deal == Some(d)
  }

  /** The piece holds the data of a deal that may start. */
  ghost predicate Matches(s: State, miner: Address, commitment: Epoch, piece: Piece, now: Epoch) {
    && piece.deal.Some? && MayStart(s, piece.deal.value, miner, commitment, now)
    && s.proposals[piece.deal.value].pieceCid == piece.data && s.proposals[piece.deal.value].pieceSize == piece.size
  }

  /** The pieces accepted are exactly those that match a deal that no piece accepted before them is for. */
  ghost predicate AcceptsExactly(s: State, miner: Address, changes: seq<SectorChange>, now: Epoch,
                                 accepted: seq<seq<bool>>) {
    && |accepted| == |changes|
    && forall i :: 0 <= i < |changes| ==>
         && |accepted[i]| == |changes[i].pieces|
         && forall j :: 0 <= j < |accepted[i]| ==>
              (accepted[i][j] <==>
                && Matches(s, miner, changes[i].commitment, changes[i].pieces[j], now)
                && NotTaken(changes, accepted, i, j, changes[i].pieces[j].deal.value))
  }

  ghost predicate NotTaken(changes: seq<SectorChange>, accepted: seq<seq<bool>>, i: int, j: int, d: DealId) {
    forall k: nat, l: nat :: k < i || (k == i && l < j) ==> !TakenAt(changes, accepted, k, l, d)
  }

  /** The flags are those of the pieces taken at their turn. */
  ghost predicate Flags(s: State, miner: Address, changes: seq<SectorChange>, now: Epoch, accepted: seq<seq<bool>>) {
    && |accepted| == |changes|
    && forall i :: 0 <= i < |changes| ==>
         TakesPieces(ChangeAll(s, miner, changes[..i], now), miner, changes[i], now, accepted[i])
  }

  lemma AcceptedIsTaken(s: State, miner: Address, change: SectorChange, now: Epoch, taken: seq<bool>, d: DealId)
    requires TakesPieces(s, miner, change, now, taken)
    ensures d in Accepted(s, miner, change.commitment, change.pieces, now) <==>
      exists l: nat :: l < |taken| && taken[l] && change.pieces[l].deal == Some(d)
  {
    hide CanActivate;
    if d in Accepted(s, miner, change.commitment, change.pieces, now) {
      var piece :| && piece in change.pieces && PieceFits(s, miner, change.commitment, piece, now)
                   && piece.deal.value == d;
      var l: nat :| l < |change.pieces| && change.pieces[l] == piece;
      if !taken[l] {
        var k :| 0 <= k < l && taken[k] && change.pieces[k].deal == piece.deal;
      }
    }
  }

  lemma ChangeOne(s: State, miner: Address, change: SectorChange, now: Epoch, taken: seq<bool>, d: DealId)
    requires TakesPieces(s, miner, change, now, taken)
    ensures var t := ChangeSector(s, miner, change, now);
      && t.proposals == s.proposals && t.pending == s.pending
      && if exists l: nat :: l < |taken| && taken[l] && change.pieces[l].deal == Some(d) then
           && d !in s.states && d in t.states
           && t.states[d] == DealState(change.number, now, EPOCH_UNDEFINED, EPOCH_UNDEFINED)
         else (d in t.states <==> d in s.states) && (d in s.states ==> t.states[d] == s.states[d])
  {
    hide Entry, Accepted;
    AcceptedIsTaken(s, miner, change, now, taken, d);
  }

  /** The deals active once the first `n` changes have been seen to. */
  lemma {:induction false} ActiveAfterChanges(s: State, miner: Address, changes: seq<SectorChange>, now: Epoch,
                                              accepted: seq<seq<bool>>, n: nat, d: DealId)
    requires Flags(s, miner, changes, now, accepted) && n <= |changes|
    ensures var t := ChangeAll(s, miner, changes[..n], now);
      && t.proposals == s.proposals && t.pending == s.pending
      && (d in t.states ==> d in s.states || exists k: nat, l: nat :: k < n && TakenAt(changes, accepted, k, l, d))
      && (d in s.states ==> d in t.states && t.states[d] == s.states[d])
      && (forall k: nat, l: nat :: k < n && TakenAt(changes, accepted, k, l, d) ==>
            && d !in s.states && d in t.states
            && t.states[d] == DealState(changes[k].number, now, EPOCH_UNDEFINED, EPOCH_UNDEFINED))
  {
    hide ChangeSector, TakesPieces;
    if n == 0 {
      assert changes[..0] == [];
    } else {
      var m := n - 1;
      assert changes[..n][..m] == changes[..m];
      ActiveAfterChanges(s, miner, changes, now, accepted, m, d);
      var t := ChangeAll(s, miner, changes[..m], now);
      ChangeOne(t, miner, changes[m], now, accepted[m], d);
      FlagsFit(t, miner, changes[m], now, accepted[m]);
      if l: nat :| l < |accepted[m]| && accepted[m][l] && changes[m].pieces[l].deal == Some(d) {
        assert TakenAt(changes, accepted, m, l, d);
      }
    }
  }

  lemma FlagsFit(s: State, miner: Address, change: SectorChange, now: Epoch, taken: seq<bool>)
    requires TakesPieces(s, miner, change, now, taken)
    ensures |taken| == |change.pieces|
  {
  }

  lemma FitsIff(s: State, miner: Address, changes: seq<SectorChange>, now: Epoch, accepted: seq<seq<bool>>, i: nat,
                piece: Piece)
    requires Inv(s) && Flags(s, miner, changes, now, accepted) && i < |changes|
    ensures PieceFits(ChangeAll(s, miner, changes[..i], now), miner, changes[i].commitment, piece, now) <==>
      && Matches(s, miner, changes[i].commitment, piece, now)
      && forall k: nat, l: nat :: k < i ==> !TakenAt(changes, accepted, k, l, piece.deal.value)
  {
    hide Inv, ChangeAll, Flags, TakenAt;
    if piece.deal.Some? {
      var d := piece.deal.value;
      ActiveAfterChanges(s, miner, changes, now, accepted, i, d);
      if d in s.proposals && d !in s.states {
        InactiveIsPending(s, d);
      }
    }
  }

  lemma AcceptsAt(s: State, miner: Address, changes: seq<SectorChange>, now: Epoch, accepted: seq<seq<bool>>,
                  i: nat, j: nat)
    requires Inv(s) && Flags(s, miner, changes, now, accepted) && i < |changes| && j < |changes[i].pieces|
    ensures |accepted[i]| == |changes[i].pieces|
    ensures accepted[i][j] <==>
      && Matches(s, miner, changes[i].commitment, changes[i].pieces[j], now)
      && NotTaken(changes, accepted, i, j, changes[i].pieces[j].deal.value)
  {
    hide Inv, ChangeAll, PieceFits, MayStart;
    var piece := changes[i].pieces[j];
    FitsIff(s, miner, changes, now, accepted, i, piece);
    if piece.deal.Some? {
      assert (forall k :: 0 <= k < j && accepted[i][k] ==> changes[i].pieces[k].deal != piece.deal) <==>
             (forall l: nat :: l < j ==> !TakenAt(changes, accepted, i, l, piece.deal.value)) by {
        if l: nat :| l < j && TakenAt(changes, accepted, i, l, piece.deal.value) {
          assert accepted[i][l];
        }
        if k :| 0 <= k < j && accepted[i][k] && changes[i].pieces[k].deal == piece.deal {
          assert TakenAt(changes, accepted, i, k, piece.deal.value);
        }
      }
    }
  }

  lemma AcceptsIff(s: State, miner: Address, changes: seq<SectorChange>, now: Epoch, accepted: seq<seq<bool>>)
    requires Inv(s) && Flags(s, miner, changes, now, accepted)
    ensures AcceptsExactly(s, miner, changes, now, accepted)
  {
    hide Inv, ChangeAll, NotTaken, PieceFits, MayStart;
    forall i: nat, j: nat | i < |changes| && j < |changes[i].pieces| {
      AcceptsAt(s, miner, changes, now, accepted, i, j);
    }
  }

  /** The deals of the pieces accepted start in their sectors, and the others stay as they are. */
  ghost predicate StartedBy(s: State, t: State, changes: seq<SectorChange>, now: Epoch, accepted: seq<seq<bool>>) {
    && (forall k: nat, l: nat, d: DealId :: TakenAt(changes, accepted, k, l, d) ==>
          d in t.states && t.states[d] == DealState(changes[k].number, now, EPOCH_UNDEFINED, EPOCH_UNDEFINED))
    && (forall d: DealId :: d in s.states ==> d in t.states && t.states[d] == s.states[d])
    && (forall d: DealId :: d in t.states && d !in s.states ==>
          exists k: nat, l: nat :: TakenAt(changes, accepted, k, l, d))
  }

  lemma StartedByIs(s: State, miner: Address, changes: seq<SectorChange>, now: Epoch, accepted: seq<seq<bool>>)
    requires Flags(s, miner, changes, now, accepted)
    ensures StartedBy(s, ChangeAll(s, miner, changes, now), changes, now, accepted)
  {
    hide ChangeAll, Flags;
    assert changes[..|changes|] == changes;
    forall d: DealId { ActiveAfterChanges(s, miner, changes, now, accepted, |changes|, d); }
  }

  lemma StartedByTick(s: State, t: State, changes: seq<SectorChange>, now: Epoch, accepted: seq<seq<bool>>)
    requires StartedBy(Tick(s, now), t, changes, now, accepted)
    ensures StartedBy(s, t, changes, now, accepted)
  {
  }

  // ---------- Runs ----------

  /** The event put the deal where it is: in a sector that the miner, its provider, notified of at the time
      the deal's state says, before it started, with an expiration no sooner than its end. */
  ghost predicate Placed(e: Event, d: DealId, p: Proposal, st: DealState) {
    && st.sectorStart == e.now <= p.start
    && match e.call
       case BatchActivateDeals(miner, sectors) =>
         miner == p.provider && exists sector :: InSector(sectors, sector, d, p, st)
       case SectorContentChanged(miner, changes) =>
         miner == p.provider && exists change :: InChange(changes, change, d, p, st)
       case _ => false
  }

  predicate InSector(sectors: seq<SectorDeals>, sector: SectorDeals, d: DealId, p: Proposal, st: DealState) {
    sector in sectors && sector.number == st.sector && d in sector.ids && p.end <= sector.expiry
  }

  /** Here the data is the deal's too. */
  predicate InChange(changes: seq<SectorChange>, change: SectorChange, d: DealId, p: Proposal, st: DealState) {
    && change in changes && change.number == st.sector && p.end <= change.commitment
    && Piece(Some(d), p.pieceCid, p.pieceSize) in change.pieces
  }

  /** Active deals are those active before, where they were. */
  ghost predicate NoneStarted(s: State, s': State, d: DealId) {
    d in s'.states ==>
      d in s.states && s'.states[d].sector == s.states[d].sector && s'.states[d].sectorStart == s.states[d].sectorStart
  }

  lemma SettleNoneStarted(s: State, c: DealId, now: Epoch, d: DealId)
    ensures NoneStarted(s, Settle(s, c, now), d)
  {
    hide Proposal.Fee, RemoveDeals, SettlePending, Advance, DueAt, PaidUntil, MissActivation;
  }

  lemma {:induction false} SettleAllNoneStarted(s: State, ids: seq<DealId>, now: Epoch, d: DealId)
    ensures NoneStarted(s, SettleAll(s, ids, now), d)
  {
    hide Settle;
    if ids != [] {
      SettleAllNoneStarted(s, ids[..|ids| - 1], now, d);
      SettleNoneStarted(SettleAll(s, ids[..|ids| - 1], now), ids[|ids| - 1], now, d);
    }
  }

  lemma TerminateNoneStarted(s: State, c: DealId, at: Epoch, d: DealId)
    ensures NoneStarted(s, Terminate(s, c, at), d)
  {
    hide Proposal.Fee, RemoveDeals, SettlePending, Pay, Forfeit, PaidUntil;
  }

  lemma {:induction false} TerminateAllNoneStarted(s: State, ids: seq<DealId>, at: Epoch, d: DealId)
    ensures NoneStarted(s, TerminateAll(s, ids, at), d)
  {
    hide Terminate;
    if ids != [] {
      TerminateAllNoneStarted(s, ids[..|ids| - 1], at, d);
      TerminateNoneStarted(TerminateAll(s, ids[..|ids| - 1], at), ids[|ids| - 1], at, d);
    }
  }

  lemma VisitNoneStarted(s: State, c: DealId, now: Epoch, d: DealId)
    ensures NoneStarted(s, Visit(s, c, now).0, d)
  {
    hide Proposal.Fee, RemoveDeals, SettlePending, Advance, DueAt, PaidUntil, MissActivation;
  }

  lemma {:induction false} VisitAllNoneStarted(s: State, ids: seq<DealId>, now: Epoch, d: DealId)
    ensures NoneStarted(s, VisitAll(s, ids, now).0, d)
  {
    hide Visit;
    if ids != [] {
      VisitAllNoneStarted(s, ids[..|ids| - 1], now, d);
      VisitNoneStarted(VisitAll(s, ids[..|ids| - 1], now).0, ids[|ids| - 1], now, d);
    }
  }

  lemma BatchStarts(s: State, e: Event, d: DealId)
    requires e.call.BatchActivateDeals?
    ensures var t := ActivateAll(s, e.call.miner, e.call.sectors, e.now);
      && t.proposals == s.proposals
      && if d in s.states then d in t.states && t.states[d] == s.states[d]
         else d in t.states ==> d in s.proposals && Placed(e, d, s.proposals[d], t.states[d])
  {
    hide ActivateAll, SectorReady;
    var sectors := e.call.sectors;
    assert sectors[..|sectors|] == sectors;
    ActiveAfter(s, e.call.miner, sectors, e.now, |sectors|, d);
    if d !in s.states && d in ActivateAll(s, e.call.miner, sectors, e.now).states {
      var k: nat :| k < |sectors| && PlacedIn(s, e.call.miner, sectors, e.now, k, d);
      ActiveAfter(s, e.call.miner, sectors, e.now, k, d);
      ReadyDeal(ActivateAll(s, e.call.miner, sectors[..k], e.now), e.call.miner, sectors[k], e.now, d);
      assert InSector(sectors, sectors[k], d, s.proposals[d], ActivateAll(s, e.call.miner, sectors, e.now).states[d]);
    }
  }

  lemma ReadyDeal(s: State, miner: Address, sector: SectorDeals, now: Epoch, d: DealId)
    requires SectorReady(s, miner, sector, now) && d in sector.ids
    ensures d in s.proposals && s.proposals[d].provider == miner
    ensures now <= s.proposals[d].start && s.proposals[d].end <= sector.expiry
  {
  }

  lemma {:induction false} ChangesStart(s: State, e: Event, n: nat, d: DealId)
    requires e.call.SectorContentChanged? && n <= |e.call.changes|
    ensures var t := ChangeAll(s, e.call.miner, e.call.changes[..n], e.now);
      && t.proposals == s.proposals
      && if d in s.states then d in t.states && t.states[d] == s.states[d]
         else d in t.states ==> d in s.proposals && Placed(e, d, s.proposals[d], t.states[d])
  {
    hide ChangeSector, Placed;
    var changes := e.call.changes;
    if n == 0 {
      assert changes[..0] == [];
    } else {
      var m := n - 1;
      assert changes[..n][..m] == changes[..m];
      ChangesStart(s, e, m, d);
      ChangeStarts(ChangeAll(s, e.call.miner, changes[..m], e.now), e, changes[m], d);
    }
  }

  lemma ChangeStarts(s: State, e: Event, change: SectorChange, d: DealId)
    requires e.call.SectorContentChanged? && change in e.call.changes
    ensures var t := ChangeSector(s, e.call.miner, change, e.now);
      && t.proposals == s.proposals
      && if d in s.states then d in t.states && t.states[d] == s.states[d]
         else d in t.states ==> d in s.proposals && Placed(e, d, s.proposals[d], t.states[d])
  {
    hide Entry;
    var t := ChangeSector(s, e.call.miner, change, e.now);
    if d in Accepted(s, e.call.miner, change.commitment, change.pieces, e.now) {
      assert InChange(e.call.changes, change, d, s.proposals[d], t.states[d]);
    }
  }

  /** A deal that a call leaves active was active before, where it is, or the call put it there. */
  lemma ApplyPlaces(s: State, e: Event, d: DealId)
    requires Inv(s) && Enabled(s, e) && d in Apply(s, e).states && d in Apply(s, e).proposals
    ensures if d in s.states then
        && d in s.proposals && Apply(s, e).proposals[d] == s.proposals[d]
        && Apply(s, e).states[d].sector == s.states[d].sector
        && Apply(s, e).states[d].sectorStart == s.states[d].sectorStart
      else Placed(e, d, Apply(s, e).proposals[d], Apply(s, e).states[d])
  {
    hide InvDuring, SubtractWithMinimum, Add, ActivateAll, ChangeAll, TerminateAll, SettleAll, VisitAll, PublishAll,
      Filter, AllLockable, KeysOf, Reschedule, Placed;
    var t := Tick(s, e.now);
    DealsBelowNext(s);
    ActiveLive(s);
    if !e.call.PublishStorageDeals? {
      ApplyNoneNew(s, e);
    }
    match e.call
    case AddBalance(_, _) =>
    case WithdrawBalance(_, _) =>
    case PublishStorageDeals(provider, deals, balances, transferred, allocations) =>
      var ps := Filter(t, provider, e.now, balances, deals).valid;
      PublishAllStates(t, ps, allocations);
      if d in PublishAll(t, ps, allocations).proposals {
        PublishAllAdds(t, ps, allocations, d);
      }
    case BatchActivateDeals(_, _) => BatchStarts(t, e, d);
    case SectorContentChanged(_, changes) =>
      assert changes[..|changes|] == changes;
      ChangesStart(t, e, |changes|, d);
    case OnMinerSectorsTerminate(_, _, at, order) => TerminateAllNoneStarted(t, order, at, d);
    case SettleDealPayments(ids) => SettleAllNoneStarted(t, ids, e.now, d);
    case EpochTick(order) => VisitAllNoneStarted(t, order, e.now, d);
  }

  lemma ActiveLive(s: State)
    requires Inv(s)
    ensures forall d: DealId :: d in s.states ==> d in s.proposals
  {
    hide LockedOk, TotalsOk, PendingOk, ScheduleOk, IndexOk, RecordsOk, FundsOk;
  }

  /** Over every run, an active deal is in the sector in which its provider placed it before it started, and
      that sector was to last at least until the deal's end. */
  lemma {:induction false} ActiveWasPlaced(events: seq<Event>, d: DealId)
    requires Possible(events) && d in Run(events).states
    ensures d in Run(events).proposals
    ensures exists e :: e in events && Placed(e, d, Run(events).proposals[d], Run(events).states[d])
  {
    hide Inv, Apply, Enabled, Placed;
    RunInv(events);
    ActiveLive(Run(events));
    if events == [] {
      NoneActive(d);
    } else {
      var n := |events| - 1;
      var pre, s := events[..n], Run(events[..n]);
      assert forall i :: 0 <= i < n ==> pre[..i] == events[..i];
      RunInv(pre);
      ApplyPlaces(s, events[n], d);
      if d in s.states {
        ActiveWasPlaced(pre, d);
        var e :| e in pre && Placed(e, d, s.proposals[d], s.states[d]);
        StillPlaced(e, d, s.proposals[d], s.states[d], Run(events).states[d]);
      } else {
        assert events[n] in events;
      }
    }
  }

  lemma NoneActive(d: DealId)
    ensures d !in INITIAL.states
  {
  }

  lemma StillPlaced(e: Event, d: DealId, p: Proposal, st: DealState, st': DealState)
    requires Placed(e, d, p, st) && st'.sector == st.sector && st'.sectorStart == st.sectorStart
    ensures Placed(e, d, p, st')
  {
    if e.call.BatchActivateDeals? {
      var sector :| InSector(e.call.sectors, sector, d, p, st);
      assert InSector(e.call.sectors, sector, d, p, st');
    } else {
      var change :| InChange(e.call.changes, change, d, p, st);
      assert InChange(e.call.changes, change, d, p, st');
    }
  }
}
