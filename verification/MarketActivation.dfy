/** Activating deals, sector by sector, from either of the two notifications a miner sends. */
module MarketActivation {
  import opened BalanceTable
  import opened Deals
  import opened MarketInvariant
  import opened MarketSchedule
  import opened MarketState
  import opened Wrappers

  datatype SectorDeals = SectorDeals(number: SectorNumber, expiry: Epoch, ids: seq<DealId>)

  datatype Piece = Piece(deal: Option<DealId>, data: nat, size: nat)
  datatype SectorChange = SectorChange(number: SectorNumber, commitment: Epoch, pieces: seq<Piece>)

  predicate Distinct(ids: seq<DealId>) {
    forall i, j :: 0 <= i < j < |ids| ==> ids[i] != ids[j]
  }

  function IdSet(ids: seq<DealId>): set<DealId> {
    set d | d in ids
  }

  /** A sector's deals are activated together or not at all. */
  predicate SectorReady(s: State, miner: Address, sector: SectorDeals, now: Epoch) {
    && Distinct(sector.ids)
    && forall d: DealId :: d in sector.ids ==> CanActivate(s, d, miner, sector.expiry, now)
  }

  function ActivateSector(s: State, miner: Address, sector: SectorDeals, now: Epoch): State {
    if SectorReady(s, miner, sector, now)
    then Activate(s, (miner, sector.number), IdSet(sector.ids), now) else s
  }

  function ActivateAll(s: State, miner: Address, sectors: seq<SectorDeals>, now: Epoch): State {
    if sectors == [] then s else
      ActivateSector(ActivateAll(s, miner, sectors[..|sectors| - 1], now), miner, sectors[|sectors| - 1], now)
  }

  predicate PieceFits(s: State, miner: Address, commitment: Epoch, piece: Piece, now: Epoch) {
    && piece.deal.Some?
    && CanActivate(s, piece.deal.value, miner, commitment, now)
    && piece.data == s.proposals[piece.deal.value].pieceCid
    && piece.size == s.proposals[piece.deal.value].pieceSize
  }

  /** Here each piece is accepted or not on its own. */
  function Accepted(s: State, miner: Address, commitment: Epoch, pieces: seq<Piece>, now: Epoch): set<DealId> {
    set piece | piece in pieces && PieceFits(s, miner, commitment, piece, now) :: piece.deal.value
  }

  /** The pieces taken: those that fit, but only the first for a deal. */
  ghost predicate TakesPieces(s: State, miner: Address, change: SectorChange, now: Epoch, taken: seq<bool>) {
    && |taken| == |change.pieces|
    && forall i :: 0 <= i < |taken| ==>
         (taken[i] <==> PieceFits(s, miner, change.commitment, change.pieces[i], now)
                        && forall k :: 0 <= k < i && taken[k] ==> change.pieces[k].deal != change.pieces[i].deal)
  }

  function ChangeSector(s: State, miner: Address, change: SectorChange, now: Epoch): State {
    Activate(s, (miner, change.number), Accepted(s, miner, change.commitment, change.pieces, now), now)
  }

  function ChangeAll(s: State, miner: Address, changes: seq<SectorChange>, now: Epoch): State {
    if changes == [] then s else
      ChangeSector(ChangeAll(s, miner, changes[..|changes| - 1], now), miner, changes[|changes| - 1], now)
  }

  /** A published deal that is not active is pending: activation never finds it missing. */
  lemma InactiveIsPending(s: State, d: DealId)
    requires Inv(s) && d in s.proposals && d !in s.states
    ensures s.proposals[d] in s.pending
  {
    hide DealsOk, LockedOk, TotalsOk, ScheduleOk, IndexOk, RecordsOk, FundsOk, Fresh;
  }

  lemma {:induction false} ActivateAllKeeps(s: State, miner: Address, sectors: seq<SectorDeals>, now: Epoch)
    requires Inv(s) && s.history.clock == now >= 0
    ensures var t := ActivateAll(s, miner, sectors, now); Inv(t) && t.history.clock == now
  {
    hide InvDuring, Entry;
    if sectors != [] {
      var t, sector := ActivateAll(s, miner, sectors[..|sectors| - 1], now), sectors[|sectors| - 1];
      ActivateAllKeeps(s, miner, sectors[..|sectors| - 1], now);
      if SectorReady(t, miner, sector, now) {
        ActivateKeeps(t, (miner, sector.number), IdSet(sector.ids), now);
      }
    }
  }

  lemma {:induction false} ChangeAllKeeps(s: State, miner: Address, changes: seq<SectorChange>, now: Epoch)
    requires Inv(s) && s.history.clock == now >= 0
    ensures var t := ChangeAll(s, miner, changes, now); Inv(t) && t.history.clock == now
  {
    hide InvDuring, Entry;
    if changes != [] {
      var t, change := ChangeAll(s, miner, changes[..|changes| - 1], now), changes[|changes| - 1];
      ChangeAllKeeps(s, miner, changes[..|changes| - 1], now);
      ActivateKeeps(t, (miner, change.number), Accepted(t, miner, change.commitment, change.pieces, now), now);
    }
  }
}
