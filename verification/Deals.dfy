/** Storage deals: the terms a client and a provider agree on, and how far along they are. */
module Deals {
  import opened Arithmetic
  import opened Quantization
  import opened BalanceTable

  type DealId = nat
  type SectorNumber = nat
  type AllocationId = nat
  type Epoch = int

  const EPOCH_UNDEFINED: Epoch := -1
  const EPOCHS_IN_DAY := 2880
  const MIN_DURATION := 180 * EPOCHS_IN_DAY
  const MAX_DURATION := 1278 * EPOCHS_IN_DAY
  /** Two billion whole tokens, in attoFIL: the cap on prices and collaterals. */
  const TOTAL_FILECOIN := 2_000_000_000 * 1_000_000_000_000_000_000
  /** Attotokens of datacap per byte of a verified piece. */
  const DATACAP_PER_BYTE := 1_000_000_000_000_000_000

  datatype Proposal = Proposal(
    pieceCid: nat, pieceSize: nat, verified: bool, client: Address, provider: Address,
    dealLabel: string, start: Epoch, end: Epoch, price: int,
    providerCollateral: int, clientCollateral: int)
  {
    function Duration(): int { end - start }

    /** What the client owes for the epochs from `lo` to `hi`. */
    function Fee(lo: Epoch, hi: Epoch): int { price * (hi - lo) }

    function TotalFee(): int { Fee(start, end) }

    function ClientRequirement(): int { clientCollateral + TotalFee() }

    /** The stateless part of publication that the ledger depends on. `minCollateral`
        is the network's lower bound for this deal. */
    predicate Publishable(now: Epoch, minCollateral: nat) {
      && start < end
      && now <= start
      && MIN_DURATION <= Duration() <= MAX_DURATION
      && 0 <= price <= TOTAL_FILECOIN
      && minCollateral <= providerCollateral <= TOTAL_FILECOIN
      && 0 <= clientCollateral <= TOTAL_FILECOIN
    }

    /** What every stored proposal satisfies. */
    predicate Sound() {
      0 <= start < end && price >= 0 && providerCollateral >= 0 && clientCollateral >= 0
    }
  }

  datatype DealState = DealState(
    sector: SectorNumber, sectorStart: Epoch, lastUpdated: Epoch, slashEpoch: Epoch)

  /** The fee is additive over adjoining spans and never negative. */
  lemma FeeSplits(p: Proposal, a: Epoch, b: Epoch, c: Epoch)
    ensures p.Fee(a, b) + p.Fee(b, c) == p.Fee(a, c)
    ensures p.price >= 0 && a <= b ==> p.Fee(a, b) >= 0
  {
  }

  /** The first epoch no sooner than `earliest` at which deal `id` comes up for an update:
      each deal has a fixed place within every `interval` of epochs. */
  function NextUpdateEpoch(id: DealId, interval: int, earliest: Epoch): Epoch
    requires interval > 0
  {
    var offset := TruncMod(id, interval);
    var remainder := TruncMod(earliest - offset, interval);
    var quotient := TruncDiv(earliest - offset, interval);
    if remainder == 0 || earliest - offset < 0 then
      interval * quotient + offset
    else
      interval * (quotient + 1) + offset
  }

  /** The update epoch is the unique one in the `interval` epochs from `earliest` on
      that is congruent to the deal's identifier. */
  lemma NextUpdateEpochIsFirst(id: DealId, interval: int, earliest: Epoch)
    requires interval > 0
    ensures earliest <= NextUpdateEpoch(id, interval, earliest) < earliest + interval
    ensures (NextUpdateEpoch(id, interval, earliest) - id) % interval == 0
  {
    hide QuantizeUp, TruncDiv, TruncMod;
    UpdatesAreQuantized(id, interval, earliest);
    QuantizeUpIsNearest(QuantSpec(interval, id), earliest);
  }

  /** It is the earliest epoch rounded up to the deal's place. */
  lemma UpdatesAreQuantized(id: DealId, interval: int, earliest: Epoch)
    requires interval > 0
    ensures NextUpdateEpoch(id, interval, earliest) == QuantizeUp(QuantSpec(interval, id), earliest)
  {
    hide TruncDiv, TruncMod;
  }
}
