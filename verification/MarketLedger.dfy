/** What the ledger operations do to every balance, stated without the tables' representation. */
module MarketLedger {
  import opened BalanceTable
  import opened Deals
  import opened FiniteSums
  import opened MarketState

  /** The part of `a`'s locked balance that a deal with this much unpaid fee accounts for. */
  function ShareOf(p: Proposal, unpaid: int, a: Address): int {
    (if p.client == a then p.clientCollateral + unpaid else 0)
    + (if p.provider == a then p.providerCollateral else 0)
  }

  /** What a payment and a burn on one deal do to `a`'s escrow. */
  function FlowOf(p: Proposal, pay: int, burn: int, a: Address): int {
    (if p.provider == a then pay - burn else 0) - (if p.client == a then pay else 0)
  }

  /** Every account can cover what the deal holds locked in it. */
  ghost predicate Covers(l: Ledger, p: Proposal, unpaid: int) {
    forall a: Address :: ShareOf(p, unpaid, a) <= Get(l.locked, a) <= Get(l.escrow, a)
  }

  /** From `l` to `l'` the deal releases `freed` of the fee locked for it, `pay` of which goes to
      the provider; when it is closed both collaterals are released too, and `burn` of the
      provider's is destroyed. Nothing else moves. */
  ghost predicate Moves(l: Ledger, l': Ledger, p: Proposal, freed: int, closed: bool, pay: int, burn: int) {
    var cc := if closed then p.clientCollateral else 0;
    var pc := if closed then p.providerCollateral else 0;
    && (forall a: Address {:trigger Get(l'.locked, a)} :: Get(l'.locked, a) == Get(l.locked, a)
           - (if p.client == a then cc + freed else 0) - (if p.provider == a then pc else 0))
    && (forall a: Address {:trigger Get(l'.escrow, a)} ::
          Get(l'.escrow, a) == Get(l.escrow, a) + FlowOf(p, pay, burn, a))
    && Sum(l'.locked) == Sum(l.locked) - cc - freed - pc
    && Sum(l'.escrow) == Sum(l.escrow) - burn
    && l'.clientCollateral == l.clientCollateral - cc
    && l'.providerCollateral == l.providerCollateral - pc
    && l'.storageFee == l.storageFee - freed
  }

  lemma UnlockEffect(l: Ledger, a: Address, amount: int, reason: Reason)
    requires 0 <= amount <= Get(l.locked, a)
    ensures var l' := Unlock(l, a, amount, reason);
      && l'.escrow == l.escrow
      && Sum(l'.locked) == Sum(l.locked) - amount
      && forall b: Address :: Get(l'.locked, b) == Get(l.locked, b) - (if a == b then amount else 0)
  {
    hide Sum, Add;
    AddEffect(l.locked, a, -amount);
  }

  lemma NothingMoves(l: Ledger, p: Proposal)
    ensures Moves(l, l, p, 0, false, 0, 0)
  {
    hide Sum, Get;
    assert forall a: Address :: FlowOf(p, 0, 0, a) == 0;
  }

  lemma PayMoves(l: Ledger, p: Proposal, unpaid: int, amount: int)
    requires p.Sound() && Covers(l, p, unpaid) && 0 <= amount <= unpaid
    ensures Moves(l, Pay(l, p, amount), p, amount, false, amount, 0)
    ensures Covers(Pay(l, p, amount), p, unpaid - amount)
  {
    hide Sum, Add, Proposal.Fee;
    if amount > 0 {
      TransferMoves(l, p, unpaid, amount);
    } else {
      NothingMoves(l, p);
    }
  }

  lemma TransferMoves(l: Ledger, p: Proposal, unpaid: int, amount: int)
    requires p.Sound() && Covers(l, p, unpaid) && 0 < amount <= unpaid
    ensures Moves(l, Transfer(l, p.client, p.provider, amount), p, amount, false, amount, 0)
  {
    hide Sum, Add, Proposal.Fee;
    assert ShareOf(p, unpaid, p.client) <= Get(l.locked, p.client) <= Get(l.escrow, p.client);
    assert ShareOf(p, unpaid, p.provider) <= Get(l.locked, p.provider) <= Get(l.escrow, p.provider);
    UnlockEffect(l, p.client, amount, ClientStorageFee);
    AddEffect(l.escrow, p.client, -amount);
    AddEffect(Add(l.escrow, p.client, -amount), p.provider, amount);
    var l' := Transfer(l, p.client, p.provider, amount);
    assert l'.escrow == Add(Add(l.escrow, p.client, -amount), p.provider, amount);
    assert l'.locked == Unlock(l, p.client, amount, ClientStorageFee).locked;
  }

  lemma ExpireMoves(l: Ledger, p: Proposal)
    requires p.Sound() && Covers(l, p, 0)
    ensures Moves(l, Expire(l, p), p, 0, true, 0, 0)
  {
    hide Sum, Add, Proposal.Fee;
    assert ShareOf(p, 0, p.provider) <= Get(l.locked, p.provider);
    assert ShareOf(p, 0, p.client) <= Get(l.locked, p.client);
    UnlockEffect(l, p.provider, p.providerCollateral, ProviderCollateral);
    UnlockEffect(Unlock(l, p.provider, p.providerCollateral, ProviderCollateral), p.client, p.clientCollateral,
                 ClientCollateral);
  }

  /** Returning the fee and the client's collateral touches locked balances only. */
  lemma ReturnMoves(l: Ledger, p: Proposal, fee: int)
    requires p.Sound() && fee >= 0 && Covers(l, p, fee)
    ensures var l2 := Unlock(Unlock(l, p.client, fee, ClientStorageFee), p.client, p.clientCollateral,
                             ClientCollateral);
      && l2.escrow == l.escrow
      && (forall a: Address {:trigger Get(l2.locked, a)} ::
            Get(l2.locked, a) == Get(l.locked, a) - (if p.client == a then p.clientCollateral + fee else 0))
      && Sum(l2.locked) == Sum(l.locked) - p.clientCollateral - fee
      && p.providerCollateral <= Get(l2.locked, p.provider) && p.providerCollateral <= Get(l2.escrow, p.provider)
  {
    hide Sum, Add, Proposal.Fee;
    assert ShareOf(p, fee, p.provider) <= Get(l.locked, p.provider) <= Get(l.escrow, p.provider);
    assert ShareOf(p, fee, p.client) <= Get(l.locked, p.client);
    UnlockEffect(l, p.client, fee, ClientStorageFee);
    UnlockEffect(Unlock(l, p.client, fee, ClientStorageFee), p.client, p.clientCollateral, ClientCollateral);
  }

  lemma ForfeitMoves(l: Ledger, p: Proposal, fee: int)
    requires p.Sound() && fee >= 0 && Covers(l, p, fee)
    ensures Moves(l, Forfeit(l, p, fee), p, fee, true, 0, p.providerCollateral)
  {
    hide Sum, Add, Proposal.Fee, Covers;
    var l2 := Unlock(Unlock(l, p.client, fee, ClientStorageFee), p.client, p.clientCollateral, ClientCollateral);
    ReturnMoves(l, p, fee);
    AddEffect(l2.escrow, p.provider, -p.providerCollateral);
    UnlockEffect(l2.(escrow := Add(l2.escrow, p.provider, -p.providerCollateral)),
                 p.provider, p.providerCollateral, ProviderCollateral);
  }

  lemma MissActivationMoves(l: Ledger, p: Proposal)
    requires p.Sound() && Covers(l, p, p.TotalFee())
    ensures Moves(l, MissActivation(l, p), p, p.TotalFee(), true, 0, p.providerCollateral)
  {
    hide Sum, Add, Proposal.Fee, Forfeit;
    FeeSplits(p, p.start, p.end, p.end);
    ForfeitMoves(l, p, p.TotalFee());
    var l' := Forfeit(l, p, p.TotalFee());
    assert ShareOf(p, p.TotalFee(), p.provider) <= Get(l.locked, p.provider);
    UnlockEffect(l', p.provider, 0, ProviderCollateral);
  }

  /** Two movements on one deal add up. */
  lemma MovesCompose(l: Ledger, l1: Ledger, l2: Ledger, p: Proposal, f1: int, f2: int, closed: bool,
                     p1: int, p2: int, burn: int)
    requires Moves(l, l1, p, f1, false, p1, 0)
    requires Moves(l1, l2, p, f2, closed, p2, burn)
    ensures Moves(l, l2, p, f1 + f2, closed, p1 + p2, burn)
  {
    hide Sum;
  }

  lemma LockEffect(l: Ledger, p: Proposal)
    requires p.Sound() && (forall a: Address :: Get(l.locked, a) >= 0)
    ensures forall a: Address :: Get(Lock(l, p).locked, a) == Get(l.locked, a) + ShareOf(p, p.TotalFee(), a)
    ensures Sum(Lock(l, p).locked) == Sum(l.locked) + p.ClientRequirement() + p.providerCollateral
    ensures p.TotalFee() >= 0
  {
    hide Sum, Add, Proposal.Fee;
    FeeSplits(p, p.start, p.end, p.end);
    AddEffect(l.locked, p.client, p.ClientRequirement());
    AddEffect(Add(l.locked, p.client, p.ClientRequirement()), p.provider, p.providerCollateral);
  }
}
