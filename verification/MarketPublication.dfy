/** Publishing a batch of deals: the pre-filter on a frozen state, and the locking that follows it. */
module MarketPublication {
  import opened BalanceTable
  import opened Deals
  import opened MarketInvariant
  import opened MarketLedger
  import opened MarketSchedule
  import opened MarketState
  import opened Wrappers

  /** A proposal as submitted. `authentic` says that the signature, label and piece checks pass,
      and `minCollateral` is the network's lower bound on this deal's provider collateral. */
  datatype ClientDeal = ClientDeal(proposal: Proposal, authentic: bool, minCollateral: nat)

  /** What the filter has accepted so far, and the lockups it has committed to. */
  datatype Batch = Batch(
    valid: seq<Proposal>, picked: seq<nat>, clientLock: Table, providerLock: int, datacap: Table)

  const EMPTY: Batch := Batch([], [], map[], 0, map[])

  predicate Covered(l: Ledger, a: Address, amount: int) {
    Get(l.locked, a) + amount <= Get(l.escrow, a)
  }

  function Datacap(b: Batch, balances: Table, client: Address): int {
    if client in b.datacap then b.datacap[client] else Get(balances, client)
  }

  /** Passes judgement on the deal at position `i`. A verified deal that fails for lack of
      datacap is dropped, but its client's balance stays recorded. */
  function Consider(s: State, provider: Address, now: Epoch, balances: Table, b: Batch, i: nat,
                    deal: ClientDeal): Batch {
    var p := deal.proposal;
    var clientLock := Get(b.clientLock, p.client) + p.ClientRequirement();
    var providerLock := b.providerLock + p.providerCollateral;
    var required := p.pieceSize * DATACAP_PER_BYTE;
    var remaining := Datacap(b, balances, p.client);
    if !deal.authentic || !p.Publishable(now, deal.minCollateral) || p.provider != provider then b
    else if !Covered(s.ledger, p.client, clientLock) || !Covered(s.ledger, provider, providerLock) then b
    else if p in s.pending || p in b.valid then b
    else if p.verified && remaining < required then b.(datacap := b.datacap[p.client := remaining])
    else Batch(b.valid + [p], b.picked + [i], b.clientLock[p.client := clientLock], providerLock,
               if p.verified then b.datacap[p.client := remaining - required] else b.datacap)
  }

  function Filter(s: State, provider: Address, now: Epoch, balances: Table, deals: seq<ClientDeal>): Batch {
    if deals == [] then EMPTY else
      var n := |deals| - 1;
      Consider(s, provider, now, balances, Filter(s, provider, now, balances, deals[..n]), n, deals[n])
  }

  lemma FilterNone(s: State, provider: Address, now: Epoch, balances: Table, deals: seq<ClientDeal>)
    ensures Filter(s, provider, now, balances, deals[..0]) == EMPTY
  {
  }

  lemma FilterStep(s: State, provider: Address, now: Epoch, balances: Table, deals: seq<ClientDeal>, i: nat)
    requires i < |deals|
    ensures Filter(s, provider, now, balances, deals[..i + 1])
         == Consider(s, provider, now, balances, Filter(s, provider, now, balances, deals[..i]), i, deals[i])
  {
    hide Consider;
    assert deals[..i + 1][..i] == deals[..i];
  }

  /** Both lock requests of one deal succeed, the provider's after the client's. */
  predicate Lockable(l: Ledger, p: Proposal) {
    && 0 <= p.ClientRequirement() && Covered(l, p.client, p.ClientRequirement())
    && 0 <= p.providerCollateral
    && Get(Add(l.locked, p.client, p.ClientRequirement()), p.provider) + p.providerCollateral
       <= Get(l.escrow, p.provider)
  }

  function LockAll(l: Ledger, ps: seq<Proposal>): Ledger {
    if ps == [] then l else Lock(LockAll(l, ps[..|ps| - 1]), ps[|ps| - 1])
  }

  /** Locking the deals one by one, in order, never fails. */
  predicate AllLockable(l: Ledger, ps: seq<Proposal>) {
    ps == [] || (AllLockable(l, ps[..|ps| - 1]) && Lockable(LockAll(l, ps[..|ps| - 1]), ps[|ps| - 1]))
  }

  function AllocationFor(allocations: map<Proposal, AllocationId>, p: Proposal): Option<AllocationId> {
    if p in allocations then Some(allocations[p]) else None
  }

  function PublishAll(s: State, ps: seq<Proposal>, allocations: map<Proposal, AllocationId>): State {
    if ps == [] then s else
      var p := ps[|ps| - 1];
      Publish(PublishAll(s, ps[..|ps| - 1], allocations), p, AllocationFor(allocations, p))
  }

  /** The whole call: nothing is published unless everything accepted can be. */
  function PublishBatch(s: State, provider: Address, now: Epoch, balances: Table, deals: seq<ClientDeal>,
                        transferred: bool, allocations: map<Proposal, AllocationId>): State {
    var b := Filter(s, provider, now, balances, deals);
    if b.valid != [] && transferred && AllLockable(s.ledger, b.valid)
    then PublishAll(s, b.valid, allocations) else s
  }

  // ---------- What a batch needs of each account ----------

  function Need(ps: seq<Proposal>, a: Address): int {
    if ps == [] then 0 else
      Need(ps[..|ps| - 1], a) + ShareOf(ps[|ps| - 1], ps[|ps| - 1].TotalFee(), a)
  }

  function ClientNeed(ps: seq<Proposal>, a: Address): int {
    if ps == [] then 0 else
      var p := ps[|ps| - 1];
      ClientNeed(ps[..|ps| - 1], a) + (if p.client == a then p.ClientRequirement() else 0)
  }

  ghost predicate Solvent(l: Ledger) {
    forall a: Address :: 0 <= Get(l.locked, a) <= Get(l.escrow, a)
  }

  lemma LockableIff(l: Ledger, p: Proposal)
    requires Solvent(l) && p.Sound()
    ensures Lockable(l, p) <==> forall a: Address :: Get(l.locked, a) + ShareOf(p, p.TotalFee(), a) <= Get(l.escrow, a)
  {
    hide Add, Proposal.Fee;
    LockEffect(l, p);
    AddEffect(l.locked, p.client, p.ClientRequirement());
    if forall a: Address :: Get(l.locked, a) + ShareOf(p, p.TotalFee(), a) <= Get(l.escrow, a) {
      assert Get(l.locked, p.client) + ShareOf(p, p.TotalFee(), p.client) <= Get(l.escrow, p.client);
      assert Get(l.locked, p.provider) + ShareOf(p, p.TotalFee(), p.provider) <= Get(l.escrow, p.provider);
    }
  }

  lemma {:induction false} LockAllEffect(l: Ledger, ps: seq<Proposal>, a: Address)
    requires Solvent(l) && (forall p :: p in ps ==> p.Sound())
    ensures Get(LockAll(l, ps).locked, a) == Get(l.locked, a) + Need(ps, a)
    ensures LockAll(l, ps).escrow == l.escrow && Need(ps, a) >= 0
    decreases |ps|
  {
    hide Add, Proposal.Fee, Get;
    if ps != [] {
      var pre, p := ps[..|ps| - 1], ps[|ps| - 1];
      forall b: Address ensures Get(LockAll(l, pre).locked, b) >= 0 { LockAllEffect(l, pre, b); }
      LockAllEffect(l, pre, a);
      LockEffect(LockAll(l, pre), p);
    }
  }

  /** Locking a batch in order succeeds exactly when each account can cover all that is asked of it. */
  lemma {:induction false} AllLockableIff(l: Ledger, ps: seq<Proposal>)
    requires Solvent(l) && (forall p :: p in ps ==> p.Sound())
    ensures AllLockable(l, ps) <==> forall a: Address :: Get(l.locked, a) + Need(ps, a) <= Get(l.escrow, a)
  {
    hide Add, Proposal.Fee, Get, Lockable, Lock;
    if ps == [] {
      assert forall a: Address :: Need(ps, a) == 0;
    } else {
      var pre, p := ps[..|ps| - 1], ps[|ps| - 1];
      AllLockableIff(l, pre);
      LockEffect(l, p);
      forall a: Address ensures Get(LockAll(l, pre).locked, a) == Get(l.locked, a) + Need(pre, a) && Need(pre, a) >= 0
      {
        LockAllEffect(l, pre, a);
      }
      assert LockAll(l, pre).escrow == l.escrow by { LockAllEffect(l, pre, 0); }
      assert forall a: Address :: Need(ps, a) == Need(pre, a) + ShareOf(p, p.TotalFee(), a);
      if AllLockable(l, pre) {
        assert Solvent(LockAll(l, pre));
        LockableIff(LockAll(l, pre), p);
      } else {
        var a: Address :| Get(l.locked, a) + Need(pre, a) > Get(l.escrow, a);
        assert Get(l.locked, a) + Need(ps, a) > Get(l.escrow, a);
      }
    }
  }

  // ---------- The pre-filter ----------

  /** The accepted deals are valid, new and distinct, and the lockups recorded are what they need. */
  ghost predicate BatchOk(s: State, provider: Address, now: Epoch, b: Batch) {
    && (forall p :: p in b.valid ==> p.Sound() && now <= p.start && p.provider == provider && p !in s.pending)
    && (forall i, j :: 0 <= i < j < |b.valid| ==> b.valid[i] != b.valid[j])
    && (forall a: Address :: Need(b.valid, a) == Get(b.clientLock, a) + (if a == provider then b.providerLock else 0))
    && (forall a: Address :: Get(b.clientLock, a) == ClientNeed(b.valid, a))
    && (forall a: Address :: Covered(s.ledger, a, Get(b.clientLock, a)))
    && Covered(s.ledger, provider, b.providerLock)
    && b.providerLock >= 0
  }

  lemma AcceptOk(s: State, provider: Address, now: Epoch, b: Batch, b': Batch, p: Proposal)
    requires BatchOk(s, provider, now, b)
    requires p.Sound() && now <= p.start && p.provider == provider && p !in s.pending && p !in b.valid
    requires b'.valid == b.valid + [p]
    requires b'.clientLock == b.clientLock[p.client := Get(b.clientLock, p.client) + p.ClientRequirement()]
    requires b'.providerLock == b.providerLock + p.providerCollateral
    requires Covered(s.ledger, p.client, Get(b'.clientLock, p.client)) && Covered(s.ledger, provider, b'.providerLock)
    ensures BatchOk(s, provider, now, b')
  {
    hide Proposal.Fee;
    assert b'.valid[..|b'.valid| - 1] == b.valid;
    forall a: Address ensures
      && Need(b'.valid, a) == Get(b'.clientLock, a) + (if a == provider then b'.providerLock else 0)
      && Get(b'.clientLock, a) == ClientNeed(b'.valid, a)
      && Covered(s.ledger, a, Get(b'.clientLock, a))
    {
      assert Covered(s.ledger, a, Get(b.clientLock, a));
    }
  }

  lemma ConsiderOk(s: State, provider: Address, now: Epoch, balances: Table, b: Batch, i: nat, deal: ClientDeal)
    requires BatchOk(s, provider, now, b) && now >= 0
    ensures BatchOk(s, provider, now, Consider(s, provider, now, balances, b, i, deal))
  {
    hide Proposal.Fee, Need, ClientNeed, Covered, Datacap;
    var b' := Consider(s, provider, now, balances, b, i, deal);
    if b'.valid != b.valid {
      AcceptOk(s, provider, now, b, b', deal.proposal);
    }
  }

  lemma {:induction false} FilterOk(s: State, provider: Address, now: Epoch, balances: Table, deals: seq<ClientDeal>)
    requires Solvent(s.ledger) && now >= 0
    ensures BatchOk(s, provider, now, Filter(s, provider, now, balances, deals))
  {
    hide Consider;
    if deals != [] {
      var n := |deals| - 1;
      FilterOk(s, provider, now, balances, deals[..n]);
      ConsiderOk(s, provider, now, balances, Filter(s, provider, now, balances, deals[..n]), n, deals[n]);
    }
  }

  /** The pre-filter checks a client's and the provider's lockups apart. Locking what it accepts
      fails exactly when the provider, as a client of itself, cannot cover both together. */
  lemma PrefilterExact(s: State, provider: Address, now: Epoch, balances: Table, deals: seq<ClientDeal>)
    requires Solvent(s.ledger) && now >= 0
    ensures var b := Filter(s, provider, now, balances, deals);
      AllLockable(s.ledger, b.valid) <==> Covered(s.ledger, provider, Get(b.clientLock, provider) + b.providerLock)
  {
    hide Filter, AllLockable;
    var b := Filter(s, provider, now, balances, deals);
    FilterOk(s, provider, now, balances, deals);
    AllLockableIff(s.ledger, b.valid);
    if Covered(s.ledger, provider, Get(b.clientLock, provider) + b.providerLock) {
      forall a: Address ensures Get(s.ledger.locked, a) + Need(b.valid, a) <= Get(s.ledger.escrow, a) {
        assert Covered(s.ledger, a, Get(b.clientLock, a));
      }
    } else {
      assert Get(s.ledger.locked, provider) + Need(b.valid, provider) > Get(s.ledger.escrow, provider);
    }
  }

  /** No authentic deal has the provider for its client. The provider is a miner actor, and a miner
      does not answer the question whether a signature is its own. */
  ghost predicate NoSelfDeals(provider: Address, deals: seq<ClientDeal>) {
    forall deal <- deals :: deal.authentic ==> deal.proposal.client != provider
  }

  /** In a batch without authentic deals of the provider with itself, locking the accepted deals never fails. */
  lemma PrefilterSufficient(s: State, provider: Address, now: Epoch, balances: Table, deals: seq<ClientDeal>)
    requires Solvent(s.ledger) && now >= 0
    requires NoSelfDeals(provider, deals)
    ensures AllLockable(s.ledger, Filter(s, provider, now, balances, deals).valid)
  {
    hide AllLockable, Consider, BatchOk;
    PrefilterExact(s, provider, now, balances, deals);
    FilterOk(s, provider, now, balances, deals);
    FilterPicks(s, provider, now, balances, deals);
    NoSelfDealing(s, provider, now, Filter(s, provider, now, balances, deals));
  }

  lemma NoSelfDealing(s: State, provider: Address, now: Epoch, b: Batch)
    requires BatchOk(s, provider, now, b) && (forall p :: p in b.valid ==> p.client != provider)
    ensures Covered(s.ledger, provider, Get(b.clientLock, provider) + b.providerLock)
  {
    NotAClient(b.valid, provider);
  }

  lemma {:induction false} NotAClient(ps: seq<Proposal>, a: Address)
    requires forall p :: p in ps ==> p.client != a
    ensures ClientNeed(ps, a) == 0
  {
    if ps != [] {
      NotAClient(ps[..|ps| - 1], a);
    }
  }

  /** The accepted deals are some of those submitted, at the positions recorded, in order. */
  lemma {:induction false} FilterPicks(s: State, provider: Address, now: Epoch, balances: Table, deals: seq<ClientDeal>)
    ensures var b := Filter(s, provider, now, balances, deals);
      && |b.valid| == |b.picked|
      && (forall j :: 0 <= j < |b.valid| ==>
            b.picked[j] < |deals| && b.valid[j] == deals[b.picked[j]].proposal && deals[b.picked[j]].authentic)
      && (forall j, k :: 0 <= j < k < |b.picked| ==> b.picked[j] < b.picked[k])
  {
    hide Proposal.Fee, Covered, Datacap, Proposal.Publishable;
    if deals != [] {
      FilterPicks(s, provider, now, balances, deals[..|deals| - 1]);
    }
  }

  // ---------- Which deals are accepted ----------

  /** An authentic deal of the provider, not started, that lasts between 180 and 1278 days, with its price and
      collaterals between their bounds and at most two billion tokens. */
  ghost predicate Admissible(deal: ClientDeal, provider: Address, now: Epoch) {
    var p := deal.proposal;
    && deal.authentic && p.provider == provider && now <= p.start
    && 518_400 <= p.end - p.start <= 3_680_640
    && 0 <= p.price <= 2_000_000_000_000_000_000_000_000_000
    && deal.minCollateral <= p.providerCollateral <= 2_000_000_000_000_000_000_000_000_000
    && 0 <= p.clientCollateral <= 2_000_000_000_000_000_000_000_000_000
  }

  function ProviderNeed(ps: seq<Proposal>): int {
    if ps == [] then 0 else ProviderNeed(ps[..|ps| - 1]) + ps[|ps| - 1].providerCollateral
  }

  function VerifiedBytes(ps: seq<Proposal>, a: Address): nat {
    if ps == [] then 0 else
      var p := ps[|ps| - 1];
      VerifiedBytes(ps[..|ps| - 1], a) + (if p.verified && p.client == a then p.pieceSize else 0)
  }

  /** After those accepted before it, the deal can still be paid for: in tokens by both parties, and in
      datacap by the client if it is verified. */
  ghost predicate Affordable(s: State, provider: Address, balances: Table, before: seq<Proposal>, p: Proposal) {
    && Get(s.ledger.locked, p.client) + ClientNeed(before, p.client) + p.clientCollateral + p.price * (p.end - p.start)
       <= Get(s.ledger.escrow, p.client)
    && Get(s.ledger.locked, provider) + ProviderNeed(before) + p.providerCollateral <= Get(s.ledger.escrow, provider)
    && (p.verified ==>
          (VerifiedBytes(before, p.client) + p.pieceSize) * 1_000_000_000_000_000_000 <= Get(balances, p.client))
  }

  /** `n` of the positions picked lie before `i`. */
  ghost predicate Rank(picked: seq<nat>, i: nat, n: nat) {
    && n <= |picked|
    && (forall j :: 0 <= j < n ==> picked[j] < i)
    && (forall j :: n <= j < |picked| ==> i <= picked[j])
  }

  ghost predicate Within(picked: seq<nat>, n: nat) {
    && (forall j :: 0 <= j < |picked| ==> picked[j] < n)
    && (forall j, k :: 0 <= j < k < |picked| ==> picked[j] < picked[k])
  }

  ghost function At(deals: seq<ClientDeal>, picked: seq<nat>): seq<Proposal>
    requires Within(picked, |deals|)
  {
    seq(|picked|, j requires 0 <= j < |picked| => deals[picked[j]].proposal)
  }

  /** The positions picked are exactly those of the admissible deals that are neither pending nor accepted
      before in the batch, and can be paid for after those accepted before. */
  ghost predicate Selected(s: State, provider: Address, now: Epoch, balances: Table, deals: seq<ClientDeal>,
                           picked: seq<nat>) {
    && Within(picked, |deals|)
    && forall i: nat, n: nat :: i < |deals| && Rank(picked, i, n) ==>
         var before, p := At(deals, picked)[..n], deals[i].proposal;
         i in picked <==>
           && Admissible(deals[i], provider, now) && p !in s.pending && p !in before
           && Affordable(s, provider, balances, before, p)
  }

  /** The running lockups and datacap are those of the deals accepted so far. */
  ghost predicate Running(b: Batch, balances: Table) {
    && (forall a: Address :: Get(b.clientLock, a) == ClientNeed(b.valid, a))
    && b.providerLock == ProviderNeed(b.valid)
    && (forall a: Address ::
          Datacap(b, balances, a) == Get(balances, a) - VerifiedBytes(b.valid, a) * 1_000_000_000_000_000_000)
  }

  lemma AcceptRunning(b: Batch, b': Batch, balances: Table, p: Proposal)
    requires Running(b, balances) && b'.valid == b.valid + [p]
    requires b'.clientLock == b.clientLock[p.client := Get(b.clientLock, p.client) + p.ClientRequirement()]
    requires b'.providerLock == b.providerLock + p.providerCollateral
    requires b'.datacap ==
      if p.verified then b.datacap[p.client := Datacap(b, balances, p.client) - p.pieceSize * DATACAP_PER_BYTE]
      else b.datacap
    ensures Running(b', balances)
  {
    hide Proposal.ClientRequirement;
    assert b'.valid[..|b'.valid| - 1] == b.valid;
    forall a: Address
      ensures Get(b'.clientLock, a) == ClientNeed(b'.valid, a)
      ensures Datacap(b', balances, a) ==
        Get(balances, a) - VerifiedBytes(b'.valid, a) * 1_000_000_000_000_000_000
    {
      assert Get(b.clientLock, a) == ClientNeed(b.valid, a);
      assert Datacap(b, balances, a) == Get(balances, a) - VerifiedBytes(b.valid, a) * 1_000_000_000_000_000_000;
    }
  }

  lemma ConsiderRunning(s: State, provider: Address, now: Epoch, balances: Table, b: Batch, i: nat, deal: ClientDeal)
    requires Running(b, balances)
    ensures Running(Consider(s, provider, now, balances, b, i, deal), balances)
  {
    hide Proposal.ClientRequirement, Proposal.Publishable, Covered, ClientNeed, ProviderNeed, VerifiedBytes;
    var b', p := Consider(s, provider, now, balances, b, i, deal), deal.proposal;
    if b'.valid != b.valid {
      hide Running;
      AcceptRunning(b, b', balances, p);
    } else {
      assert b'.clientLock == b.clientLock && b'.providerLock == b.providerLock;
      assert forall a: Address :: Datacap(b', balances, a) == Datacap(b, balances, a);
    }
  }

  lemma ConsiderIs(s: State, provider: Address, now: Epoch, balances: Table, b: Batch, i: nat, deal: ClientDeal)
    requires Running(b, balances)
    ensures var b', p := Consider(s, provider, now, balances, b, i, deal), deal.proposal;
      if Admissible(deal, provider, now) && p !in s.pending && p !in b.valid
         && Affordable(s, provider, balances, b.valid, p)
      then b'.valid == b.valid + [p] && b'.picked == b.picked + [i]
      else b'.valid == b.valid && b'.picked == b.picked
  {
    hide ClientNeed, ProviderNeed, VerifiedBytes;
    assert deal.proposal.ClientRequirement() ==
      deal.proposal.clientCollateral + deal.proposal.price * (deal.proposal.end - deal.proposal.start);
  }

  lemma RankBefore(picked: seq<nat>, picked': seq<nat>, n: nat, i: nat, m: nat)
    requires Within(picked, n) && (picked' == picked || picked' == picked + [n]) && i <= n && Rank(picked', i, m)
    ensures m <= |picked| && (if i < n then Rank(picked, i, m) else m == |picked|)
  {
    assert forall j :: 0 <= j < |picked| ==> picked'[j] == picked[j];
    assert picked' != picked ==> picked'[|picked|] == n;
    assert m < |picked| ==> picked'[m] == picked[m];
  }

  lemma SelectedMore(s: State, provider: Address, now: Epoch, balances: Table, deals: seq<ClientDeal>,
                     picked: seq<nat>, picked': seq<nat>)
    requires deals != []
    requires var n := |deals| - 1;
      && Selected(s, provider, now, balances, deals[..n], picked)
      && var before, p := At(deals[..n], picked), deals[n].proposal;
         if Admissible(deals[n], provider, now) && p !in s.pending && p !in before
            && Affordable(s, provider, balances, before, p)
         then picked' == picked + [n] else picked' == picked
    ensures Selected(s, provider, now, balances, deals, picked')
    ensures At(deals, picked') == At(deals[..|deals| - 1], picked) +
      if picked' == picked then [] else [deals[|deals| - 1].proposal]
  {
    hide Admissible, Affordable;
    var n := |deals| - 1;
    var front := deals[..n];
    assert At(deals, picked')[..|picked|] == At(front, picked);
    forall i: nat, m: nat | i < |deals| && Rank(picked', i, m)
      ensures var before, p := At(deals, picked')[..m], deals[i].proposal;
        i in picked' <==>
          && Admissible(deals[i], provider, now) && p !in s.pending && p !in before
          && Affordable(s, provider, balances, before, p)
    {
      RankBefore(picked, picked', n, i, m);
      if i < n {
        assert At(deals, picked')[..m] == At(front, picked)[..m];
        assert front[i] == deals[i];
      } else {
        assert At(deals, picked')[..m] == At(front, picked);
      }
    }
  }

  /** The filter accepts exactly the deals that it should, given those it accepted before. */
  lemma {:induction false} FilterExact(s: State, provider: Address, now: Epoch, balances: Table, deals: seq<ClientDeal>)
    ensures var b := Filter(s, provider, now, balances, deals);
      && Running(b, balances) && Selected(s, provider, now, balances, deals, b.picked)
      && b.valid == At(deals, b.picked)
  {
    hide Consider, Admissible, Affordable, Running;
    if deals == [] {
      NothingRunning(balances);
    } else {
      var n := |deals| - 1;
      FilterExact(s, provider, now, balances, deals[..n]);
      var b := Filter(s, provider, now, balances, deals[..n]);
      ConsiderRunning(s, provider, now, balances, b, n, deals[n]);
      ConsiderIs(s, provider, now, balances, b, n, deals[n]);
      SelectedMore(s, provider, now, balances, deals, b.picked, Filter(s, provider, now, balances, deals).picked);
    }
  }

  lemma NothingRunning(balances: Table)
    ensures Running(EMPTY, balances)
  {
  }

  lemma SelectedWithin(s: State, provider: Address, now: Epoch, balances: Table, deals: seq<ClientDeal>,
                       picked: seq<nat>)
    requires Selected(s, provider, now, balances, deals, picked)
    ensures Within(picked, |deals|)
  {
  }

  lemma PickedAffordable(s: State, provider: Address, now: Epoch, balances: Table, deals: seq<ClientDeal>,
                         picked: seq<nat>, n: nat)
    requires Selected(s, provider, now, balances, deals, picked) && n < |picked|
    ensures Affordable(s, provider, balances, At(deals, picked)[..n], At(deals, picked)[n])
  {
    hide Admissible, Affordable;
    assert Rank(picked, picked[n], n);
  }

  /** What the deals take of the client's datacap, it has. */
  ghost predicate HasDatacap(balances: Table, taken: seq<Proposal>, a: Address) {
    || VerifiedBytes(taken, a) * 1_000_000_000_000_000_000 <= Get(balances, a)
    || ((forall p <- taken :: !(p.verified && p.client == a)) && VerifiedBytes(taken, a) == 0)
  }

  lemma DatacapOfOneMore(s: State, provider: Address, balances: Table, taken: seq<Proposal>, a: Address)
    requires var n := |taken| - 1;
      taken != [] && HasDatacap(balances, taken[..n], a) && Affordable(s, provider, balances, taken[..n], taken[n])
    ensures HasDatacap(balances, taken, a)
  {
    hide ClientNeed, ProviderNeed;
    assert taken == taken[..|taken| - 1] + [taken[|taken| - 1]];
  }

  /** What the accepted deals take of a client's datacap, it has. */
  lemma {:induction false} DatacapSuffices(s: State, provider: Address, now: Epoch, balances: Table,
                                           deals: seq<ClientDeal>, picked: seq<nat>, n: nat, a: Address)
    requires Selected(s, provider, now, balances, deals, picked) && n <= |picked|
    ensures HasDatacap(balances, At(deals, picked)[..n], a)
  {
    hide Selected, Affordable;
    SelectedWithin(s, provider, now, balances, deals, picked);
    if n > 0 {
      DatacapSuffices(s, provider, now, balances, deals, picked, n - 1, a);
      PickedAffordable(s, provider, now, balances, deals, picked, n - 1);
      var taken := At(deals, picked)[..n];
      assert taken[..n - 1] == At(deals, picked)[..n - 1];
      DatacapOfOneMore(s, provider, balances, taken, a);
    }
  }

  // ---------- The invariant through publication ----------

  lemma {:induction false} PublishAllFields(s: State, ps: seq<Proposal>, allocations: map<Proposal, AllocationId>)
    ensures var t := PublishAll(s, ps, allocations);
      && t.pending == s.pending + (set p | p in ps)
      && t.ledger == LockAll(s.ledger, ps)
      && t.lastCron == s.lastCron && t.history.clock == s.history.clock
      && t.nextId == s.nextId + |ps|
  {
    hide Lock, Schedule, NextUpdateEpoch;
    if ps != [] {
      var pre, p := ps[..|ps| - 1], ps[|ps| - 1];
      PublishAllFields(s, pre, allocations);
      assert ps == pre + [p];
      assert s.pending + (set q | q in pre) + {p} == s.pending + (set q | q in ps);
    }
  }

  lemma {:induction false} PublishAllStates(s: State, ps: seq<Proposal>, allocations: map<Proposal, AllocationId>)
    ensures PublishAll(s, ps, allocations).states == s.states
  {
    hide Lock, Schedule, NextUpdateEpoch;
    if ps != [] {
      PublishAllStates(s, ps[..|ps| - 1], allocations);
    }
  }

  lemma {:induction false} PublishAllAt(s: State, ps: seq<Proposal>, allocations: map<Proposal, AllocationId>, i: nat)
    requires i < |ps|
    ensures var t := PublishAll(s, ps, allocations);
      s.nextId + i in t.proposals && t.proposals[s.nextId + i] == ps[i]
  {
    hide Lock, Schedule, NextUpdateEpoch;
    var pre := ps[..|ps| - 1];
    PublishAllFields(s, pre, allocations);
    if i < |pre| {
      PublishAllAt(s, pre, allocations, i);
    }
  }

  lemma {:induction false} PublishAllKeeps(s: State, ps: seq<Proposal>, allocations: map<Proposal, AllocationId>)
    requires Inv(s) && AllLockable(s.ledger, ps)
    requires forall p :: p in ps ==> p.Sound() && s.lastCron < p.start && p !in s.pending
    requires forall i, j :: 0 <= i < j < |ps| ==> ps[i] != ps[j]
    ensures Inv(PublishAll(s, ps, allocations))
  {
    hide InvDuring, Publish, Lockable, Proposal.Fee, Lock;
    if ps != [] {
      var pre, p := ps[..|ps| - 1], ps[|ps| - 1];
      PublishAllKeeps(s, pre, allocations);
      var t := PublishAll(s, pre, allocations);
      PublishAllFields(s, pre, allocations);
      InvSolvent(t);
      LockableIff(t.ledger, p);
      PublishKeeps(t, p, AllocationFor(allocations, p));
    }
  }

  lemma InvSolvent(s: State)
    requires Inv(s)
    ensures Solvent(s.ledger)
  {
    hide PendingOk, ScheduleOk, IndexOk, RecordsOk, FundsOk, TotalsOk, LockedOk, DealsOk;
    forall a: Address ensures 0 <= Get(s.ledger.locked, a) <= Get(s.ledger.escrow, a) {
      LockedNonNegative(s, a);
    }
  }

  lemma PublishBatchKeeps(s: State, provider: Address, now: Epoch, balances: Table, deals: seq<ClientDeal>,
                          transferred: bool, allocations: map<Proposal, AllocationId>)
    requires Inv(s) && s.history.clock == now >= 0 && s.lastCron < now
    ensures var t := PublishBatch(s, provider, now, balances, deals, transferred, allocations);
      Inv(t) && t.history.clock == now
  {
    hide InvDuring, Filter, AllLockable, Need, Covered;
    var b := Filter(s, provider, now, balances, deals);
    InvSolvent(s);
    FilterOk(s, provider, now, balances, deals);
    if b.valid != [] && transferred && AllLockable(s.ledger, b.valid) {
      PublishAllKeeps(s, b.valid, allocations);
      PublishAllFields(s, b.valid, allocations);
    }
  }
}
