/** The storage market's state, and what each actor call does to one deal at a time.

    The functions here are the reference semantics: one deal after another, every
    structure updated at once. The actor itself (module MarketActor) works in batches,
    reading snapshots and deferring some writes to the end of a call. */
module MarketState {
  import opened Arithmetic
  import opened BalanceTable
  import opened Deals
  import opened Wrappers

  const DEAL_UPDATES_INTERVAL := 30 * EPOCHS_IN_DAY

  // ---------- Data ----------

  datatype Reason = ClientCollateral | ClientStorageFee | ProviderCollateral

  /** Escrowed and locked balances, and the locked amount memoised by reason. */
  datatype Ledger = Ledger(
    escrow: Table, locked: Table,
    clientCollateral: int, providerCollateral: int, storageFee: int)

  datatype Outcome = Live | Completed | Terminated(at: Epoch) | TimedOut

  /** What has happened to the money of one deal since it was published. */
  datatype Record = Record(proposal: Proposal, paid: int, refunded: int, burnt: int, outcome: Outcome)

  /** The past, kept for stating properties: the actor never reads it. */
  datatype History = History(
    clock: Epoch, net: Table, deposited: int, withdrawn: int, records: map<DealId, Record>)

  type SectorKey = (Address, SectorNumber)

  /** `sectorDeals` is the provider-to-sector-to-deals index with both levels in one key.
      A proposal stands for its own CID, so `pending` is a set of proposals. */
  datatype State = State(
    proposals: map<DealId, Proposal>,
    states: map<DealId, DealState>,
    pending: set<Proposal>,
    ledger: Ledger,
    nextId: DealId,
    ops: map<Epoch, set<DealId>>,
    lastCron: Epoch,
    allocations: map<DealId, AllocationId>,
    sectorDeals: map<SectorKey, set<DealId>>,
    history: History)

  const INITIAL: State := State(
    map[], map[], {}, Ledger(map[], map[], 0, 0, 0), 0, map[], EPOCH_UNDEFINED, map[], map[],
    History(EPOCH_UNDEFINED, map[], 0, 0, map[]))

  predicate NeverUpdated(s: State, d: DealId) {
    d in s.states ==> s.states[d].lastUpdated == EPOCH_UNDEFINED
  }

  /** The epoch up to which the client has paid for a published deal. */
  function PaidUntil(s: State, d: DealId): Epoch
    requires d in s.proposals
  {
    Max(s.proposals[d].start, if d in s.states then s.states[d].lastUpdated else EPOCH_UNDEFINED)
  }

  function Unpaid(s: State, d: DealId): int
    requires d in s.proposals
  {
    s.proposals[d].Fee(PaidUntil(s, d), s.proposals[d].end)
  }

  // ---------- Ledger operations ----------

  function Release(l: Ledger, amount: int, reason: Reason): Ledger {
    match reason
    case ClientCollateral => l.(clientCollateral := l.clientCollateral - amount)
    case ClientStorageFee => l.(storageFee := l.storageFee - amount)
    case ProviderCollateral => l.(providerCollateral := l.providerCollateral - amount)
  }

  function Unlock(l: Ledger, a: Address, amount: int, reason: Reason): Ledger {
    Release(l, amount, reason).(locked := Add(l.locked, a, -amount))
  }

  /** Moves funds from locked in one account to available in another. */
  function Transfer(l: Ledger, from: Address, to: Address, amount: int): Ledger {
    Unlock(l, from, amount, ClientStorageFee)
      .(escrow := Add(Add(l.escrow, from, -amount), to, amount))
  }

  function Slash(l: Ledger, a: Address, amount: int, reason: Reason): Ledger {
    Unlock(l.(escrow := Add(l.escrow, a, -amount)), a, amount, reason)
  }

  function Lock(l: Ledger, p: Proposal): Ledger {
    l.(locked := Add(Add(l.locked, p.client, p.ClientRequirement()), p.provider, p.providerCollateral),
       clientCollateral := l.clientCollateral + p.clientCollateral,
       storageFee := l.storageFee + p.TotalFee(),
       providerCollateral := l.providerCollateral + p.providerCollateral)
  }

  function Pay(l: Ledger, p: Proposal, amount: int): Ledger {
    if amount > 0 then Transfer(l, p.client, p.provider, amount) else l
  }

  /** A deal that ran its full term: both collaterals are released. */
  function Expire(l: Ledger, p: Proposal): Ledger {
    Unlock(Unlock(l, p.provider, p.providerCollateral, ProviderCollateral),
           p.client, p.clientCollateral, ClientCollateral)
  }

  /** The client gets back `fee` and its collateral; the provider's collateral is burnt. */
  function Forfeit(l: Ledger, p: Proposal, fee: int): Ledger {
    var l1 := Unlock(l, p.client, fee, ClientStorageFee);
    var l2 := Unlock(l1, p.client, p.clientCollateral, ClientCollateral);
    Slash(l2, p.provider, p.providerCollateral, ProviderCollateral)
  }

  /** A missed activation burns the whole collateral, and then releases the nothing that is left of it. */
  function MissActivation(l: Ledger, p: Proposal): Ledger {
    Unlock(Forfeit(l, p, p.TotalFee()), p.provider, 0, ProviderCollateral)
  }

  /** What an update at `now` pays on a deal paid for until `from`. */
  function DueAt(p: Proposal, from: Epoch, now: Epoch): int {
    if now < p.start then 0 else p.Fee(from, Min(p.end, now))
  }

  function Advance(l: Ledger, p: Proposal, from: Epoch, now: Epoch): Ledger {
    var paid := Pay(l, p, DueAt(p, from, now));
    if now < p.end then paid else Expire(paid, p)
  }

  // ---------- The sector index ----------

  /** Removes deals from index entries; an entry that is left empty by this goes too. */
  function RemoveDeals(index: map<SectorKey, set<DealId>>, gone: map<SectorKey, set<DealId>>)
    : map<SectorKey, set<DealId>>
  {
    map k | k in index && (k in gone ==> index[k] - gone[k] != {})
      :: if k in gone then index[k] - gone[k] else index[k]
  }

  function Entry(index: map<SectorKey, set<DealId>>, k: SectorKey): set<DealId> {
    if k in index then index[k] else {}
  }

  // ---------- Steps on one deal ----------

  function Tick(s: State, now: Epoch): State {
    s.(history := s.history.(clock := now))
  }

  function SettlePending(s: State, d: DealId): set<Proposal>
    requires d in s.proposals
  {
    if NeverUpdated(s, d) then s.pending - {s.proposals[d]} else s.pending
  }

  function RecordOf(s: State, d: DealId): Record
    requires d in s.proposals
  {
    if d in s.history.records then s.history.records[d] else Record(s.proposals[d], 0, 0, 0, Live)
  }

  /** Ends a deal: it leaves every structure, and its record is closed. */
  function Close(s: State, d: DealId, ledger: Ledger, outcome: Outcome, pay: int, refund: int, burn: int): State
    requires d in s.proposals
  {
    var r := RecordOf(s, d);
    s.(proposals := s.proposals - {d},
       states := s.states - {d},
       pending := SettlePending(s, d),
       ledger := ledger,
       allocations := s.allocations - {d},
       sectorDeals := if d in s.states
                      then RemoveDeals(s.sectorDeals, map[(s.proposals[d].provider, s.states[d].sector) := {d}])
                      else s.sectorDeals,
       history := s.history.(records := s.history.records[d :=
         r.(paid := r.paid + pay, refunded := refund, burnt := burn, outcome := outcome)]))
  }

  /** A payment on an active deal that goes on. */
  function Touch(s: State, d: DealId, now: Epoch, ledger: Ledger, pay: int): State
    requires d in s.proposals && d in s.states
  {
    var r := RecordOf(s, d);
    s.(states := s.states[d := s.states[d].(lastUpdated := now)],
       pending := SettlePending(s, d),
       ledger := ledger,
       history := s.history.(records := s.history.records[d := r.(paid := r.paid + pay)]))
  }

  function TimeOut(s: State, d: DealId): State
    requires d in s.proposals
  {
    var p := s.proposals[d];
    Close(s, d, MissActivation(s.ledger, p), TimedOut, 0, p.TotalFee(), p.providerCollateral)
  }

  /** Brings the payments of an active deal up to date, and ends it when its term is over. */
  function Update(s: State, d: DealId, now: Epoch): State
    requires d in s.proposals && d in s.states
  {
    var p := s.proposals[d];
    var due := DueAt(p, PaidUntil(s, d), now);
    var l := Advance(s.ledger, p, PaidUntil(s, d), now);
    if now < p.end then Touch(s, d, now, l, due) else Close(s, d, l, Completed, due, 0, 0)
  }

  /** Ends an active deal early, as of `at`, unless its term is over by then. */
  function Terminate(s: State, d: DealId, at: Epoch): State
  {
    if d !in s.proposals || s.proposals[d].end <= at || d !in s.states then s else
      var p := s.proposals[d];
      var due := p.Fee(PaidUntil(s, d), Max(at, PaidUntil(s, d)));
      var rest := p.Fee(Max(at, p.start), p.end);
      Close(s, d, Forfeit(Pay(s.ledger, p, due), p, rest), Terminated(at), due, rest, p.providerCollateral)
  }

  /** An epoch a deal can be terminated as of: a deal whose term is over by then is over now, and any other
      has not been paid for beyond it. */
  predicate Terminable(s: State, d: DealId, at: Epoch) {
    d in s.proposals && d in s.states ==>
      var p := s.proposals[d];
      if p.end <= at then p.end <= s.history.clock
      else p.price == 0 || PaidUntil(s, d) <= Max(at, p.start)
  }

  function Settle(s: State, d: DealId, now: Epoch): State
  {
    if d !in s.proposals then s
    else if d in s.states then Update(s, d, now)
    else if now < s.proposals[d].start then s
    else TimeOut(s, d)
  }

  /** One scheduled visit. Also says whether the deal is to be visited again. */
  function Visit(s: State, d: DealId, now: Epoch): (State, bool)
  {
    if d !in s.proposals then (s, false)
    else if d !in s.states then (TimeOut(s, d), false)
    else if NeverUpdated(s, d) then (s.(pending := s.pending - {s.proposals[d]}), false)
    else var s' := Update(s, d, now); (s', d in s'.proposals)
  }

  function Schedule(ops: map<Epoch, set<DealId>>, e: Epoch, d: DealId): map<Epoch, set<DealId>> {
    ops[e := (if e in ops then ops[e] else {}) + {d}]
  }

  function Publish(s: State, p: Proposal, allocation: Option<AllocationId>): State {
    var d := s.nextId;
    s.(proposals := s.proposals[d := p],
       pending := s.pending + {p},
       ledger := Lock(s.ledger, p),
       nextId := d + 1,
       ops := Schedule(s.ops, NextUpdateEpoch(d, DEAL_UPDATES_INTERVAL, p.start), d),
       allocations := if allocation.Some? then s.allocations[d := allocation.value] else s.allocations,
       history := s.history.(records := s.history.records[d := Record(p, 0, 0, 0, Live)]))
  }

  predicate CanActivate(s: State, d: DealId, provider: Address, commitment: Epoch, now: Epoch) {
    && d in s.proposals
    && s.proposals[d].provider == provider
    && now <= s.proposals[d].start
    && s.proposals[d].end <= commitment
    && d !in s.states
    && s.proposals[d] in s.pending
  }

  /** Places deals in a sector. The index entry is written even when there are no deals. */
  function Activate(s: State, key: SectorKey, ids: set<DealId>, now: Epoch): State {
    s.(states := s.states + (map d | d in ids :: DealState(key.1, now, EPOCH_UNDEFINED, EPOCH_UNDEFINED)),
       allocations := s.allocations - ids,
       sectorDeals := s.sectorDeals[key := Entry(s.sectorDeals, key) + ids])
  }

  // ---------- The schedule ----------

  /** The deals due between the last tick and this one. */
  function Due(s: State, now: Epoch): set<DealId> {
    set e, d | e in s.ops && s.lastCron < e <= now && d in s.ops[e] :: d
  }

  function VisitAgain(d: DealId, now: Epoch): Epoch {
    NextUpdateEpoch(d, DEAL_UPDATES_INTERVAL, now + 1)
  }

  /** Drops the epochs up to `now` and puts each deal to be visited again at its next epoch. */
  function Reschedule(ops: map<Epoch, set<DealId>>, now: Epoch, again: set<DealId>): map<Epoch, set<DealId>> {
    map e | e in ops.Keys + (set d | d in again :: VisitAgain(d, now)) && e > now
      :: (if e in ops then ops[e] else {}) + (set d | d in again && VisitAgain(d, now) == e)
  }
}
