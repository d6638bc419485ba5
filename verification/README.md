# Filecoin built-in actors: verified models

A Dafny model of the parts of the Filecoin built-in actors that keep books: the storage market's deals and
escrow, and, on the miner's side, the expiration queue, vesting funds, deadline assignment and calendar,
partition compaction, sector terms, and the owner and beneficiary protocol.

Each part has a specification on values and, where the actor updates state in place, a class whose methods
follow the actor's code and are proved to have the specified effect.

| part | specification | in place |
|---|---|---|
| storage market | `MarketState`, `MarketCalls`, `MarketPublication`, `MarketActivation`, `MarketRuns`, `MarketFates`, `MarketPlacement`, `MarketTwins`, `MarketVisits`, `MarketExamples` | `MarketActor` |
| expiration queue | `ExpirationBook`, `ExpirationRules`, `ExpirationSteps` | `ExpirationQueue` |
| vesting funds | `VestingSchedule` | `VestingFunds` |
| deadlines | `Quantization`, `DeadlineCalculus` | `DeadlineAssignment` |
| compaction | `PartitionTable` | `Compaction` |
| sector terms | `SectorTerms` | |
| owner and beneficiary | `Beneficiary` | `Beneficiary.MinerInfo` |

`dafny verify dfyconfig.toml` checks everything.

## How the actors are represented

- A market state holds the tables of the actor and a history that only the proofs read: what each deal has paid,
  refunded and burnt, and what was deposited and withdrawn. A run is any sequence of the eight calls. Epochs never go
  back, and the tick is the last call of its epoch. The order in which a tick or a termination goes through deals is
  any order that misses none.
- The content identifier of a proposal is the proposal itself. The two-level map from providers to sectors to deals is
  one map on pairs.
- What other actors answer is a parameter: resolved addresses, the outcome of signature and format checks on a deal,
  the network's collateral bound, datacap balances, allocation identifiers and whether the datacap transfer succeeded.
- The market takes the epoch of a termination from the miner and does not check it. The miner passes the current epoch
  (actors/miner/src/lib.rs:4079). Runs allow any epoch that keeps the invariant (`Terminable`), which the current one
  always does.
- A provider is a miner actor, which does not answer a request to authenticate a message
  (actors/miner/src/lib.rs:5626-5664), so no authentic deal has its provider for its client. The publish pre-filter
  checks a client's and the provider's lockups apart and rests on this: `PrefilterExact` says what it needs in general,
  `PrefilterSufficient` that it needs nothing more under `NoSelfDeals`.
- A sector's old power, against which a replica update adjusts the fee, is computed over the time left and not over the
  duration of the old weight. Only sectors without data are updated (actors/miner/src/lib.rs:3691-3697), for which both
  are the size (`UpdateFee`).
- An expiration queue stands for a book that places every sector at one epoch with one status: active, faulty but
  leaving on time, or leaving early. The queue is valid when its sets are exactly those the book calls for, with
  every pledge, power and fee the sum over its sectors. Operations are specified as changes of the book. A list of
  sectors is a map, so it names each sector once.
- Storage arrays and maps are Dafny maps and sequences, and bitfields are sets.
- Token amounts, powers and epochs are unbounded integers. Division truncates or rounds down as in the code.

## Findings

- The pending set does not keep a proposal from being published twice. Settling an active deal at or before its start
  takes the proposal off the set, and it can be published again while the first deal is live (`PublishedTwice`).
  `PendingBlocksIff` and `TwinsWereUpdatedEarly` say that this is the only way.
- The message that the partition limit is reached for all deadlines can be wrong when some hold dead sectors
  (`FullWithRoomElsewhere`). `AssignDeadlines` fails exactly beyond the deadlines' capacity, and `RoomSufficesIff`
  says when that is all the room they have.
- With a vesting step shorter than the quantum two entries can fall on one epoch (`TwoEntriesMeet`). The parameters in
  use are spread far enough.
- Asked for nothing, the vesting shortcut can keep an empty fund that the long way drops (`ShortcutCanDiffer`). The
  miner state never asks for nothing.
- A replica update of a sector that has expired but is still in its deadline is not refused. It stores a negative
  deal weight, while power and fee come out right; at the very epoch of expiration it divides by zero (`UpdateConsistent`,
  `LateUpdates`, `UpdateFee`).
- Used quota can exceed quota without any payout, when a beneficiary accepts smaller terms (`UsedCanExceedQuota`);
  `ExceedsIff` says that there is no other way.
- The period start of a new miner is off for some negative epochs (`PeriodStartsDiffer`). It is asked for at the
  current epoch only (actors/miner/src/lib.rs:225), which is never negative.
- An extension to the current epoch divides by a duration of zero (`ExtendLeavesNoTimeIff`, `ExtendToNowFails`); the
  model treats it as a failed call.
- The market's periodic update in the tick, kept for deals from before a network upgrade, is reached from a fresh
  state too, by settling a deal before its first visit (`PeriodicUpdateIsReached`). `VisitedAgainIff` and
  `PlannedAfterVisit` say that this is the only way.

## Model

| member | source | states |
|---|---|---|
| `MarketRuns.RunInv` | actors/market/src/state.rs:36-156 | after every run of calls from the empty state the whole market invariant holds |
| `MarketRuns.ApplyKeeps` | actors/market/src/lib.rs:118-1359 | each of the eight calls keeps the invariant, whatever its arguments, save that a termination is as of a terminable epoch; a call that aborts changes nothing |
| `MarketRuns.LockedIsWhatDealsHold` | actors/market/src/state.rs:805-1181 | in every reachable state an account's locked balance is the sum over its live deals of client collateral and unpaid fee, and of provider collateral; it is between zero and escrow; the three memoised totals are the per-category sums and add up to the table |
| `MarketRuns.PaymentIsIndependentOfSettlement` | actors/market/src/state.rs:852-945 | however often and whenever a deal was settled, a live one has paid price × (the later of start and last update − start), a completed one price × (end − start), one terminated at t price × (max(t, start) − start) with the rest refunded, one timed out nothing; collateral is burnt in the last two cases only |
| `MarketRuns.FundsAreConserved` | actors/market/src/state.rs:470-502 | over every run, total escrow is deposits minus withdrawals minus burns, and each account's escrow is its net deposit moved by payments and reduced by burns |
| `MarketRuns.IndexAgreesWithDeals` | actors/market/src/state.rs:574-693 | in every reachable state the provider and sector index lists a deal only under its own provider and sector, lists every active deal that has not ended, and no stored deal has a slash epoch |
| `MarketRuns.TickFindsWhatItNeeds` | actors/market/src/lib.rs:896-1030 | a deal due at a tick has started, and is still pending if it was never updated |
| `MarketFates.EveryFate` | actors/market/src/lib.rs:790-1359 | at every call, what becomes of each live deal, by its own epochs: nothing, started, paid up to date, completed, timed out, or terminated as of the epoch given |
| `MarketFates.OverForGood` | actors/market/src/lib.rs:790-1359 | a deal that is over is never changed by any call |
| `MarketFates.EveryAllocation` | actors/market/src/state.rs:332-400 | no call but publication gives a deal an allocation, and a deal keeps its own exactly until it is active or over |
| `MarketFates.PublishAllAllocation` | actors/market/src/lib.rs:427-470 | a new deal has the allocation made for its proposal, if there is one |
| `MarketInvariant.DealCovered` | actors/market/src/state.rs:1100-1132 | one deal's share of an account's locked balance is there to be unlocked |
| `MarketSteps.TimeOutKeeps` | actors/market/src/state.rs:967-997 | cleaning up a deal that missed its start keeps the invariant |
| `MarketSteps.CompleteKeeps` | actors/market/src/state.rs:1000-1025 | paying out and dropping a deal at its end keeps the invariant |
| `MarketSteps.ContinueKeeps` | actors/market/src/state.rs:852-920 | a partial payment that moves the last-updated epoch keeps the invariant |
| `MarketSteps.UpdateKeeps` | actors/market/src/state.rs:805-920 | an update at any epoch keeps the invariant |
| `MarketSteps.TerminateKeeps` | actors/market/src/state.rs:922-963 | paying up to the termination, refunding the rest and slashing keeps the invariant |
| `MarketSteps.SettleKeeps` | actors/market/src/lib.rs:1252-1307 | settling any deal keeps the invariant |
| `MarketSchedule.VisitKeeps` | actors/market/src/lib.rs:906-1024 | one visit of a due deal by the tick keeps the invariant, with the deal off the list of those to visit |
| `MarketSchedule.PublishKeeps` | actors/market/src/lib.rs:427-470 | publishing a lockable, new, sound deal keeps the invariant |
| `MarketSchedule.ActivateKeeps` | actors/market/src/lib.rs:557-664 | activating a deal keeps the invariant |
| `MarketCalls.DepositKeeps` | actors/market/src/state.rs:470-483 | a deposit keeps the invariant |
| `MarketCalls.WithdrawKeeps` | actors/market/src/state.rs:485-502 | a withdrawal down to the locked balance keeps the invariant |
| `MarketCalls.SettleAllKeeps` | actors/market/src/lib.rs:1232-1359 | settling a list of deals, with repeats and unknown ids, keeps the invariant |
| `MarketCalls.TerminateSectorsKeepsIff` | actors/market/src/lib.rs:797-887 | terminating sectors as of any epoch, in whatever order their deals are processed, keeps the invariant if and only if every deal listed that is over by that epoch is over now and no other has been paid for beyond it |
| `MarketCalls.TerminableNow` | actors/miner/src/lib.rs:4079 | the current epoch, which the miner passes, satisfies that for every deal of every state that satisfies the invariant |
| `MarketCalls.CronKeeps` | actors/market/src/lib.rs:896-1030 | a whole tick, over all epochs since the last one, keeps the invariant in whatever order deals are visited |
| `MarketPublication.AllLockableIff` | actors/market/src/state.rs:1051-1098 | locking a batch one deal at a time succeeds exactly when every account can cover all that is asked of it |
| `MarketPublication.FilterOk` | actors/market/src/lib.rs:281-387 | what the pre-filter accepts is sound, new, distinct and by the provider, and the lockups it recorded are what those deals need |
| `MarketPublication.FilterPicks` | actors/market/src/lib.rs:281-387 | the accepted deals are submitted authentic ones at the recorded positions, in order |
| `MarketPublication.FilterExact` | actors/market/src/lib.rs:281-387 | a submitted deal is accepted if and only if it is authentic, of the provider, within the bounds on epochs, price and collateral, neither pending nor accepted before, and affordable after those accepted before it, in tokens for both parties and in datacap for the client |
| `MarketPublication.DatacapSuffices` | actors/market/src/lib.rs:353-384 | for each client, the verified bytes accepted are within its datacap |
| `MarketPublication.PrefilterExact` | actors/market/src/lib.rs:281-470 | locking what the pre-filter accepts succeeds if and only if the provider can cover its lockups as provider and as client together |
| `MarketPublication.PrefilterSufficient` | actors/market/src/lib.rs:281-470 | in a batch where no authentic deal has the provider for its client, locking the accepted deals never fails |
| `MarketPublication.PublishBatchKeeps` | actors/market/src/lib.rs:195-499 | the whole publish call keeps the invariant |
| `MarketTwins.PendingBlocksIff` | actors/market/src/state.rs:50-53 | in every reachable state a proposal that has not started is kept from being published again if and only if some live deal with it was never updated |
| `MarketTwins.TwinsWereUpdatedEarly` | actors/market/src/state.rs:833-837 | over every run, two live deals share a proposal only if the older one was at some point active and last updated at an epoch no later than its start |
| `MarketTwins.ApplyTwins` | actors/market/src/lib.rs:281-470 | no call makes two live deals with one proposal unless the older of them is active and was updated no later than its start |
| `MarketExamples.PublishedTwice` | actors/market/src/state.rs:833-837 | any proposal that can be published, by a client other than its provider and with funds for two deals, can be published, activated, settled and published again in one epoch: a run that ends with two live deals |
| `MarketVisits.PlannedAgainIff` | actors/market/src/lib.rs:951-1012 | a tick plans a deal that it visits again, at the next epoch of that deal's own, if and only if the deal is active, has been updated before and its term is not over |
| `MarketVisits.PlannedIsNext` | actors/market/src/lib.rs:1563-1577 | over every run, a live deal that is planned is planned at the first epoch that is neither before its start nor by the last tick, and is its own place in the 30 days |
| `MarketVisits.UpdatedIffSettled` | actors/market/src/lib.rs:1252-1307 | over every run, an active deal has a last-updated epoch if and only if it was settled while active |
| `MarketVisits.VisitedAgainIff` | actors/market/src/lib.rs:906-1024 | over every run, a deal visited by a tick is on the plan after it if and only if it is active, its term is not over, and it was settled before that visit while active |
| `MarketVisits.PlannedAfterVisit` | actors/market/src/lib.rs:906-1024 | over every run, a deal is on the plan at any time after a visit, its first or a later one, only if it was settled before that visit while active |
| `MarketExamples.PeriodicUpdateIsReached` | actors/market/src/lib.rs:951-1012 | any proposal that can be published, by a client other than its provider, has a run from the empty state in which the tick pays its deal up to date and plans the next visit |
| `MarketActivation.InactiveIsPending` | actors/market/src/lib.rs:1442-1483 | a published deal that is not active is in the pending set |
| `MarketPlacement.PlacesIff` | actors/market/src/lib.rs:549-668 | a sector of a batch is activated if and only if it names no deal twice and each of its deals is published, of the miner, not started, over by the sector's expiry, not active, and not in a sector activated before it |
| `MarketPlacement.AcceptsIff` | actors/market/src/lib.rs:672-782 | a piece is accepted if and only if it holds the data of such a deal, and no piece accepted before it is for that deal |
| `MarketPlacement.ActiveWasPlaced` | actors/market/src/lib.rs:1594-1620 | over every run, an active deal is in the sector in which its provider placed it before it started, which was to last until the deal's end |
| `MarketActivation.ActivateAllKeeps` | actors/market/src/lib.rs:549-668 | a batch of activations, sectors failing one by one, keeps the invariant |
| `MarketActivation.ChangeAllKeeps` | actors/market/src/lib.rs:672-782 | a batch of sector content notifications keeps the invariant |
| `Deals.FeeSplits` | actors/market/src/deal.rs:116-124 | fees over adjacent spans add up, which is what makes partial payments order-independent |
| `Deals.NextUpdateEpochIsFirst` | actors/market/src/lib.rs:1563-1577 | the next update epoch is the first at or after the given one that is congruent to the deal id |
| `MarketLedger.LockEffect` | actors/market/src/state.rs:1081-1098 | locking for a deal raises exactly its client's and provider's locked balances by their shares |
| `BalanceTable.MustSubtract` | actors/market/src/balance_table.rs:85-99 | succeeds exactly when the balance covers the amount, and then lowers that account alone |
| `BalanceTable.SubtractWithMinimum` | actors/market/src/balance_table.rs:67-82 | takes the lesser of the request and what is above the floor |
| `MarketActor.Market.UnlockBalance` | actors/market/src/state.rs:1100-1132 | unlocks from the table and the total of the reason given, or fails and changes nothing |
| `MarketActor.Market.TransferBalance` | actors/market/src/state.rs:1134-1159 | moves escrow and releases the payer's lock |
| `MarketActor.Market.SlashBalance` | actors/market/src/state.rs:1161-1181 | removes from escrow and from locked alike |
| `MarketActor.Market.MaybeLockBalance` | actors/market/src/state.rs:1051-1079 | locks exactly when escrow covers it |
| `MarketActor.Market.LockClientAndProviderBalances` | actors/market/src/state.rs:1081-1098 | locks for both parties, or fails as `Lockable` says |
| `MarketActor.Market.ProcessDealInitTimedOut` | actors/market/src/state.rs:967-997 | has the effect of the specification's missed activation |
| `MarketActor.Market.ProcessDealExpired` | actors/market/src/state.rs:1000-1025 | has the effect of the specification's expiry |
| `MarketActor.Market.ProcessSlashedDeal` | actors/market/src/state.rs:922-963 | pays up to the slash epoch, refunds the rest, burns the provider's collateral and reports it |
| `MarketActor.Market.ProcessDealUpdate` | actors/market/src/state.rs:805-920 | pays what is due and says whether the deal is complete; a deal marked as slashed is paid up to that epoch, its rest refunded and its collateral burnt; an update in the future, or a slash after now or after the end, fails without moving funds |
| `MarketActor.Market.GetActiveDealOrProcessTimeout` | actors/market/src/state.rs:743-796 | finds the state, or cleans up a deal whose start has passed |
| `MarketActor.Market.RemoveSectorDealIds` | actors/market/src/state.rs:638-693 | removes deals from their sectors and drops the entries this empties |
| `MarketActor.Market.PopSectorDealIds` | actors/market/src/state.rs:606-634 | takes exactly the deals listed under the given sectors |
| `MarketActor.Market.SettleDealPaymentsCall` | actors/market/src/lib.rs:1220-1359 | the looping call with deferred writes has the effect of settling the deals one after another |
| `MarketActor.SettlementMeans` | actors/market/src/lib.rs:1324-1331 | what a settlement reports as paid takes the deal from what it was paid for to now, within its term, and is what its record grows by |
| `MarketActor.Market.CronTickCall` | actors/market/src/lib.rs:890-1040 | never aborts, and has the effect of visiting every due deal once |
| `MarketActor.Market.OnMinerSectorsTerminateCall` | actors/market/src/lib.rs:790-888 | called with the current epoch, or any that keeps the invariant, never aborts and has the effect of terminating every listed deal as of that epoch; it burns exactly what leaves escrow |
| `MarketActor.Market.AddBalanceCall` | actors/market/src/lib.rs:118-139 | refuses an amount that is not positive and then changes nothing; otherwise raises that account's escrow by it and no other |
| `MarketActor.Market.WithdrawBalanceCall` | actors/market/src/lib.rs:143-171 | refuses a negative amount; otherwise takes the lesser of the request and what is not locked out of that account's escrow and no other |
| `MarketActor.Market.FilterDeals` | actors/market/src/lib.rs:281-387 | picks exactly the deals that are admissible, new and affordable after those picked before, with the running lockups and datacap that these come to |
| `MarketActor.Market.PublishStorageDealsCall` | actors/market/src/lib.rs:195-499 | publishes all accepted deals with consecutive ids, or none; which deals are accepted is stated on the deals; without authentic self-deals it fails only when nothing is accepted or the datacap transfer fails |
| `MarketActor.Market.BatchActivateDealsCall` | actors/market/src/lib.rs:549-668 | has the effect of activating sector by sector, a failing sector leaving no trace; which sectors are activated, and with what deal states, is stated on proposals and states |
| `MarketActor.Market.SectorContentChangedCall` | actors/market/src/lib.rs:672-782 | has the effect of the specified content changes; which pieces are accepted, and with what deal states, is stated on proposals and states |
| `ExpirationBook.EntryWithout` | actors/miner/src/expiration_queue.rs:84-128 | taking sectors out of the book takes exactly their pledge, power and fee out of every entry |
| `ExpirationBook.RecordedNonNegative` | actors/miner/src/expiration_queue.rs:142-168 | the set any book records passes every check of `validate_state` |
| `ExpirationRules.QueuePut` | actors/miner/src/expiration_queue.rs:681-700 | adding a group of sectors of one status changes one entry, by their totals |
| `ExpirationRules.QueueDrop` | actors/miner/src/expiration_queue.rs:703-735 | removing a group changes one entry, and deletes it exactly when no sector is left |
| `ExpirationRules.QueueTurn` | actors/miner/src/expiration_queue.rs:282-288 | moving a group's power between active and faulty is all that failing or healing in place takes |
| `ExpirationRules.QueueDetermines` | actors/miner/src/expiration_queue.rs:171-177 | the sets determine every sector's epoch and whether it leaves early |
| `ExpirationRules.QueueMeans` | actors/miner/src/expiration_queue.rs:28-55 | an entry exists exactly when some sector is to leave then; it holds the pledge of those that leave on time, the fees of all, and the power of the active and of the faulty apart |
| `ExpirationRules.FaultMeans` | actors/miner/src/expiration_queue.rs:266-324 | a failing sector leaves at the sooner of its epoch and the limit, early exactly if it was to leave after the limit |
| `ExpirationRules.RecoverMeans` | actors/miner/src/expiration_queue.rs:398-475 | a recovering sector is active, where it was or, if it was to leave early, at its quantised declared expiration |
| `ExpirationRules.FaultAllIffEach` | actors/miner/src/expiration_queue.rs:266-391 | failing everything at once gives the same queue as failing exactly the active sectors, if and only if no sector that has failed already lies after the quantised limit |
| `ExpirationRules.NothingActive` | actors/miner/src/expiration_queue.rs:327-391 | once everything has failed no entry has active power and no key exceeds the limit |
| `ExpirationRules.FaultThenRecover` | actors/miner/src/expiration_queue.rs:266-475 | failing active sectors and recovering them restores the exact queue if and only if each was due by the limit or sat at its declared quantised expiration |
| `ExpirationQueue.ExpirationQueue.AddActiveSectors` | actors/miner/src/expiration_queue.rs:191-228 | never fails; every new sector is at its quantised declared expiration, and the totals returned are theirs |
| `ExpirationQueue.ExpirationQueue.RescheduleExpirations` | actors/miner/src/expiration_queue.rs:234-260 | succeeds exactly for active sectors, which all move to the new epoch; nothing else moves |
| `ExpirationQueue.ExpirationQueue.RescheduleAsFaults` | actors/miner/src/expiration_queue.rs:266-324 | succeeds exactly for active sectors, fails them as specified and returns their power |
| `ExpirationQueue.ExpirationQueue.RescheduleAllAsFaults` | actors/miner/src/expiration_queue.rs:327-391 | succeeds exactly when no early sector lies after the limit, and then fails everything |
| `ExpirationQueue.ExpirationQueue.RescheduleRecovered` | actors/miner/src/expiration_queue.rs:398-475 | succeeds exactly when all the sectors are there, makes them active at their places or declared expirations, and returns their power; after a failure those that were there are healed in place or, if they were leaving early, gone |
| `ExpirationQueue.ExpirationQueue.ReplaceSectors` | actors/miner/src/expiration_queue.rs:481-508 | swaps sectors, with the difference of the totals |
| `ExpirationQueue.ExpirationQueue.RemoveSectors` | actors/miner/src/expiration_queue.rs:514-640 | succeeds exactly when all the sectors are there, removes them, and returns what was recorded of them and the power of those recovering; for want of an active sector nothing changes, for want of a faulty one the others are gone |
| `ExpirationQueue.ExpirationQueue.PopUntil` | actors/miner/src/expiration_queue.rs:643-678 | removes exactly what is due and returns what was recorded of it |
| `ExpirationQueue.ExpirationQueue.FindSectorsByExpiration` | actors/miner/src/expiration_queue.rs:852-930 | finds sectors that leave on time wherever they are; succeeds exactly when all of them do |
| `ExpirationQueue.ExpirationQueue.RemoveActiveSectors` | actors/miner/src/expiration_queue.rs:737-780 | removes active sectors group by group, or changes nothing |
| `ExpirationQueue.ExpirationQueue.GroupNewSectors` | actors/miner/src/expiration_queue.rs:953-990 | groups every sector once, by quantised declared expiration, with its totals |
| `ExpirationQueue.ExpirationQueue.RecoverEntry` | actors/miner/src/expiration_queue.rs:412-463 | heals one entry in place and takes out its early sectors |
| `ExpirationQueue.ExpirationQueue.ScanAll` | actors/miner/src/expiration_queue.rs:336-363 | reads what the entries become and the totals of all that is moved |
| `VestingSchedule.PlanTotal` | actors/miner/src/vesting_state.rs:129-158 | the lazily generated schedule ends, and hands out exactly the deposit |
| `VestingSchedule.PlanNonNegative` | actors/miner/src/vesting_state.rs:129-158 | no entry of a schedule is negative |
| `VestingSchedule.ScheduleExact` | actors/miner/src/vesting_state.rs:129-158 | entry k falls on the quantised epoch of step k + 1; with it the amount vested is the straight line at that epoch, rounded down; no entry follows once all is vested |
| `VestingSchedule.ScheduleStrictIff` | actors/miner/src/vesting_state.rs:129-158 | every schedule under a spec is strictly sorted if and only if the step is as long as the quantum or the period is at most two steps |
| `VestingSchedule.TwoEntriesMeet` | actors/miner/src/vesting_state.rs:129-158 | otherwise any deposit whose clock starts two steps before a quantised epoch has two entries at one epoch |
| `VestingSchedule.ScheduleAlongLine` | actors/miner/src/vesting_state.rs:129-158 | cumulative vesting never runs ahead of the straight line and lags it by less than a step plus a quantum |
| `VestingSchedule.MergeAddsUp` | actors/miner/src/vesting_state.rs:163-173 | joining tables conserves funds and adds vesting up epoch by epoch |
| `VestingSchedule.MergeRising` | actors/miner/src/vesting_state.rs:163-173 | joining keeps tables sorted, and strictly so if both are |
| `VestingFunds.LoadedIsStored` | actors/miner/src/vesting_state.rs:56-71 | skipping a head drawn down to nothing changes no amount |
| `VestingFunds.DrainedEarliestFirst` | actors/miner/src/vesting_state.rs:211-240 | draining leaves every later epoch short of exactly what was taken, down to nothing |
| `VestingFunds.ShortcutAgrees` | actors/miner/src/vesting_state.rs:205-240 | the head-only path leaves the same loaded table as the long way, if and only if it is not that nothing is asked of an empty head followed by an empty fund |
| `VestingFunds.ShortcutCanDiffer` | actors/miner/src/vesting_state.rs:205-240 | a concrete table on which the two paths differ |
| `VestingFunds.NothingVested` | actors/miner/src/vesting_state.rs:91-93 | when the head has not vested, nothing has |
| `VestingFunds.VestingFunds.NewFunds` | actors/miner/src/vesting_state.rs:129-158 | the loop computes the schedule |
| `VestingFunds.VestingFunds.MergeFunds` | actors/miner/src/vesting_state.rs:163-173 | the loop computes the join |
| `VestingFunds.VestingFunds.UnlockVestedFunds` | actors/miner/src/vesting_state.rs:95-107 | unlocks exactly what has vested, also when the head check skips the table |
| `VestingFunds.VestingFunds.AddLockedFunds` | actors/miner/src/vesting_state.rs:110-182 | new table and unlocked amount hold the old table and the deposit, in total and by every epoch; strict order is kept under a spread spec; no new funds unlock if the spec gives them a step |
| `VestingFunds.VestingFunds.UnlockFromTable` | actors/miner/src/vesting_state.rs:211-240 | the loop drains the table as specified |
| `VestingFunds.VestingFunds.UnlockVestedAndUnvestedFunds` | actors/miner/src/vesting_state.rs:186-240 | returns all that has vested and the lesser of the target and the rest, taken earliest first, on both paths |
| `VestingFunds.MinerFunds.AddLockedFunds` | actors/miner/src/state.rs:810-844 | locked funds stay equal to the table, to which the schedule of the deposit is added epoch by epoch; a negative deposit is refused |
| `VestingFunds.MinerFunds.UnlockVestedFunds` | actors/miner/src/state.rs:932-951 | never fails; locked funds fall by exactly what has vested |
| `VestingFunds.MinerFunds.UnlockVestedAndUnvestedFunds` | actors/miner/src/state.rs:902-928 | never fails; locked funds fall by exactly what is unlocked |
| `DeadlineAssignment.CompareIsOrder` | actors/miner/src/deadline_assignment.rs:47-133 | the comparison is antisymmetric, transitive and total, and equal only for one index |
| `DeadlineAssignment.CompareMeans` | actors/miner/src/deadline_assignment.rs:47-133 | a deadline comes first by fewer partitions once compacted, then fewer as it is, then a partition open before none, then the more full of two open, then fewer live sectors, then the lower index |
| `DeadlineAssignment.RunsOfSectors` | actors/miner/src/deadline_assignment.rs:68-70 | without dead sectors, the deadline whose last partition a sector leaves open receives the next sector too |
| `DeadlineAssignment.Unbeatable` | actors/miner/src/deadline_assignment.rs:47-133 | no way of adding n live sectors gives a smaller maximum of compacted partitions than max(initial maximum, ceil(live / (deadlines × partition size))) |
| `DeadlineAssignment.GreedyStep` | actors/miner/src/deadline_assignment.rs:188-201 | giving a sector to the least deadline raises the maximum only when all are full to it |
| `DeadlineAssignment.AssignDeadlines` | actors/miner/src/deadline_assignment.rs:137-204 | each sector goes to the deadline that comes first at the time, stated in live and total sectors; it succeeds exactly when the sectors are no more than the capacity of the deadlines; every sector goes to one present deadline in order, no receiver exceeds its limit, the final maximum is the optimum; a refusal comes once exactly the capacity is placed, and is right that all deadlines are full exactly when the capacity is all the room there is |
| `DeadlineAssignment.RefusedIff` | actors/miner/src/deadline_assignment.rs:191-196 | the least deadline refuses if and only if no capacity is left, whatever room the others have |
| `DeadlineAssignment.RoomSufficesIff` | actors/miner/src/deadline_assignment.rs:188-201 | capacity is at most the room, and is all of it if and only if every deadline fills up at the level at which the first one stops |
| `DeadlineAssignment.RoomSufficesWhenClean` | actors/miner/src/deadline_assignment.rs:188-201 | without dead sectors to compact away the capacity is all the room |
| `DeadlineAssignment.FullWithRoomElsewhere` | actors/miner/src/deadline_assignment.rs:191-196 | for every partition size and limit from two on, a pair of deadlines whose capacity is less than their room, so that the refusal is wrong |
| `Quantization.QuantizeUpIsNearest` | actors/miner/src/quantize.rs:27-42 | the nearest congruent epoch not before, for all integers |
| `Quantization.QuantizeDownIsNearest` | actors/miner/src/quantize.rs:44-48 | the nearest congruent epoch not after, for all integers |
| `Quantization.QuantizeFixed` | actors/miner/src/quantize.rs:27-48 | both roundings leave exactly the congruent epochs as they are |
| `DeadlineCalculus.ExactlyOneOpen` | actors/miner/src/deadline_info.rs:45-113 | in a period the deadline whose window holds the epoch is open and no other |
| `DeadlineCalculus.InfoAtIsOpen` | actors/miner/src/deadlines.rs:133-143 | the deadline computed from any offset is open at the epoch and is the only one, for all integers |
| `DeadlineCalculus.PeriodStartsAgree` | actors/miner/src/lib.rs:4936-4950 | the two period-start formulas agree if and only if the truncated remainder is at least offset − period, so always from epoch zero on |
| `DeadlineCalculus.PeriodStartsDiffer` | actors/miner/src/lib.rs:4936-4950 | a concrete negative epoch where they differ |
| `DeadlineCalculus.NextInstance` | actors/miner/src/deadline_info.rs:136-155 | the next instance not elapsed closes within a period, keeps the deadline's phase, and has its challenge and cutoff epochs at their distances before it opens |
| `DeadlineCalculus.CompactionWindow` | actors/miner/src/deadlines.rs:65-128 | exactly when a deadline is mutable, disputable and compactable, by its last close and its next opening; compaction is never available while proofs are due or disputable |
| `DeadlineCalculus.CompactionBeforeStart` | actors/miner/src/deadlines.rs:65-128 | before the first period, exactly until one window before the first opening |
| `PartitionTable.RankRises` | actors/miner/src/bitfield_queue.rs:59-85 | renumbering keeps the order of the partitions kept |
| `PartitionTable.KeptAt` | actors/miner/src/deadline_state.rs:721-727 | a kept partition is found at its rank |
| `PartitionTable.CutSectors` | actors/miner/src/deadline_state.rs:721-768 | cutting splits the sectors between kept and removed partitions, none in both |
| `PartitionTable.KeptAndGone` | actors/miner/src/deadline_state.rs:769-776 | counts and power split the same way |
| `PartitionTable.PutInMeans` | actors/miner/src/deadline_state.rs:460-503 | a partition that has been filled has what it had and the sectors put there, unproven unless they come proven; its dead and faulty sectors are unchanged |
| `Compaction.IndexCut` | actors/miner/src/deadline_state.rs:780-791 | cutting the index in step with the table keeps every live sector's partition listed at its expiration |
| `Compaction.BitFieldQueue.AddToQueue` | actors/miner/src/bitfield_queue.rs:29-49 | adds to one quantised entry |
| `Compaction.BitFieldQueue.AddManyToQueueValues` | actors/miner/src/bitfield_queue.rs:87-111 | adds every pair at its quantised epoch and nothing else |
| `Compaction.BitFieldQueue.Cut` | actors/miner/src/bitfield_queue.rs:59-85 | every entry is cut and renumbered, and none is left empty |
| `Compaction.Deadline.FillPartitions` | actors/miner/src/deadline_state.rs:460-503 | the fill loop ends, puts the sectors in order in the last partition with room and then in new ones, each filled to its size before the next |
| `Compaction.Deadline.AddSectors` | actors/miner/src/deadline_state.rs:434-520 | counts, power and index grow by exactly the new sectors, which go in order to the partitions that fill up first |
| `Compaction.Deadline.ScanPartitions` | actors/miner/src/deadline_state.rs:712-768 | succeeds exactly when no removed partition has faults or unproven sectors |
| `Compaction.Deadline.CutPartitions` | actors/miner/src/deadline_state.rs:762-791 | table, counts, power and index are left with the kept partitions |
| `Compaction.Deadline.CompactPartitions` | actors/miner/src/deadline_state.rs:676-822 | succeeds exactly when the partitions can be removed; live count and power are unchanged, the total falls by exactly the dead; kept partitions are renumbered alike in table and index, the sectors moved fill up the kept partitions in ascending order and are listed at their quantised expirations, and no check of the added power fails |
| `SectorTerms.PowerIsOfSpace` | actors/miner/src/policy.rs:121-160 | power of a weight that is space × duration depends on size and space alone, also for a sector past its expiration |
| `SectorTerms.QaPowerIsAverage` | actors/miner/src/policy.rs:121-160 | power is size + 9 × verified space, short of it by less than size / 2^20 + 1, and exactly that when size divides 9 × space × 2^20 |
| `SectorTerms.PowerInRange` | actors/miner/src/policy.rs:121-160 | it lies between the size and ten times the size |
| `SectorTerms.PowerMonotonic` | actors/miner/src/policy.rs:121-160 | more space never gives less power |
| `SectorTerms.ActivateConsistent` | actors/miner/src/lib.rs:5155-5209 | activation succeeds exactly for the minimum lifetime; both weights of a new sector are space × duration, and its fee is the network's fraction of supply × power, rounded down |
| `SectorTerms.UpdateConsistent` | actors/miner/src/lib.rs:3691-3697 | a replica update succeeds exactly for a sector that holds no data and does not expire now; both weights become space × time left, and the deal weight is negative exactly when the sector had expired and some of the data is not verified |
| `SectorTerms.UpdateFee` | actors/miner/src/lib.rs:3909-3967 | an update sets a fee that was not set; one that is set becomes fee × power / size rounded down, never falls, and stays if and only if fee × (power − size) < size |
| `SectorTerms.LateUpdates` | actors/miner/src/lib.rs:3909-3967 | any sector activated without data reaches a failing update at its last epoch and, while it is still there, one that stores a negative deal weight after it |
| `SectorTerms.ExtendConsistent` | actors/miner/src/lib.rs:3417-3577 | exactly when an extension succeeds, by epochs, limits and claims; it keeps weight = space × duration and pro-rates the deal weight; space changes only by dropped claims, near the end of life; a fee that is set moves in proportion to power, one that is not is set once the grace period is over |
| `SectorTerms.ExtendLeavesNoTimeIff` | actors/miner/src/lib.rs:3443-3447 | an extension that passes every check computes power over no time at all if and only if a sector that expires now is extended to now |
| `SectorTerms.ExtendToNowFails` | actors/miner/src/lib.rs:3464-3502 | any sector without verified data, activated for a term the network allows, can be brought there at its last epoch |
| `SectorTerms.RunPower` | actors/miner/src/lib.rs:3417-3577 | after any run of updates and extensions power depends on size and space alone |
| `SectorTerms.ExtensionsKeepPower` | actors/miner/src/lib.rs:3417-3577 | a run of extensions never adds power; one that drops nothing keeps power and fee |
| `SectorTerms.KeepingLosesNothing` | actors/miner/src/lib.rs:3417-3967 | over every run of updates and extensions that drops no claims, neither the power nor a fee that is set ever falls |
| `Beneficiary.ApplyHonest` | actors/miner/src/lib.rs:3067-3192 | every approval on record was given, unless the beneficiary had nothing left |
| `Beneficiary.BeneficiaryCallIs` | actors/miner/src/lib.rs:3067-3192 | what a beneficiary call does, by the calls since the owner's proposal: unheard, it changes nothing; heard, it puts the terms into effect if beneficiary and nominee have both agreed to them, the former also by having had nothing left, and otherwise leaves them pending |
| `Beneficiary.OnlyByConsent` | actors/miner/src/lib.rs:3067-3192 | a non-owner beneficiary with quota and time left is replaced or given other terms only by a call about those very terms to which it and the nominee agreed |
| `Beneficiary.PendingOwnerIff` | actors/miner/src/lib.rs:418-447 | over every run, the pending owner is whom the owner last named, as long as it has not named itself since |
| `Beneficiary.OwnerChangesIff` | actors/miner/src/lib.rs:403-457 | over every run, the miner changes hands exactly at a call in which the one whom its owner last named names itself; a call by anyone else but the owner changes nothing, and an owner naming itself withdraws the nomination |
| `Beneficiary.OnlyByConsentAlways` | actors/miner/src/lib.rs:3067-3192 | the same at every point of every run of owner, beneficiary and withdrawal calls |
| `Beneficiary.PayoutWithinQuota` | actors/miner/src/lib.rs:3019-3044 | exactly when a withdrawal is paid; it is the least of request, free balance and, for a non-owner beneficiary, what is left of the quota, and is counted |
| `Beneficiary.ExceedsStep` | actors/miner/src/lib.rs:3164-3186 | from used quota at most quota, a call leaves it above if and only if it puts into effect terms for the same beneficiary with a quota below what is used |
| `Beneficiary.ExceedsIff` | actors/miner/src/lib.rs:3067-3192 | over every run, used quota is above quota at the end if and only if the last change of terms that took effect undercut it in that way |
| `Beneficiary.UsedCanExceedQuota` | actors/miner/src/lib.rs:3164-3186 | a concrete run in which a beneficiary accepts a quota below what it has used |
| `Beneficiary.MinerInfo.ChangeOwnerAddress` | actors/miner/src/lib.rs:403-457 | has the specified effect, or fails and changes nothing |
| `Beneficiary.MinerInfo.ChangeBeneficiaryCall` | actors/miner/src/lib.rs:3067-3192 | has the specified effect, or fails and changes nothing |
| `Beneficiary.MinerInfo.WithdrawBalance` | actors/miner/src/lib.rs:3019-3044 | pays as specified, or fails and changes nothing |

## Left out

- OnMinerSectorsTerminateCall: epochs that are not `Terminable`, which the miner never passes. For these the refund asks
  for more than a deal holds, or a live deal leaves the index.
- Market: events, data commitments, getters, deal verification before activation, and the label, signature and
  piece checks of a proposal. State changes between reading balances and publishing are not modelled.
- Market: runs that start with deals marked as slashed under older network versions. Runs start from a fresh state, in
  which no slash epoch is ever stored (`IndexAgreesWithDeals`); `ProcessDealUpdate` itself covers such deals.
- Expiration queue: negative epochs, which the array keys cannot hold, limits on how many sectors an entry may expand to, and lists that name a sector twice.
- Compaction: the expiration queue inside each partition, which `ExpirationQueue` covers by itself, and daily fees,
  which compaction passes by.
- Sector terms: sectors without the simple-power flag, pledge, and the checks on claims before their sizes are summed.
- Deadline state other than adding sectors and compaction: proofs, faults, recoveries, disputes and early terminations.
- Miner: debt repayment, the balance available to withdraw, control addresses, and addresses that must be of the id kind.
- The power, reward, verified registry, multisig, payment channel, datacap and EVM actors.
