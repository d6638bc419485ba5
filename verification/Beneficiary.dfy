/** The owner and the beneficiary of a miner: how they change, and what the beneficiary is paid. */
module Beneficiary {
  import opened Arithmetic
  import BalanceTable
  import opened Wrappers

  type Address = BalanceTable.Address

  /** What an owner proposes: a beneficiary, what it may withdraw, and until when. */
  datatype Proposal = Proposal(beneficiary: Address, quota: int, expiration: int)

  datatype Pending = Pending(terms: Proposal, byBeneficiary: bool, byNominee: bool)

  datatype Info = Info(
    owner: Address, beneficiary: Address, quota: int, used: int, expiration: int,
    pendingOwner: Option<Address>, pending: Option<Pending>)
  {
    /** What the beneficiary has left to withdraw: nothing once its time is over. */
    function Available(now: int): int {
      if expiration > now then Max(quota - used, 0) else 0
    }

    function Terms(): Proposal {
      Proposal(beneficiary, quota, expiration)
    }
  }

  // ---- calls; a call that fails yields nothing ----

  function ChangeOwner(i: Info, caller: Address, newOwner: Address): Option<Info> {
    if caller == i.owner || i.pendingOwner.None? then
      if caller != i.owner then None
      else Some(i.(pendingOwner := if newOwner == i.owner then None else Some(newOwner)))
    else if caller != i.pendingOwner.value || newOwner != i.pendingOwner.value then None
    else
      Some(i.(owner := newOwner, beneficiary := if i.beneficiary == i.owner then newOwner else i.beneficiary,
              pending := None, pendingOwner := None))
  }

  /** An owner must offer another a quota, and can offer itself only the absence of terms. */
  predicate Proposable(i: Info, t: Proposal) {
    if t.beneficiary != i.owner then t.quota > 0 else t.quota == 0 && t.expiration == 0
  }

  /** Records a proposal, or finds that the caller's parameters repeat the pending one. */
  function Propose(i: Info, now: int, caller: Address, t: Proposal): Option<Pending> {
    if caller == i.owner then
      if Proposable(i, t) then Some(Pending(t, i.Available(now) == 0, false)) else None
    else
      match i.pending
      case None => None
      case Some(p) =>
        if (caller == i.beneficiary || caller == p.terms.beneficiary) && p.terms == t then Some(p) else None
  }

  function ChangeBeneficiary(i: Info, now: int, caller: Address, t: Proposal): Option<Info> {
    match Propose(i, now, caller, t)
    case None => None
    case Some(p) =>
      var p := Pending(t, p.byBeneficiary || caller == i.beneficiary, p.byNominee || caller == t.beneficiary);
      if p.byBeneficiary && p.byNominee then
        Some(i.(beneficiary := t.beneficiary, quota := t.quota, expiration := t.expiration,
                used := if t.beneficiary != i.beneficiary then 0 else i.used, pending := None))
      else
        Some(i.(pending := Some(p)))
  }

  /** A withdrawal of up to what is requested from what is free, and what is paid. */
  function Withdraw(i: Info, now: int, caller: Address, requested: int, free: int): Option<(Info, int)> {
    var amount := Min(free, requested);
    if requested < 0 || (caller != i.owner && caller != i.beneficiary) || amount < 0 then None
    else if i.beneficiary == i.owner then Some((i, amount))
    else if i.Available(now) == 0 then None
    else
      var paid := Min(amount, i.Available(now));
      Some((i.(used := i.used + paid), paid))
  }

  // ---- the protocol, with a record of who has agreed to what ----

  datatype Call =
    | OwnerCall(caller: Address, newOwner: Address)
    | BeneficiaryCall(caller: Address, terms: Proposal)
    | WithdrawCall(caller: Address, requested: int, free: int)

  /** `consents` holds the callers and terms of the calls that were accepted since the owner last made a
      proposal, and `idle` says whether the beneficiary had nothing left to withdraw when it did; `clock` is
      the epoch of the last call. */
  datatype Protocol = Protocol(info: Info, consents: set<(Address, Proposal)>, idle: bool, clock: int)

  /** A beneficiary that has drawn nothing yet, and nothing proposed. */
  function Settled(owner: Address, t: Proposal): Protocol {
    Protocol(Info(owner, t.beneficiary, t.quota, 0, t.expiration, None, None), {}, false, 0)
  }

  /** The beneficiary's time is over, or its quota is used up. */
  predicate NothingLeft(i: Info, now: int) {
    now >= i.expiration || i.used >= i.quota
  }

  ghost function Apply(p: Protocol, now: int, c: Call): Protocol {
    match c
    case OwnerCall(caller, newOwner) =>
      (match ChangeOwner(p.info, caller, newOwner)
       case None => p.(clock := now)
       case Some(i) => p.(info := i, clock := now))
    case BeneficiaryCall(caller, t) =>
      (match ChangeBeneficiary(p.info, now, caller, t)
       case None => p.(clock := now)
       case Some(i) =>
         if caller == p.info.owner then Protocol(i, {(caller, t)}, NothingLeft(p.info, now), now)
         else Protocol(i, p.consents + {(caller, t)}, p.idle, now))
    case WithdrawCall(caller, requested, free) =>
      match Withdraw(p.info, now, caller, requested, free)
      case None => p.(clock := now)
      case Some(r) => p.(info := r.0, clock := now)
  }

  /** Approvals on record are real: the nominee's always, and the beneficiary's unless it had nothing left. */
  ghost predicate Honest(p: Protocol) {
    p.info.pending.Some? ==>
      var pending := p.info.pending.value;
      && (pending.byNominee ==> (pending.terms.beneficiary, pending.terms) in p.consents)
      && (pending.byBeneficiary ==>
            (p.info.beneficiary, pending.terms) in p.consents || p.info.Available(p.clock) == 0)
  }

  lemma ApplyHonest(p: Protocol, now: int, c: Call)
    requires Honest(p) && p.clock <= now
    ensures Honest(Apply(p, now, c))
  {
  }

  /** The approvals on record are exactly those given: since the proposal, or by having nothing left then. */
  ghost predicate Exact(p: Protocol) {
    p.info.pending.Some? ==>
      var pending := p.info.pending.value;
      && (pending.byNominee <==> (pending.terms.beneficiary, pending.terms) in p.consents)
      && (pending.byBeneficiary <==> (p.info.beneficiary, pending.terms) in p.consents || p.idle)
  }

  /** A call about terms that may be proposed or are pending, by someone who has a say in them. */
  ghost predicate Heard(p: Protocol, caller: Address, t: Proposal) {
    if caller == p.info.owner then
      if t.beneficiary == p.info.owner then t.quota == 0 && t.expiration == 0 else t.quota > 0
    else
      && p.info.pending.Some? && p.info.pending.value.terms == t
      && (caller == p.info.beneficiary || caller == t.beneficiary)
  }

  /** What a beneficiary call does, in terms of the calls before it: one that is not heard changes nothing.
      One that is heard puts the terms into effect if by then the beneficiary and the nominee have both
      agreed to them since they were proposed, the beneficiary also by having had nothing left; otherwise
      they are pending. A new beneficiary starts with nothing used. */
  lemma BeneficiaryCallIs(p: Protocol, now: int, caller: Address, t: Proposal)
    requires Exact(p)
    ensures var p' := Apply(p, now, BeneficiaryCall(caller, t));
            && Exact(p')
            && (!Heard(p, caller, t) ==> p' == p.(clock := now))
            && (Heard(p, caller, t) ==>
                  && p'.consents == (if caller == p.info.owner then {} else p.consents) + {(caller, t)}
                  && p'.idle == (if caller == p.info.owner then now >= p.info.expiration || p.info.used >= p.info.quota
                                 else p.idle)
                  && var byBeneficiary := (p.info.beneficiary, t) in p'.consents || p'.idle;
                     var byNominee := (t.beneficiary, t) in p'.consents;
                     p'.info ==
                       if byBeneficiary && byNominee then
                         p.info.(beneficiary := t.beneficiary, quota := t.quota, expiration := t.expiration,
                                 used := if t.beneficiary == p.info.beneficiary then p.info.used else 0,
                                 pending := None)
                       else p.info.(pending := Some(Pending(t, byBeneficiary, byNominee))))
  {
  }

  lemma OtherCallsExact(p: Protocol, now: int, c: Call)
    requires Exact(p)
    ensures Exact(Apply(p, now, c))
  {
    if c.BeneficiaryCall? {
      BeneficiaryCallIs(p, now, c.caller, c.terms);
    }
  }

  lemma {:induction false} RunExact(p: Protocol, calls: seq<(int, Call)>)
    requires Exact(p)
    ensures Exact(Run(p, calls))
    decreases calls
  {
    hide Apply, Exact;
    if calls != [] {
      var n := |calls| - 1;
      RunExact(p, calls[..n]);
      OtherCallsExact(Run(p, calls[..n]), calls[n].0, calls[n].1);
    }
  }

  ghost function Run(p: Protocol, calls: seq<(int, Call)>): Protocol {
    if calls == [] then p
    else
      var n := |calls| - 1;
      Apply(Run(p, calls[..n]), calls[n].0, calls[n].1)
  }

  function Latest(start: int, calls: seq<(int, Call)>): int {
    if calls == [] then start else calls[|calls| - 1].0
  }

  ghost predicate Timely(start: int, calls: seq<(int, Call)>) {
    calls == [] ||
    var n := |calls| - 1;
    Timely(start, calls[..n]) && Latest(start, calls[..n]) <= calls[n].0
  }

  lemma {:induction false} TimelyPrefix(start: int, calls: seq<(int, Call)>, n: nat)
    requires Timely(start, calls) && n <= |calls|
    ensures Timely(start, calls[..n])
    decreases calls
  {
    if n < |calls| {
      TimelyPrefix(start, calls[..|calls| - 1], n);
      assert calls[..|calls| - 1][..n] == calls[..n];
    } else {
      assert calls[..n] == calls;
    }
  }

  lemma {:induction false} RunHonest(p: Protocol, calls: seq<(int, Call)>)
    requires Honest(p) && Timely(p.clock, calls)
    ensures Honest(Run(p, calls))
    ensures Run(p, calls).clock == Latest(p.clock, calls)
    decreases calls
  {
    hide Apply, Honest;
    if calls != [] {
      var n := |calls| - 1;
      RunHonest(p, calls[..n]);
      ApplyHonest(Run(p, calls[..n]), calls[n].0, calls[n].1);
      ApplyClock(Run(p, calls[..n]), calls[n].0, calls[n].1);
    }
  }

  lemma ApplyClock(p: Protocol, now: int, c: Call)
    ensures Apply(p, now, c).clock == now
  {
  }

  /** A beneficiary other than the owner, with quota and time left, is replaced or given other terms only
      by a call about those very terms, to which it and the new beneficiary have both agreed since the
      owner proposed them. */
  lemma OnlyByConsent(p: Protocol, now: int, c: Call)
    requires Honest(p) && p.clock <= now
    requires p.info.beneficiary != p.info.owner && p.info.Available(now) > 0
    ensures var p' := Apply(p, now, c);
            p'.info.Terms() != p.info.Terms() ==>
              && c.BeneficiaryCall? && p'.info.Terms() == c.terms
              && (p.info.beneficiary, c.terms) in p'.consents && (c.terms.beneficiary, c.terms) in p'.consents
  {
  }

  /** The same at every point of every run that starts with nothing pending. */
  lemma OnlyByConsentAlways(p: Protocol, calls: seq<(int, Call)>, n: nat)
    requires p.info.pending.None? && Timely(p.clock, calls) && n < |calls|
    ensures var before, after := Run(p, calls[..n]), Run(p, calls[..n + 1]);
            var c := calls[n].1;
            before.info.beneficiary != before.info.owner && before.info.Available(calls[n].0) > 0 &&
            after.info.Terms() != before.info.Terms() ==>
              && c.BeneficiaryCall? && after.info.Terms() == c.terms
              && (before.info.beneficiary, c.terms) in after.consents
              && (c.terms.beneficiary, c.terms) in after.consents
  {
    hide Apply, Honest, Info.Available;
    StartsHonest(p);
    TimelyPrefix(p.clock, calls, n);
    TimelyPrefix(p.clock, calls, n + 1);
    RunHonest(p, calls[..n]);
    assert calls[..n + 1][..n] == calls[..n];
    var before := Run(p, calls[..n]);
    if before.info.beneficiary != before.info.owner && before.info.Available(calls[n].0) > 0 {
      OnlyByConsent(before, calls[n].0, calls[n].1);
    }
  }

  lemma StartsHonest(p: Protocol)
    requires p.info.pending.None?
    ensures Honest(p)
  {
  }

  /** A withdrawal is paid exactly when it is asked for by the owner or the beneficiary, for no negative
      amount, from funds that are not negative, and with quota and time left if the beneficiary is not the
      owner. It pays the least of what is asked, what is free and what is left, and counts it; so no payout
      takes such a beneficiary beyond its quota. */
  lemma PayoutWithinQuota(i: Info, now: int, caller: Address, requested: int, free: int)
    ensures var r := Withdraw(i, now, caller, requested, free);
            && (r.Some? <==>
                  && requested >= 0 && free >= 0 && (caller == i.owner || caller == i.beneficiary)
                  && (i.beneficiary == i.owner || (now < i.expiration && i.used < i.quota)))
            && (r.Some? ==>
                  var paid := r.value.1;
                  && 0 <= paid <= requested && paid <= free
                  && (i.beneficiary != i.owner ==>
                        && i.used + paid <= i.quota && r.value.0 == i.(used := i.used + paid)
                        && (paid == requested || paid == free || paid == i.quota - i.used))
                  && (i.beneficiary == i.owner ==> r.value.0 == i && (paid == requested || paid == free)))
  {
  }

  // ---- who owns the miner ----

  ghost function OwnerAt(p: Protocol, calls: seq<(int, Call)>, n: nat): Address
    requires n <= |calls|
  {
    Run(p, calls[..n]).info.owner
  }

  /** The owner of the time makes an owner call. */
  ghost predicate OwnerSpeaks(p: Protocol, calls: seq<(int, Call)>, m: nat) {
    m < |calls| && calls[m].1.OwnerCall? && calls[m].1.caller == OwnerAt(p, calls, m)
  }

  /** The last thing that the owner, who still owns the miner, has said is that `b` is to follow. */
  ghost predicate NominatedAt(p: Protocol, calls: seq<(int, Call)>, m: nat, b: Address) {
    && OwnerSpeaks(p, calls, m) && calls[m].1.newOwner == b != OwnerAt(p, calls, m)
    && (forall k: nat :: m < k < |calls| ==> !OwnerSpeaks(p, calls, k))
    && (forall k: nat :: m < k <= |calls| ==> OwnerAt(p, calls, k) == OwnerAt(p, calls, m))
  }

  ghost predicate Nominated(p: Protocol, calls: seq<(int, Call)>, b: Address) {
    exists m: nat :: NominatedAt(p, calls, m, b)
  }

  /** What one call does to the owner and to who is to follow. */
  lemma OwnerStep(p: Protocol, now: int, c: Call)
    ensures var i, i' := p.info, Apply(p, now, c).info;
            && (!c.OwnerCall? ==> i'.owner == i.owner && i'.pendingOwner == i.pendingOwner)
            && (c.OwnerCall? && c.caller == i.owner ==>
                  i' == i.(pendingOwner := if c.newOwner == i.owner then None else Some(c.newOwner)))
            && (c.OwnerCall? && c.caller != i.owner && i.pendingOwner == Some(c.caller) && c.newOwner == c.caller ==>
                  i' == i.(owner := c.caller, pendingOwner := None, pending := None,
                           beneficiary := if i.beneficiary == i.owner then c.caller else i.beneficiary))
            && (c.OwnerCall? && c.caller != i.owner && !(i.pendingOwner == Some(c.caller) && c.newOwner == c.caller) ==>
                  i' == i)
  {
  }

  lemma NominatedMore(p: Protocol, calls: seq<(int, Call)>, b: Address)
    requires calls != []
    ensures var n := |calls| - 1;
            Nominated(p, calls, b) <==>
              if OwnerSpeaks(p, calls, n) then
                calls[n].1.newOwner == b != OwnerAt(p, calls, n) && OwnerAt(p, calls, n + 1) == OwnerAt(p, calls, n)
              else Nominated(p, calls[..n], b) && OwnerAt(p, calls, n + 1) == OwnerAt(p, calls, n)
  {
    hide Run;
    var n := |calls| - 1;
    var pre := calls[..n];
    assert calls[..n + 1] == calls;
    forall k: nat | k <= n
      ensures OwnerAt(p, calls, k) == OwnerAt(p, pre, k)
      ensures k < n ==> (OwnerSpeaks(p, calls, k) <==> OwnerSpeaks(p, pre, k))
    {
      assert pre[..k] == calls[..k];
    }
    if OwnerSpeaks(p, calls, n) {
      if calls[n].1.newOwner == b != OwnerAt(p, calls, n) && OwnerAt(p, calls, n + 1) == OwnerAt(p, calls, n) {
        assert NominatedAt(p, calls, n, b);
      }
    } else {
      if Nominated(p, pre, b) && OwnerAt(p, calls, n + 1) == OwnerAt(p, calls, n) {
        var m: nat :| NominatedAt(p, pre, m, b);
        assert NominatedAt(p, calls, m, b);
      }
      if Nominated(p, calls, b) {
        var m: nat :| NominatedAt(p, calls, m, b);
        assert NominatedAt(p, pre, m, b);
      }
    }
  }

  /** Over every run that starts with nobody pending, the pending owner is whom the owner last named, as long
      as it has not named itself since. */
  lemma {:induction false} PendingOwnerIff(p: Protocol, calls: seq<(int, Call)>, b: Address)
    requires p.info.pendingOwner.None?
    ensures Run(p, calls).info.pendingOwner == Some(b) <==> Nominated(p, calls, b)
    decreases calls
  {
    hide Apply, Nominated;
    if calls == [] {
      assert !Nominated(p, calls, b) by { NobodyNominated(p, calls, b); }
    } else {
      var n := |calls| - 1;
      var pre, c := calls[..n], calls[n].1;
      assert calls[..n + 1] == calls;
      var i := Run(p, pre).info;
      PendingOwnerIff(p, pre, b);
      if c.OwnerCall? {
        PendingOwnerIff(p, pre, c.caller);
        NotSelf(p, pre);
      }
      OwnerStep(Run(p, pre), calls[n].0, c);
      NominatedMore(p, calls, b);
    }
  }

  lemma NobodyNominated(p: Protocol, calls: seq<(int, Call)>, b: Address)
    requires calls == []
    ensures !Nominated(p, calls, b)
  {
  }

  lemma NotSelf(p: Protocol, calls: seq<(int, Call)>)
    ensures !Nominated(p, calls, Run(p, calls).info.owner)
  {
    assert calls[..|calls|] == calls;
    assert OwnerAt(p, calls, |calls|) == Run(p, calls).info.owner;
  }

  /** Over every run that starts with nobody pending, the miner changes hands exactly at a call in which the
      one whom its owner last named names itself. The terms of the beneficiary stay, save that one who was
      also the owner is followed in both, and nothing is left pending. */
  lemma OwnerChangesIff(p: Protocol, calls: seq<(int, Call)>, n: nat)
    requires p.info.pendingOwner.None? && n < |calls|
    ensures var i, i', c := Run(p, calls[..n]).info, Run(p, calls[..n + 1]).info, calls[n].1;
            && (i'.owner != i.owner <==>
                  c.OwnerCall? && c.newOwner == c.caller && Nominated(p, calls[..n], c.caller))
            && (i'.owner != i.owner ==>
                  i' == i.(owner := c.caller, pendingOwner := None, pending := None,
                           beneficiary := if i.beneficiary == i.owner then c.caller else i.beneficiary))
            && (c.OwnerCall? && i'.owner == i.owner ==>
                  i' == if c.caller != i.owner then i
                        else i.(pendingOwner := if c.newOwner == i.owner then None else Some(c.newOwner)))
  {
    hide Apply, Nominated;
    assert calls[..n + 1][..n] == calls[..n];
    OwnerStep(Run(p, calls[..n]), calls[n].0, calls[n].1);
    NotSelf(p, calls[..n]);
    if calls[n].1.OwnerCall? {
      PendingOwnerIff(p, calls[..n], calls[n].1.caller);
    }
  }

  // ---- when the quota in use exceeds the quota ----

  /** What is used is never negative, and nothing negative is proposed. */
  ghost predicate Accounted(p: Protocol) {
    p.info.used >= 0 && (p.info.pending.Some? ==> p.info.pending.value.terms.quota >= 0)
  }

  ghost predicate Exceeds(p: Protocol) {
    p.info.used > p.info.quota
  }

  /** The call sets the terms of the beneficiary: it completes a proposal. */
  ghost predicate TakesEffect(p: Protocol, now: int, c: Call) {
    c.BeneficiaryCall? &&
    var r := ChangeBeneficiary(p.info, now, c.caller, c.terms);
    r.Some? && r.value.pending.None?
  }

  /** It gives the beneficiary there is a quota below what it has used. */
  ghost predicate Undercuts(p: Protocol, now: int, c: Call) {
    TakesEffect(p, now, c) && c.terms.beneficiary == p.info.beneficiary && c.terms.quota < p.info.used
  }

  /** A call that sets the terms makes use exceed quota if and only if it undercuts the beneficiary there
      is; any other call leaves it as it was. */
  lemma ExceedsStep(p: Protocol, now: int, c: Call)
    requires Accounted(p)
    ensures Accounted(Apply(p, now, c))
    ensures Exceeds(Apply(p, now, c)) <==> if TakesEffect(p, now, c) then Undercuts(p, now, c) else Exceeds(p)
  {
  }

  ghost predicate EffectAt(p: Protocol, calls: seq<(int, Call)>, n: nat)
    requires n < |calls|
  {
    TakesEffect(Run(p, calls[..n]), calls[n].0, calls[n].1)
  }

  ghost predicate UndercutAt(p: Protocol, calls: seq<(int, Call)>, n: nat)
    requires n < |calls|
  {
    Undercuts(Run(p, calls[..n]), calls[n].0, calls[n].1)
  }

  /** The last call to set terms, if there is one, is the one that decides. */
  ghost predicate LastEffectUndercuts(p: Protocol, calls: seq<(int, Call)>) {
    exists n: nat :: n < |calls| && UndercutAt(p, calls, n) &&
                     forall m: nat :: n < m < |calls| ==> !EffectAt(p, calls, m)
  }

  lemma {:induction false} RunAccounted(p: Protocol, calls: seq<(int, Call)>)
    requires Accounted(p)
    ensures Accounted(Run(p, calls))
    decreases calls
  {
    hide Apply, Accounted, Exceeds, TakesEffect, Undercuts;
    if calls != [] {
      var n := |calls| - 1;
      RunAccounted(p, calls[..n]);
      ExceedsStep(Run(p, calls[..n]), calls[n].0, calls[n].1);
    }
  }

  /** After any run from a state within quota, use exceeds quota if and only if the last call that set
      terms gave the beneficiary of the time a quota below what it had used. */
  lemma {:induction false} ExceedsIff(p: Protocol, calls: seq<(int, Call)>)
    requires Accounted(p) && !Exceeds(p)
    ensures Exceeds(Run(p, calls)) <==> LastEffectUndercuts(p, calls)
    decreases calls
  {
    hide Apply, Accounted, Exceeds, TakesEffect, Undercuts;
    if calls != [] {
      var n := |calls| - 1;
      var pre := calls[..n];
      RunAccounted(p, pre);
      ExceedsIff(p, pre);
      ExceedsStep(Run(p, pre), calls[n].0, calls[n].1);
      UndercutsIsEffect(Run(p, pre), calls[n].0, calls[n].1);
      forall m: nat | m < n
        ensures UndercutAt(p, calls, m) <==> UndercutAt(p, pre, m)
        ensures EffectAt(p, calls, m) <==> EffectAt(p, pre, m)
      {
        assert pre[..m] == calls[..m];
      }
      LastEffectMore(p, calls);
    }
  }

  lemma UndercutsIsEffect(p: Protocol, now: int, c: Call)
    ensures Undercuts(p, now, c) ==> TakesEffect(p, now, c)
  {
  }

  lemma LastEffectMore(p: Protocol, calls: seq<(int, Call)>)
    requires calls != []
    requires var pre := calls[..|calls| - 1];
             forall m: nat | m < |pre| ::
               (UndercutAt(p, calls, m) <==> UndercutAt(p, pre, m)) && (EffectAt(p, calls, m) <==> EffectAt(p, pre, m))
    requires UndercutAt(p, calls, |calls| - 1) ==> EffectAt(p, calls, |calls| - 1)
    ensures LastEffectUndercuts(p, calls) <==>
              if EffectAt(p, calls, |calls| - 1) then UndercutAt(p, calls, |calls| - 1)
              else LastEffectUndercuts(p, calls[..|calls| - 1])
  {
    hide UndercutAt, EffectAt;
    var last := |calls| - 1;
    var pre := calls[..last];
    if !EffectAt(p, calls, last) && LastEffectUndercuts(p, pre) {
      var n: nat :| n < |pre| && UndercutAt(p, pre, n) && forall m: nat :: n < m < |pre| ==> !EffectAt(p, pre, m);
      assert UndercutAt(p, calls, n);
    }
  }

  /** The quota in use can exceed the quota all the same: a beneficiary can agree to a smaller one. */
  lemma UsedCanExceedQuota(owner: Address, b: Address)
    requires owner != b
    ensures var p := Settled(owner, Proposal(b, 10, 100));
            var less := Proposal(b, 5, 100);
            var r := Run(p, [(1, WithdrawCall(b, 8, 8)), (2, BeneficiaryCall(owner, less)),
                             (3, BeneficiaryCall(b, less))]);
            r.info.used == 8 && r.info.quota == 5
  {
    var p := Settled(owner, Proposal(b, 10, 100));
    var less := Proposal(b, 5, 100);
    var calls := [(1, WithdrawCall(b, 8, 8)), (2, BeneficiaryCall(owner, less)), (3, BeneficiaryCall(b, less))];
    var one := Apply(p, 1, calls[0].1);
    var two := Apply(one, 2, calls[1].1);
    assert calls[..2][..1] == calls[..1];
    assert Run(p, calls[..1]) == one;
    assert Run(p, calls[..2]) == two;
    assert two.info.pending == Some(Pending(less, false, false));
  }

  // ---- the calls themselves ----

  class MinerInfo {
    var owner: Address
    var beneficiary: Address
    var quota: int
    var used: int
    var expiration: int
    var pendingOwner: Option<Address>
    var pending: Option<Pending>

    ghost function View(): Info
      reads this
    {
      Info(owner, beneficiary, quota, used, expiration, pendingOwner, pending)
    }

    function Available(now: int): int
      reads this
    {
      if expiration > now then Max(quota - used, 0) else 0
    }

    method ChangeOwnerAddress(caller: Address, newOwner: Address) returns (ok: bool)
      modifies this
      ensures ok <==> ChangeOwner(old(View()), caller, newOwner).Some?
      ensures View() == if ok then ChangeOwner(old(View()), caller, newOwner).value else old(View())
    {
      if caller == owner || pendingOwner.None? {
        if caller != owner {
          return false;
        }
        pendingOwner := Some(newOwner);
      } else {
        if caller != pendingOwner.value || newOwner != pendingOwner.value {
          return false;
        }
        if beneficiary == owner {
          beneficiary := pendingOwner.value;
        }
        pending := None;
        owner := pendingOwner.value;
      }
      if pendingOwner == Some(owner) {
        pendingOwner := None;
      }
      return true;
    }

    method ProposeOrConfirm(now: int, caller: Address, t: Proposal) returns (ok: bool)
      modifies `pending
      ensures ok <==> Propose(old(View()), now, caller, t).Some?
      ensures pending == if ok then Propose(old(View()), now, caller, t) else old(pending)
    {
      if caller == owner {
        if t.beneficiary != owner {
          if t.quota <= 0 {
            return false;
          }
        } else if t.quota != 0 || t.expiration != 0 {
          return false;
        }
        pending := Some(Pending(t, Available(now) == 0, false));
        return true;
      }
      if pending.None? || (caller != beneficiary && caller != pending.value.terms.beneficiary) {
        return false;
      }
      ok := pending.value.terms == t;
    }

    method ChangeBeneficiaryCall(now: int, caller: Address, t: Proposal) returns (ok: bool)
      modifies this
      ensures ok <==> ChangeBeneficiary(old(View()), now, caller, t).Some?
      ensures View() == if ok then ChangeBeneficiary(old(View()), now, caller, t).value else old(View())
    {
      ok := ProposeOrConfirm(now, caller, t);
      if !ok {
        return;
      }
      var p := pending.value;
      if caller == beneficiary {
        p := p.(byBeneficiary := true);
      }
      if caller == t.beneficiary {
        p := p.(byNominee := true);
      }
      pending := Some(p);
      if p.byBeneficiary && p.byNominee {
        if t.beneficiary != beneficiary {
          used := 0;
        }
        beneficiary, quota, expiration := t.beneficiary, p.terms.quota, p.terms.expiration;
        pending := None;
      }
    }

    method WithdrawBalance(now: int, caller: Address, requested: int, free: int) returns (ok: bool, paid: int)
      modifies `used
      ensures ok <==> Withdraw(old(View()), now, caller, requested, free).Some?
      ensures ok ==> (View(), paid) == Withdraw(old(View()), now, caller, requested, free).value
      ensures !ok ==> View() == old(View())
    {
      paid := 0;
      if requested < 0 || (caller != owner && caller != beneficiary) {
        return false, paid;
      }
      paid := Min(free, requested);
      if paid < 0 {
        return false, paid;
      }
      if beneficiary != owner {
        var remaining := Available(now);
        if remaining == 0 {
          return false, paid;
        }
        paid := Min(paid, remaining);
        if paid > 0 {
          used := used + paid;
        }
      }
      return true, paid;
    }
  }
}
