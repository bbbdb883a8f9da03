/** What the lockdrop promises a user: what a claim pays, what is frozen at the close, what stays locked. */
module LockdropResults {
  import opened Decimals
  import opened Sums
  import opened Wrappers
  import opened Lockdrop
  import opened LockdropBook
  import opened LockdropSolvency
  import opened LockdropClaims
  import opened LockdropUnwind
  import opened LockdropRun

  // ---------------------------------------------------------------- claims

  /**
   After a claim a user has been sent, or has delegated, exactly the MARS it was entitled to; an
   unlocked position is gone and has paid exactly its share of the maUST.
   */
  lemma ClaimPaysInFull(w: World, now: nat, user: Addr, unlock: Option<nat>, accrued: nat)
    requires Sound(w) && w.clock <= now && Claim(w, now, user, unlock, accrued).Ok?
    ensures user in w.users
    ensures var r := Claim(w, now, user, unlock, accrued).value;
            && Get(r.marsOut, user) == Entitled(w.config, w.state.totalWeight, w.lockups, w.users[user])
            && (unlock.None? ==> r.maUstPaid == w.maUstPaid && r.lockups.Keys == w.lockups.Keys)
            && (unlock.Some? ==>
                  var id := LockupId(user, unlock.value);
                  && id in w.lockups && r.lockups.Keys == w.lockups.Keys - {id}
                  && Get(r.maUstPaid, user) == Get(w.maUstPaid, user) + MaUstShare(w.state, w.lockups[id].ust))
  {
    hide Sound, MaUstShare, Materialised, Callbacks, UserAmounts, Shares, Owned, Distinct;
    ClaimSound(w, now, user, unlock, accrued);
    var t := w.(clock := now);
    WaitSound(w, now);
    ClaimsAfterClose(t);
    MaterialisedSound(t, user);
    MaterialisedShare(t, user);
    MaterialisedClock(w, now, user);
    UserIsOk(Materialised(t, user), user);
    CallbacksEffect(Materialised(w, user), user, accrued, unlock);
    UnlockableAlways(w, Materialised(w, user), user, unlock);
  }

  // ---------------------------------------------------------------- frozen at the close

  /** Terms and total weight are unchanged, and every position still there is as large as before. */
  predicate Frozen(w: World, r: World) {
    && r.config.incentives == w.config.incentives && r.config.boosts == w.config.boosts
    && r.state.totalWeight == w.state.totalWeight
    && (forall id :: id in r.lockups ==>
          id in w.lockups && r.lockups[id].ust == w.lockups[id].ust && r.lockups[id].duration == w.lockups[id].duration)
  }

  lemma LateStepFrozen(w: World, now: nat, op: Operation)
    requires Sound(w) && Allowed(w, now, op) && w.clock >= WithdrawEnd(w.config)
    ensures Frozen(w, Step(w, now, op))
    ensures WithdrawEnd(Step(w, now, op).config) == WithdrawEnd(w.config)
  {
    hide Sound, Placed, Owned, DepositUst, WithdrawUst, DelegateMars, Claim, Nuke;
    PlacedOf(w);
    hide ValidConfig;
    match op {
      case OpDepositUst(user, duration, amount) =>
        DepositsClosed(w, now, user, duration, amount);
      case OpWithdrawUst(user, duration, amount) =>
        LateWithdrawFrozen(w, now, user, duration, amount);
      case OpDelegateMars(user, amount) =>
        DelegateFrozen(w, now, user, amount);
      case OpClaim(user, unlock, accrued) =>
        ClaimFrozen(w, now, user, unlock, accrued);
      case OpNuke(page) =>
        NukeFrozen(w, page);
      case _ =>
    }
  }

  lemma DepositsClosed(w: World, now: nat, user: Addr, duration: nat, amount: nat)
    requires ValidConfig(w.config) && now >= WithdrawEnd(w.config)
    ensures DepositUst(w, now, user, duration, amount).Err?
  {
    hide Weight;
  }

  lemma LateWithdrawFrozen(w: World, now: nat, user: Addr, duration: nat, amount: nat)
    requires Sound(w) && w.clock <= now && now >= WithdrawEnd(w.config)
    ensures var r := WithdrawUst(w, now, user, duration, amount);
            r.Ok? ==> Frozen(w, r.value) && r.value.config == w.config
  {
    hide Sound, Weight, Mul, FromRatio, AllowedWithdrawalPercent, Without;
    WithdrawFunded(w, now, user, duration, amount);
    NoWeight(w.config, duration);
    if LockupId(user, duration) in w.lockups {
      LockupFacts(w, LockupId(user, duration));
    }
  }

  lemma DelegateFrozen(w: World, now: nat, user: Addr, amount: nat)
    ensures var r := DelegateMars(w, now, user, amount); r.Ok? ==> Frozen(w, r.value) && r.value.config == w.config
  {
    hide Materialised;
    MaterialisedFrozen(w, user);
  }

  lemma ClaimFrozen(w: World, now: nat, user: Addr, unlock: Option<nat>, accrued: nat)
    ensures var r := Claim(w, now, user, unlock, accrued); r.Ok? ==> Frozen(w, r.value) && r.value.config == w.config
  {
    hide Materialised, Callbacks, MaUstShare;
    if Claim(w, now, user, unlock, accrued).Ok? {
      MaterialisedFrozen(w, user);
      CallbacksEffect(Materialised(w, user), user, accrued, unlock);
    }
  }

  lemma MaterialisedFrozen(w: World, user: Addr)
    ensures var m := Materialised(w, user); Frozen(w, m) && m.config == w.config && user in m.users
  {
    hide Rewards, MaUstShare, Reward, Weight;
  }

  lemma {:induction false} NukeFrozen(w: World, page: seq<Addr>)
    ensures Nuke(w, page).Ok? ==> Frozen(w, Nuke(w, page).value) && Nuke(w, page).value.config == w.config
    decreases |page|
  {
    hide NukeUser;
    if page != [] && NukeUser(w, page[0]).Ok? {
      NukeUserFrozen(w, page[0]);
      NukeFrozen(NukeUser(w, page[0]).value, page[1..]);
    }
  }

  lemma NukeUserFrozen(w: World, user: Addr)
    requires NukeUser(w, user).Ok?
    ensures Frozen(w, NukeUser(w, user).value) && NukeUser(w, user).value.config == w.config
  {
    hide Shares, Locked;
  }

  /** From the close of the windows on, the reward of a position never changes while it exists. */
  lemma {:induction false} LateRunFrozen(w: World, calls: seq<(nat, Operation)>)
    requires Sound(w) && AllowedRun(w, calls) && w.clock >= WithdrawEnd(w.config)
    ensures Frozen(w, Run(w, calls))
    ensures var r := Run(w, calls);
            forall id :: id in r.lockups ==>
              id in w.lockups
              && Rewards(r.config, r.state.totalWeight, r.lockups)[id]
                 == Rewards(w.config, w.state.totalWeight, w.lockups)[id]
    decreases |calls|
  {
    hide Sound, Step, Allowed, Rewards;
    if calls != [] {
      var next := Step(w, calls[0].0, calls[0].1);
      StepSound(w, calls[0].0, calls[0].1);
      StepClock(w, calls[0].0, calls[0].1);
      AllowedTime(w, calls[0].0, calls[0].1);
      LateStepFrozen(w, calls[0].0, calls[0].1);
      LateRunFrozen(next, calls[1..]);
    }
    FrozenRewards(w, Run(w, calls));
  }

  lemma AllowedTime(w: World, now: nat, op: Operation)
    requires Allowed(w, now, op)
    ensures w.clock <= now
  {
  }

  lemma FrozenRewards(w: World, r: World)
    requires Frozen(w, r)
    ensures forall id :: id in r.lockups ==>
              id in w.lockups
              && Rewards(r.config, r.state.totalWeight, r.lockups)[id]
                 == Rewards(w.config, w.state.totalWeight, w.lockups)[id]
  {
  }

  // ---------------------------------------------------------------- committed UST

  /** The allowed percentage never rises as time passes. */
  lemma AllowedPercentFalls(config: Config, a: nat, b: nat)
    requires a <= b && ValidConfig(config)
    ensures AllowedWithdrawalPercent(config, b) <= AllowedWithdrawalPercent(config, a)
  {
    var cutoff := DepositEnd(config);
    var second := cutoff + config.withdrawalWindow / 2;
    var final := cutoff + config.withdrawalWindow;
    PercentAtMostOne(config, b);
    if second < b < final {
      HalfRatio(final - b, final - second);
      if second < a {
        RatioMonotone(50 * (final - b), 50 * (final - a), 100 * (final - second));
      }
    }
  }

  /** A position was not withdrawn from, or was once and kept at least half, rounded up. */
  predicate KeepsHalf(before: Lockup, after: Lockup) {
    || (after.withdrawn == before.withdrawn && after.ust >= before.ust)
    || (!before.withdrawn && after.withdrawn && 2 * after.ust >= before.ust)
  }

  ghost predicate AllKeepHalf(a: Lockups, b: Lockups) {
    forall id :: KeepsHalf(LockupOf(a, id), LockupOf(b, id))
  }

  lemma LateWithdrawKeepsHalf(w: World, now: nat, user: Addr, duration: nat, amount: nat, r: World)
    requires Sound(w) && w.clock <= now && now >= DepositEnd(w.config)
    requires WithdrawUst(w, now, user, duration, amount) == Ok(r)
    ensures AllKeepHalf(w.lockups, r.lockups)
    ensures r.state == w.state.(totalUst := r.state.totalUst, totalWeight := r.state.totalWeight)
    ensures r.config == w.config
  {
    hide Sound, Mul, FromRatio, AllowedWithdrawalPercent, Weight, Without, Placed, Owned, SumSeq, Locked, Weights;
    var id := LockupId(user, duration);
    WithdrawFunded(w, now, user, duration, amount);
    PlacedOf(w);
    LockupFacts(w, id);
    PercentAtMostOne(w.config, now);
    HalfAtMost(w.lockups[id].ust, AllowedWithdrawalPercent(w.config, now));
    assert amount != w.lockups[id].ust && r.lockups == w.lockups[id := r.lockups[id]];
    assert KeepsHalf(w.lockups[id], r.lockups[id]);
    hide Placed, Owned, WithdrawUst;
  }

  lemma LateDepositKeeps(w: World, now: nat, user: Addr, duration: nat, amount: nat)
    ensures var r := DepositUst(w, now, user, duration, amount);
            r.Ok? ==> AllKeepHalf(w.lockups, r.value.lockups) && r.value.config == w.config
                      && r.value.state.finalMaUst == w.state.finalMaUst
  {
    hide Weight;
  }

  lemma LateStepKeepsHalf(w: World, now: nat, op: Operation)
    requires Sound(w) && Allowed(w, now, op) && now >= DepositEnd(w.config)
    requires w.state.finalMaUst == 0
    ensures AllKeepHalf(w.lockups, Step(w, now, op).lockups)
    ensures var s := Step(w, now, op).state;
            s.finalMaUst > 0 ==> s.finalUst == w.state.totalUst
    ensures DepositEnd(Step(w, now, op).config) == DepositEnd(w.config)
  {
    hide Sound, Weight, DepositUst, WithdrawUst, DelegateMars, Claim, Nuke;
    match op {
      case OpDepositUst(user, duration, amount) =>
        LateDepositKeeps(w, now, user, duration, amount);
      case OpWithdrawUst(user, duration, amount) =>
        if WithdrawUst(w, now, user, duration, amount).Ok? {
          LateWithdrawKeepsHalf(w, now, user, duration, amount, WithdrawUst(w, now, user, duration, amount).value);
        }
      case OpDelegateMars(user, amount) =>
        DelegateKeeps(w, now, user, amount);
      case OpClaim(user, unlock, accrued) =>
        ClaimKeeps(w, now, user, unlock, accrued);
      case OpNuke(page) =>
        EmptyNukeSound(w, page);
      case _ =>
    }
  }

  lemma DelegateKeeps(w: World, now: nat, user: Addr, amount: nat)
    ensures var r := DelegateMars(w, now, user, amount);
            r.Ok? ==> AllKeepHalf(w.lockups, r.value.lockups) && r.value.config == w.config
                      && r.value.state.finalMaUst == w.state.finalMaUst
  {
    hide Materialised;
    MaterialisedKeeps(w, user);
  }

  /** Nothing can be unlocked before the deposit, when every share is zero. */
  lemma ClaimKeeps(w: World, now: nat, user: Addr, unlock: Option<nat>, accrued: nat)
    requires Sound(w) && w.state.finalMaUst == 0
    ensures var r := Claim(w, now, user, unlock, accrued);
            r.Ok? ==> AllKeepHalf(w.lockups, r.value.lockups) && r.value.config == w.config
                      && r.value.state.finalMaUst == 0 && r.value.state.finalUst == w.state.finalUst
  {
    hide Sound, Materialised, Callbacks, MaUstShare;
    SharesWithin(w);
    if Claim(w, now, user, unlock, accrued).Ok? {
      var m := Materialised(w, user);
      MaterialisedKeeps(w, user);
      CallbacksEffect(m, user, accrued, unlock);
      if unlock.Some? {
        NoMaUst(m.state, LockupOf(m.lockups, LockupId(user, unlock.value)).ust);
      }
    }
  }

  lemma MaterialisedKeeps(w: World, user: Addr)
    ensures var m := Materialised(w, user);
            AllKeepHalf(w.lockups, m.lockups) && m.state == w.state && m.config == w.config && user in m.users
  {
    hide Rewards, MaUstShare, Reward, Weight;
  }

  lemma KeepsHalfChain(a: Lockups, b: Lockups, c: Lockups)
    requires AllKeepHalf(a, b) && AllKeepHalf(b, c)
    ensures AllKeepHalf(a, c)
  {
  }

  /** Until the Red Bank deposit every position keeps half; the deposit takes at least half of the total. */
  ghost predicate Floor(start: World, w: World) {
    && 2 * (if w.state.finalMaUst == 0 then w.state.totalUst else w.state.finalUst) >= start.state.totalUst
    && (w.state.finalMaUst == 0 ==> AllKeepHalf(start.lockups, w.lockups))
  }

  lemma TotalKeepsHalf(a: World, b: World)
    requires Sound(a) && Sound(b) && a.state.finalMaUst == 0 == b.state.finalMaUst && AllKeepHalf(a.lockups, b.lockups)
    ensures 2 * b.state.totalUst >= a.state.totalUst
  {
    OpenTotals(a);
    OpenTotals(b);
    hide Sound;
    forall id | id in Locked(a.lockups) ensures Below(Locked(a.lockups)[id], 1, Get(Locked(b.lockups), id), 2) {
      assert KeepsHalf(LockupOf(a.lockups, id), LockupOf(b.lockups, id));
    }
    SumBound(Locked(a.lockups), Locked(b.lockups), 1, 2);
  }

  /** Once partial withdrawals have started, at least half of what is locked then reaches the Red Bank. */
  lemma {:induction false} LateRunKeepsHalf(start: World, w: World, calls: seq<(nat, Operation)>)
    requires Sound(start) && Sound(w) && AllowedRun(w, calls) && w.clock >= DepositEnd(w.config)
    requires start.state.finalMaUst == 0 && Floor(start, w)
    ensures Floor(start, Run(w, calls))
    decreases |calls|
  {
    hide Sound, Step, Allowed, AllKeepHalf;
    if calls != [] {
      var now, op := calls[0].0, calls[0].1;
      var next := Step(w, now, op);
      StepSound(w, now, op);
      StepClock(w, now, op);
      AllowedTime(w, now, op);
      if w.state.finalMaUst == 0 {
        LateStepKeepsHalf(w, now, op);
        KeepsHalfChain(start.lockups, w.lockups, next.lockups);
        if next.state.finalMaUst == 0 {
          TotalKeepsHalf(start, next);
        }
      } else {
        DepositedForGood(w, now, op);
      }
      LateRunKeepsHalf(start, next, calls[1..]);
    }
  }

  /**
   In particular every run from then on: until the deposit every position keeps half, and half of the
   total is deposited.
   */
  lemma RunKeepsHalf(w: World, calls: seq<(nat, Operation)>)
    requires Sound(w) && AllowedRun(w, calls) && w.clock >= DepositEnd(w.config) && w.state.finalMaUst == 0
    ensures var r := Run(w, calls);
            && 2 * (if r.state.finalMaUst == 0 then r.state.totalUst else r.state.finalUst) >= w.state.totalUst
            && (r.state.finalMaUst == 0 ==> forall id :: KeepsHalf(LockupOf(w.lockups, id), LockupOf(r.lockups, id)))
  {
    hide Sound, Run;
    LateRunKeepsHalf(w, w, calls);
  }

  lemma DepositedForGood(w: World, now: nat, op: Operation)
    requires w.state.finalMaUst > 0
    ensures var s := Step(w, now, op).state; s.finalMaUst == w.state.finalMaUst && s.finalUst == w.state.finalUst
    ensures DepositEnd(Step(w, now, op).config) == DepositEnd(w.config)
  {
    hide Weight, Mul, FromRatio, AllowedWithdrawalPercent, Without, Rewards, Rewarded, MaUstShare, Nuke;
    if op.OpNuke? {
      NukeState(w, op.page);
    }
  }

  lemma {:induction false} NukeState(w: World, page: seq<Addr>)
    ensures Nuke(w, page).Ok? ==>
              var r := Nuke(w, page).value;
              r.config == w.config && r.state == w.state.(totalMaUst := r.state.totalMaUst)
    decreases |page|
  {
    hide NukeUser;
    if page != [] && NukeUser(w, page[0]).Ok? {
      NukeUserClock(w, page[0]);
      NukeState(NukeUser(w, page[0]).value, page[1..]);
    }
  }

  // ---------------------------------------------------------------- batches before the deposit

  /**
   Before the Red Bank deposit a batch that goes through keeps the books if and only if no user of
   the page has a position: otherwise positions disappear while their UST stays in the totals.
   */
  lemma EarlyNukeSound(w: World, page: seq<Addr>)
    requires Sound(w) && w.state.finalMaUst == 0 && Nuke(w, page).Ok?
    ensures Sound(Nuke(w, page).value) <==> NothingListed(w, page)
  {
    hide Sound;
    if NothingListed(w, page) {
      EmptyNukeSound(w, page);
    } else {
      EarlyNukeShrinks(w, page);
      if Sound(Nuke(w, page).value) {
        OpenTotals(Nuke(w, page).value);
      }
    }
  }

  /** A batch that unwinds positions before the deposit leaves totals that no position accounts for. */
  lemma EarlyNukeShrinks(w: World, page: seq<Addr>)
    requires Sound(w) && w.state.finalMaUst == 0 && Nuke(w, page).Ok? && !NothingListed(w, page)
    ensures var r := Nuke(w, page).value; r.state.finalMaUst == 0 && Sum(Locked(r.lockups)) < r.state.totalUst
  {
    hide Sound;
    EarlyNukeRemoves(w, page);
    var r := Nuke(w, page).value;
    var id :| id in w.lockups && id !in r.lockups;
    NukeFrozen(w, page);
    NukeState(w, page);
    LockupFacts(w, id);
    LessLocked(w.lockups, r.lockups, id);
    OpenTotals(w);
  }

  lemma LessLocked(before: Lockups, after: Lockups, id: LockupId)
    requires id in before && id !in after && before[id].ust > 0
    requires forall j :: j in after ==> j in before && after[j].ust == before[j].ust
    ensures Sum(Locked(after)) < Sum(Locked(before))
  {
    SumMonotone(Locked(after), Locked(before) - {id});
    SumDrop(Locked(before), id);
  }

  lemma {:induction false} EarlyNukeRemoves(w: World, page: seq<Addr>)
    requires Sound(w) && w.state.finalMaUst == 0 && Nuke(w, page).Ok? && !NothingListed(w, page)
    ensures exists id :: id in w.lockups && id !in Nuke(w, page).value.lockups
    decreases |page|
  {
    hide Sound, NukeUser;
    var positions := Lookup(w.users, page[0]).positions;
    if positions == [] {
      EmptyDropSound(w, page[0]);
      var u :| u in page && Lookup(w.users, u).positions != [];
      assert u in page[1..] && Lookup(w.users - {page[0]}, u).positions != [];
      EarlyNukeRemoves(w.(users := w.users - {page[0]}), page[1..]);
    } else {
      UserPositions(w, page[0]);
      assert positions[0] in positions;
      NukedPositions(w, page[0]);
      NukeFrozen(NukeUser(w, page[0]).value, page[1..]);
      assert positions[0] in w.lockups && positions[0] !in Nuke(w, page).value.lockups;
    }
  }

  lemma NukedPositions(w: World, user: Addr)
    requires NukeUser(w, user).Ok? && (Lookup(w.users, user).totalUst == 0 ==> Lookup(w.users, user).positions == [])
    ensures forall id :: id in Lookup(w.users, user).positions ==> id !in NukeUser(w, user).value.lockups
  {
    hide Shares, Locked;
  }
}
