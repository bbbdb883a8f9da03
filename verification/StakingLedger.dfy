/**
 The tokens that LP staking moves. Each staker's bond is what it handed in less what was handed back,
 the MARS on its audit is what it was sent, and calls are accepted exactly under conditions that a
 caller can check; an update of the configuration takes nothing of what was earned before it.
 */
module StakingLedger {
  import opened Decimals
  import opened Wrappers
  import opened Emission
  import opened LpStaking
  import opened StakingAudit

  // ---------------------------------------------------------------- what each call accepts

  /** What a staker could claim at `now`: what is pending, and the growth of its share since. */
  ghost function Owed(store: Store, now: nat, user: Addr): nat
    requires ValidAt(store, now)
  {
    Touch(store, now, user).stakers[user].pending
  }

  /** What is owed is what was pending plus the growth of bond times index, each product rounded down. */
  lemma OwedByIndex(store: Store, now: nat, user: Addr, before: nat, after: nat)
    requires ValidAt(store, now)
    requires var staker := Lookup(store.stakers, user);
             var index := Accrued(store.config, store.state, now).globalRewardIndex;
             && before * ONE <= staker.bond * staker.index < before * ONE + ONE
             && after * ONE <= staker.bond * index < after * ONE + ONE
    ensures Owed(store, now, user) == Lookup(store.stakers, user).pending + after - before
  {
    hide Accrued, Valid, Ready;
    BondWithinTotal(store, user);
    var staker, index := Lookup(store.stakers, user), Accrued(store.config, store.state, now).globalRewardIndex;
    RoundedDown(staker.bond * staker.index, before, Mul(staker.bond, staker.index));
    RoundedDown(staker.bond * index, after, Mul(staker.bond, index));
  }

  lemma RoundedDown(x: nat, a: nat, b: nat)
    requires a * ONE <= x < a * ONE + ONE && b * ONE <= x < b * ONE + ONE
    ensures a == b
  {
  }

  /** An unbond is accepted exactly up to the bond; it returns the LP, and with it what is owed if asked for. */
  lemma UnbondExactly(store: Store, now: nat, user: Addr, amount: nat, withdraw: bool)
    requires ValidAt(store, now)
    ensures var r := AfterUnbond(store, now, user, amount, withdraw);
            && (r.Ok? <==> 0 < amount <= Lookup(store.stakers, user).bond)
            && (r.Ok? ==> r.value.1 == Payout(if withdraw then Owed(store, now, user) else 0, amount))
  {
    hide Valid, Ready, Settle;
  }

  /** A claim is accepted exactly when something is owed, and sends it all. */
  lemma ClaimExactly(store: Store, now: nat, user: Addr)
    requires ValidAt(store, now)
    ensures var r := AfterClaim(store, now, user);
            && (r.Ok? <==> Owed(store, now, user) > 0)
            && (r.Ok? ==> r.value.1 == Payout(Owed(store, now, user), 0) && Owed(r.value.0, now, user) == 0)
  {
    hide Ready, Valid;
    if AfterClaim(store, now, user).Ok? {
      NothingLeftOwed(store, now, user);
    }
  }

  lemma NothingLeftOwed(store: Store, now: nat, user: Addr)
    requires ValidAt(store, now) && AfterClaim(store, now, user).Ok?
    ensures Owed(AfterClaim(store, now, user).value.0, now, user) == 0
  {
    hide Valid, Settle;
    var paid := AfterClaim(store, now, user).value.0;
    AccruedTwice(store.config, store.state, now);
    SettledTwice(paid.stakers[user], paid.state.globalRewardIndex);
  }

  lemma SettledTwice(staker: Staker, index: Decimal)
    requires staker.index == index
    ensures Settle(staker, index) == staker
  {
  }

  /** Catching up twice to the same time is catching up once. */
  lemma AccruedTwice(config: Config, state: State, now: nat)
    requires Ready(config, state, now)
    ensures var s := Accrued(config, state, now);
            Accrued(config, s, now).globalRewardIndex == s.globalRewardIndex
  {
    hide Mul, CyclePay;
    var s := Accrued(config, state, now);
    if s.totalBondAmount > 0 && config.init <= now && s.lastDistributed != config.till {
      EmptyInterval(config, s.currentCycle, s.currentCycleRewards, s.lastDistributed, now);
      NothingToShare(s.totalBondAmount);
    }
  }

  lemma NothingToShare(total: nat)
    requires total > 0
    ensures FromRatio(0, total) == 0
  {
    if FromRatio(0, total) > 0 {
      ProductMonotone(1, FromRatio(0, total), total, total);
    }
  }

  /**
   Only the owner changes the terms, only to an increase below one, and the change is prospective: at the
   time of the update every staker is owed what it was owed under the old terms.
   */
  lemma UpdateIsProspective(store: Store, now: nat, sender: Addr, change: Change, user: Addr)
    requires ValidAt(store, now)
    ensures var r := AfterUpdate(store, now, sender, change);
            && (r.Ok? <==> sender == store.admin.owner && change.rewardIncrease.GetOr(0) < ONE)
            && (r.Ok? ==>
                  && Owed(r.value, now, user) == Owed(store, now, user)
                  && r.value.admin.owner == change.owner.GetOr(store.admin.owner)
                  && r.value.admin.token == change.token.GetOr(store.admin.token)
                  && r.value.config.rewardIncrease == change.rewardIncrease.GetOr(store.config.rewardIncrease)
                  && (change.cycleRewards.Some? ==> r.value.state.currentCycleRewards == change.cycleRewards.value))
  {
    hide Valid, Settle;
    var r := AfterUpdate(store, now, sender, change);
    if r.Ok? {
      UpdatedIndex(store, now, sender, change);
      Prospective(store, r.value, now, user);
    }
  }

  lemma UpdatedIndex(store: Store, now: nat, sender: Addr, change: Change)
    requires ValidAt(store, now) && AfterUpdate(store, now, sender, change).Ok?
    ensures var u := AfterUpdate(store, now, sender, change).value;
            && u.stakers == store.stakers
            && Accrued(u.config, u.state, now).globalRewardIndex
               == Accrued(store.config, store.state, now).globalRewardIndex
  {
    hide Mul, CyclePay, RewardAfter;
    var u := AfterUpdate(store, now, sender, change).value;
    if u.state.totalBondAmount > 0 && u.config.init <= now && u.state.lastDistributed != u.config.till {
      EmptyInterval(u.config, u.state.currentCycle, u.state.currentCycleRewards, u.state.lastDistributed, now);
      NothingToShare(u.state.totalBondAmount);
    }
  }

  lemma Prospective(s: Store, t: Store, now: nat, user: Addr)
    requires ValidAt(s, now) && ValidAt(t, now) && s.stakers == t.stakers
    requires Accrued(s.config, s.state, now).globalRewardIndex == Accrued(t.config, t.state, now).globalRewardIndex
    ensures Owed(s, now, user) == Owed(t, now, user)
  {
    hide Valid, Settle, Accrued, Ready;
  }

  // ---------------------------------------------------------------- flows over runs

  /** LP tokens handed in and handed back, and MARS sent. */
  datatype Flow = Flow(bonded: nat, returned: nat, mars: nat)

  ghost function FlowOf(w: World, now: nat, op: Operation, user: Addr): Flow
    requires ValidAt(w.store, now)
  {
    match op
    case Bond(u, amount) => Flow(if u == user then amount else 0, 0, 0)
    case Unbond(u, amount, withdraw) =>
      (match AfterUnbond(w.store, now, u, amount, withdraw)
       case Ok((_, payout)) => if u == user then Flow(0, payout.lp, payout.mars) else Flow(0, 0, 0)
       case Err(_) => Flow(0, 0, 0))
    case Claim(u) =>
      (match AfterClaim(w.store, now, u)
       case Ok((_, payout)) => if u == user then Flow(0, payout.lp, payout.mars) else Flow(0, 0, 0)
       case Err(_) => Flow(0, 0, 0))
    case Update(_, _) => Flow(0, 0, 0)
  }

  ghost function Flows(w: World, calls: seq<(nat, Operation)>, user: Addr): Flow
    requires ValidAt(w.store, w.clock) && Timed(w.clock, calls)
    decreases |calls|
  {
    if calls == [] then Flow(0, 0, 0)
    else
      var head := FlowOf(w, calls[0].0, calls[0].1, user);
      var rest := Flows(Step(w, calls[0].0, calls[0].1), calls[1..], user);
      Flow(head.bonded + rest.bonded, head.returned + rest.returned, head.mars + rest.mars)
  }

  lemma StepFlows(w: World, now: nat, op: Operation, user: Addr)
    requires ValidAt(w.store, now)
    ensures var r, f := Step(w, now, op), FlowOf(w, now, op, user);
            && Lookup(r.store.stakers, user).bond + f.returned == Lookup(w.store.stakers, user).bond + f.bonded
            && RecordOf(r.audit, user).claimed == RecordOf(w.audit, user).claimed + f.mars
  {
    hide Valid, Ready, Settle, Growth, Accrued;
  }

  /**
   Over any run a staker's bond is what it handed in less what it was handed back, and what the audit
   records as claimed is the MARS it was sent.
   */
  lemma {:induction false} BondIsDeposited(w: World, calls: seq<(nat, Operation)>, user: Addr)
    requires ValidAt(w.store, w.clock) && Timed(w.clock, calls)
    ensures var r, f := Run(w, calls), Flows(w, calls, user);
            && Lookup(r.store.stakers, user).bond + f.returned == Lookup(w.store.stakers, user).bond + f.bonded
            && RecordOf(r.audit, user).claimed == RecordOf(w.audit, user).claimed + f.mars
    decreases |calls|
  {
    hide FlowOf, Step;
    if calls != [] {
      StepFlows(w, calls[0].0, calls[0].1, user);
      BondIsDeposited(Step(w, calls[0].0, calls[0].1), calls[1..], user);
    }
  }
}
