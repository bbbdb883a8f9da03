/**
 What the auction allots, in plain arithmetic and from both sides: LP shares and incentives by deposits,
 incentives by the time that has passed, and staking rewards by the LP tokens outstanding.
 */
module AuctionShares {
  import opened Decimals
  import opened Sums
  import opened Portions
  import opened Wrappers
  import opened Auction
  import opened AuctionBook
  import opened AuctionSolvency
  import opened AuctionResults

  // ---------------------------------------------------------------- shares of the pool

  /** The deposits of `user` over both totals: `(mars / totalMars + ust / totalUst) / 2`, as one fraction. */
  function Stake(state: State, user: User): nat {
    user.mars * state.totalUst + user.ust * state.totalMars
  }

  function Stakes(state: State): nat {
    2 * (state.totalMars * state.totalUst)
  }

  lemma Side(amount: nat, total: nat)
    requires total > 0
    ensures var a := if amount > 0 && total > 0 then FromRatio(amount, total) else 0;
            a * total <= amount * ONE <= a * total + total
  {
  }

  /** One side of the deposits, brought to the common denominator. */
  lemma OverBoth(a: nat, amount: nat, total: nat, other: nat, both: nat)
    requires a * total <= amount * ONE <= a * total + total && both == total * other
    ensures a * both <= amount * other * ONE <= a * both + both
  {
    ProductMonotone(a * total, amount * ONE, other, other);
    ProductMonotone(amount * ONE, a * total + total, other, other);
    assert a * total * other == a * both && amount * ONE * other == amount * other * ONE;
    assert (a * total + total) * other == a * total * other + total * other;
  }

  lemma BothSides(p: nat, a: nat, b: nat, mars: nat, totalMars: nat, ust: nat, totalUst: nat)
    requires a * totalMars <= mars * ONE <= a * totalMars + totalMars
    requires b * totalUst <= ust * ONE <= b * totalUst + totalUst
    requires 2 * p <= a + b <= 2 * p + 1
    ensures var n, d := mars * totalUst + ust * totalMars, 2 * (totalMars * totalUst);
            p * d <= n * ONE <= p * d + 2 * d
  {
    var both := totalMars * totalUst;
    OverBoth(a, mars, totalMars, totalUst, both);
    OverBoth(b, ust, totalUst, totalMars, both);
    Halved(p, a, b, both, mars * totalUst, ust * totalMars);
  }

  lemma Halved(p: nat, a: nat, b: nat, both: nat, x: nat, y: nat)
    requires a * both <= x * ONE <= a * both + both && b * both <= y * ONE <= b * both + both
    requires 2 * p <= a + b <= 2 * p + 1
    ensures p * (2 * both) <= (x + y) * ONE <= p * (2 * both) + 2 * (2 * both)
  {
    ProductMonotone(2 * p, a + b, both, both);
    ProductMonotone(a + b, 2 * p + 1, both, both);
    assert (a + b) * both == a * both + b * both;
    assert (2 * p + 1) * both == 2 * p * both + both && p * (2 * both) == 2 * p * both;
  }

  lemma PercentOfStakes(state: State, user: User, whole: nat)
    requires state.totalMars > 0 && state.totalUst > 0
    ensures Portion(Mul(whole, Percent(state, user)), whole, Stake(state, user), Stakes(state), 2)
  {
    var a := if user.mars > 0 && state.totalMars > 0 then FromRatio(user.mars, state.totalMars) else 0;
    var b := if user.ust > 0 && state.totalUst > 0 then FromRatio(user.ust, state.totalUst) else 0;
    Side(user.mars, state.totalMars);
    Side(user.ust, state.totalUst);
    var p := Percent(state, user);
    assert p == Half(a + b);
    BothSides(p, a, b, user.mars, state.totalMars, user.ust, state.totalUst);
    hide FromRatio, Percent, Portion;
    DecimalOf(Mul(whole, p), whole, p, Stake(state, user), Stakes(state), 2);
  }

  /** Shares and incentives are the user's part of both sides of the deposits, halved, to within the rounding. */
  lemma SharesProRata(state: State, user: User, marsRewards: nat)
    requires state.totalMars > 0 && state.totalUst > 0
    ensures Portion(LpShare(state, user), state.lpMinted, Stake(state, user), Stakes(state), 2)
    ensures Portion(Incentive(state, user, marsRewards), marsRewards, Stake(state, user), Stakes(state), 2)
  {
    hide Percent, Portion, Stake, Stakes, Mul;
    PercentOfStakes(state, user, state.lpMinted);
    PercentOfStakes(state, user, marsRewards);
  }

  ghost function StakesOf(state: State, users: Users): map<Addr, nat> {
    map u | u in users :: Stake(state, users[u])
  }

  lemma StakesAddUp(state: State, users: Users)
    requires Deposited(state, users)
    ensures Sum(StakesOf(state, users)) == Stakes(state)
  {
    StakesSplit(state, users);
    SumScaled(MarsOf(users), state.totalUst);
    SumScaled(UstOf(users), state.totalMars);
    hide Sum, Scaled, StakesOf, MarsOf, UstOf;
  }

  lemma StakesSplit(state: State, users: Users)
    ensures Sum(StakesOf(state, users))
         == Sum(Scaled(MarsOf(users), state.totalUst)) + Sum(Scaled(UstOf(users), state.totalMars))
  {
    hide Sum, Scaled, StakesOf, MarsOf, UstOf, Stake;
    var mars, ust := Scaled(MarsOf(users), state.totalUst), Scaled(UstOf(users), state.totalMars);
    SameUsers(state, users);
    forall u | u in StakesOf(state, users) ensures StakesOf(state, users)[u] == mars[u] + ust[u] {
      StakeSplits(state, users, u);
    }
    SumAdd(mars, ust, StakesOf(state, users));
  }

  lemma StakeSplits(state: State, users: Users, u: Addr)
    requires u in users
    ensures StakesOf(state, users)[u]
         == Scaled(MarsOf(users), state.totalUst)[u] + Scaled(UstOf(users), state.totalMars)[u]
  {
  }

  lemma SameUsers(state: State, users: Users)
    ensures Scaled(MarsOf(users), state.totalUst).Keys == users.Keys
    ensures Scaled(UstOf(users), state.totalMars).Keys == users.Keys
    ensures StakesOf(state, users).Keys == users.Keys
  {
  }

  /** The shares and the incentives of all depositors reach what was minted and set aside, up to their roundings. */
  lemma SharesReachMinted(state: State, users: Users, marsRewards: nat)
    requires Deposited(state, users) && state.totalMars > 0 && state.totalUst > 0
    ensures state.lpMinted * ONE <= Sum(LpShares(state, users)) * ONE + |users| * (ONE + 2 * state.lpMinted)
    ensures marsRewards * ONE <= Sum(Incentives(state, users, marsRewards)) * ONE + |users| * (ONE + 2 * marsRewards)
  {
    hide Portion, LpShare, Incentive, Stake, Sum, Deposited;
    var shares, incentives := LpShares(state, users), Incentives(state, users, marsRewards);
    forall u | u in users
      ensures Portion(shares[u], state.lpMinted, StakesOf(state, users)[u], Stakes(state), 2)
      ensures Portion(incentives[u], marsRewards, StakesOf(state, users)[u], Stakes(state), 2)
    {
      SharesProRata(state, users[u], marsRewards);
    }
    StakesAddUp(state, users);
    PositiveStakes(state);
    assert |shares| == |users| == |incentives| by {
      assert shares.Keys == users.Keys == incentives.Keys;
      SameSize(shares, users);
      SameSize(incentives, users);
    }
    PartsReach(shares, StakesOf(state, users), state.lpMinted, Stakes(state), 2);
    PartsReach(incentives, StakesOf(state, users), marsRewards, Stakes(state), 2);
  }

  lemma PositiveStakes(state: State)
    requires state.totalMars > 0 && state.totalUst > 0
    ensures Stakes(state) > 0
  {
    ProductMonotone(1, state.totalMars, 1, state.totalUst);
  }

  lemma SameSize<V, W>(a: map<Addr, V>, b: map<Addr, W>)
    requires a.Keys == b.Keys
    ensures |a| == |b|
  {
    assert |a.Keys| == |a| && |b.Keys| == |b|;
  }

  /**
   A claim calculates what has not been calculated: once the pool exists the LP shares on record are the
   user's part of what was minted, and the incentives, if there were none on record, of what is set aside.
   */
  lemma ClaimAllocates(w: World, now: nat, user: Addr, withdraw: bool, rewards: Rewards, pool: Liquidity)
    requires Sound(w) && w.clock <= now && w.state.totalMars > 0 && w.state.totalUst > 0
    requires w.config.vestingDuration > 0 && Claim(w, now, user, withdraw, rewards, pool).Ok?
    ensures var before := Lookup(w.users, user);
            var after := Lookup(Claim(w, now, user, withdraw, rewards, pool).value.0.users, user);
            && after.mars == before.mars && after.ust == before.ust
            && Portion(after.lpShares, w.state.lpMinted, Stake(w.state, before), Stakes(w.state), 2)
            && (if before.incentives > 0 then after.incentives == before.incentives
                else Portion(after.incentives, w.config.marsRewards, Stake(w.state, before), Stakes(w.state), 2))
  {
    var before := Lookup(w.users, user);
    SharesProRata(w.state, before, w.config.marsRewards);
    hide Portion, Stake, Stakes, LpShare, Incentive, Claim, Sound;
    ClaimOutcome(w, now, user, withdraw, rewards, pool);
    StoredShare(w, user);
  }

  lemma StoredShare(w: World, user: Addr)
    requires Sound(w)
    ensures var info := Lookup(w.users, user); info.lpShares == 0 || info.lpShares == LpShare(w.state, info)
  {
    hide LpShare, Incentive, VestedSoFar, PaidToIndex, Phase;
    if user in w.users {
      assert UserOk(w.config, w.state, w.users[user], w.clock);
    }
  }

  // ---------------------------------------------------------------- vesting

  /**
   After a claim the withdrawn incentives are the user's incentives times the time since the pool was
   created over the vesting duration, to within the rounding, and all of them at its end.
   */
  lemma ClaimVestsLinearly(w: World, now: nat, user: Addr, withdraw: bool, rewards: Rewards, pool: Liquidity)
    requires Sound(w) && w.clock <= now && w.state.poolInit > 0
    requires w.config.vestingDuration > 0 && Claim(w, now, user, withdraw, rewards, pool).Ok?
    ensures var after := Lookup(Claim(w, now, user, withdraw, rewards, pool).value.0.users, user);
            && w.state.poolInit <= now
            && var elapsed := now - w.state.poolInit;
            if elapsed >= w.config.vestingDuration then after.withdrawnIncentives == after.incentives
            else Portion(after.withdrawnIncentives, after.incentives, elapsed, w.config.vestingDuration, 1)
  {
    hide Claim, Sound, Portion;
    ClaimVests(w, now, user, withdraw, rewards, pool);
    if now - w.state.poolInit < w.config.vestingDuration {
      RatioOf(Lookup(Claim(w, now, user, withdraw, rewards, pool).value.0.users, user).incentives,
              now - w.state.poolInit, w.config.vestingDuration);
    }
  }

  // ---------------------------------------------------------------- staking rewards

  /** What the venue holding the LP tokens pays when it is claimed from or left. */
  function Incoming(w: World, op: Operation): Rewards {
    if (op.OpClaim? || op.OpStakeLp?) && w.state.single then Rewards(op.rewards.mars, 0)
    else if (op.OpClaim? || op.OpStakeLp?) && w.state.dual then op.rewards
    else Rewards(0, 0)
  }

  /** An index grows by `reward` per outstanding share, rounded down. */
  predicate IndexGrows(before: nat, after: nat, reward: nat, outstanding: int) {
    && before <= after
    && if outstanding <= 0 then after == before
       else (after - before) * outstanding <= reward * ONE < (after - before) * outstanding + outstanding
  }

  /** Every reward that comes in is counted and shared out over the LP tokens outstanding, and nothing else is. */
  lemma RewardsShared(w: World, now: nat, op: Operation)
    requires Sound(w) && w.clock <= now && w.config.vestingDuration > 0 && Attempt(w, now, op).Ok?
    ensures SharedOut(w, Attempt(w, now, op).value, Incoming(w, op))
  {
    hide Sound, SharedOut, DepositMars, IncreaseIncentives, DepositUst, WithdrawUst, InitPool, StakeLp, Claim;
    hide UpdateConfig, Donate;
    match op
    case OpClaim(user, withdraw, rewards, pool) =>
      ClaimOutcome(w, now, user, withdraw, rewards, pool);
      ClaimReceives(w, now, user, withdraw, rewards, pool);
      HarvestShares(w, Claim(w, now, user, withdraw, rewards, pool).value.0, Collected(w.state, rewards));
    case OpStakeLp(sender, single, dual, rewards) => StakeShares(w, now, sender, single, dual, rewards);
    case _ => NothingShared(w, now, op);
  }

  /** What the indexes and the record of rewards received do when `incoming` comes in. */
  predicate SharedOut(w: World, r: World, incoming: Rewards) {
    && r.received == Rewards(w.received.mars + incoming.mars, w.received.astro + incoming.astro)
    && IndexGrows(w.state.marsIndex, r.state.marsIndex, incoming.mars, w.state.lpMinted - w.state.lpWithdrawn)
    && IndexGrows(w.state.astroIndex, r.state.astroIndex, incoming.astro, w.state.lpMinted - w.state.lpWithdrawn)
  }

  lemma ClaimReceives(w: World, now: nat, user: Addr, withdraw: bool, rewards: Rewards, pool: Liquidity)
    requires w.config.vestingDuration > 0 && Claim(w, now, user, withdraw, rewards, pool).Ok?
    ensures var r, c := Claim(w, now, user, withdraw, rewards, pool).value.0, Collected(w.state, rewards);
            r.received == Rewards(w.received.mars + c.mars, w.received.astro + c.astro)
  {
    hide Materialised, Payable, PayoutOf, Settled, PayRewards, Unstake, Harvest, ClaimShares;
  }

  lemma HarvestShares(w: World, r: World, c: Rewards)
    requires r.received == Rewards(w.received.mars + c.mars, w.received.astro + c.astro)
    requires r.state.marsIndex == Harvest(w.state, c).marsIndex && r.state.astroIndex == Harvest(w.state, c).astroIndex
    ensures SharedOut(w, r, c)
  {
    HarvestGrows(w.state, c);
  }

  lemma StakeShares(w: World, now: nat, sender: Addr, single: bool, dual: bool, rewards: Rewards)
    requires StakeLp(w, now, sender, single, dual, rewards).Ok?
    ensures SharedOut(w, StakeLp(w, now, sender, single, dual, rewards).value,
                      Incoming(w, OpStakeLp(sender, single, dual, rewards)))
  {
    hide Unstake, Harvest, IndexGrows;
    HarvestGrows(w.state, Collected(w.state, rewards));
  }

  lemma NothingShared(w: World, now: nat, op: Operation)
    requires w.config.vestingDuration > 0 && Attempt(w, now, op).Ok? && !op.OpClaim? && !op.OpStakeLp?
    ensures SharedOut(w, Attempt(w, now, op).value, Rewards(0, 0))
  {
    hide IndexGrows, AllowedWithdrawalPercent, Mul;
    HarvestGrows(w.state, Rewards(0, 0));
  }

  lemma HarvestGrows(state: State, rewards: Rewards)
    ensures var h, n := Harvest(state, rewards), state.lpMinted - state.lpWithdrawn;
            && IndexGrows(state.marsIndex, h.marsIndex, rewards.mars, n)
            && IndexGrows(state.astroIndex, h.astroIndex, rewards.astro, n)
    ensures IndexGrows(state.marsIndex, state.marsIndex, 0, state.lpMinted - state.lpWithdrawn)
    ensures IndexGrows(state.astroIndex, state.astroIndex, 0, state.lpMinted - state.lpWithdrawn)
  {
  }

  /** A claim takes out all of the user's LP shares, or none, and with them what the pool returns. */
  lemma ClaimWithdraws(w: World, now: nat, user: Addr, withdraw: bool, rewards: Rewards, pool: Liquidity)
    requires Sound(w) && w.clock <= now
    requires w.config.vestingDuration > 0 && Claim(w, now, user, withdraw, rewards, pool).Ok?
    ensures var (r, payout) := Claim(w, now, user, withdraw, rewards, pool).value;
            var before, after := Lookup(w.users, user), Lookup(r.users, user);
            && after.withdrawnLp == (if withdraw then after.lpShares else before.withdrawnLp)
            && r.state.lpWithdrawn - w.state.lpWithdrawn == after.withdrawnLp - before.withdrawnLp >= 0
            && payout.pool == (if after.withdrawnLp > before.withdrawnLp then pool else Liquidity(0, 0))
  {
    hide Sound, LpShare, Incentive, Payable, VestedAt, Accrued, PayRewards, FromRatio, Unstake;
  }
}
