/**
 When the auction accepts a transaction, for every state a run can reach and in conditions that a caller can
 check: windows, amounts and addresses, without the functions by which module `Auction` decides it.
 */
module AuctionLimits {
  import opened Decimals
  import opened Percentages
  import opened Wrappers
  import opened Auction
  import opened AuctionBook
  import opened AuctionSolvency

  /**
   How much of a deposit can be withdrawn at `now`: all of it until deposits close, half of it in the first
   half of the withdrawal window, then a part that falls linearly to nothing. The ratio of the seconds left
   to twice half the window is rounded down to a decimal, and so is the product.
   */
  predicate WithinLimit(config: Config, now: nat, deposit: nat, amount: nat) {
    var cutoff, half := config.init + config.ustDepositWindow, config.withdrawalWindow / 2;
    if now <= cutoff then amount <= deposit
    else if now <= cutoff + half then 2 * amount <= deposit
    else if now < cutoff + 2 * half then
      amount * ONE <= deposit * ((cutoff + 2 * half - now) * ONE / (2 * half))
    else amount == 0
  }

  lemma LimitMeaning(config: Config, now: nat, deposit: nat, amount: nat)
    ensures amount <= Mul(deposit, AllowedWithdrawalPercent(config, now)) <==> WithinLimit(config, now, deposit, amount)
  {
    var p := AllowedWithdrawalPercent(config, now);
    AtMostProduct(deposit, p, amount);
    var cutoff, half := config.init + config.ustDepositWindow, config.withdrawalWindow / 2;
    if cutoff + half < now < cutoff + 2 * half {
      HalvedRatio(cutoff + 2 * half - now, half);
    } else {
      FullHalfAndNone();
    }
  }

  // ---------------------------------------------------------------- what is accepted

  /** What a caller can check before a transaction. */
  predicate Acceptable(w: World, now: nat, op: Operation) {
    var c, s := w.config, w.state;
    match op
    case OpDepositMars(sender, _, amount) =>
      amount > 0 && sender in {c.airdrop, c.lockdrop} && c.init <= now <= c.init + c.marsDepositWindow
    case OpIncreaseIncentives(amount) => amount > 0 && s.lpMinted == 0
    case OpDepositUst(_, amount) => amount > 0 && c.init <= now <= c.init + c.ustDepositWindow
    case OpWithdrawUst(user, amount) =>
      !Lookup(w.users, user).ustWithdrawn && WithinLimit(c, now, Lookup(w.users, user).ust, amount)
    case OpInitPool(sender, minted) =>
      && sender == c.owner && c.poolSet && s.lpMinted == 0 && !WindowOpen(c, now)
      && s.totalMars > 0 && s.totalUst > 0 && minted > 0
    case OpStakeLp(sender, single, dual, _) =>
      && sender == c.owner && c.poolSet && s.lpMinted > s.lpWithdrawn
      && ((single && !dual && c.stakingSet && !s.single) || (dual && !single && !s.dual))
    case OpClaim(user, withdraw, _, _) =>
      var info := Materialised(c, s, Lookup(w.users, user));
      && !WindowOpen(c, now) && info.mars + info.ust > 0
      && (s.single && withdraw ==> info.withdrawnLp < info.lpShares)
    case OpUpdateConfig(sender, _, _, _) => sender == c.owner
    case OpDonate(_) => true
  }

  predicate WindowOpen(c: Config, now: nat) {
    c.init <= now <= c.init + c.ustDepositWindow + c.withdrawalWindow
  }

  /** In every state a run can reach a transaction is accepted if and only if its caller's checks pass. */
  lemma AcceptedExactly(w: World, now: nat, op: Operation)
    requires Sound(w) && w.clock <= now
    ensures w.config.vestingDuration > 0
    ensures Attempt(w, now, op).Ok? <==> Acceptable(w, now, op)
  {
    hide Sound, Claim, Materialised, AllowedWithdrawalPercent, WithinLimit;
    Configured(w);
    match op
    case OpWithdrawUst(user, amount) =>
      WithdrawUstSound(w, now, user, amount);
      LimitMeaning(w.config, now, Lookup(w.users, user).ust, amount);
    case OpInitPool(sender, minted) => InitPoolSound(w, now, sender, minted);
    case OpStakeLp(sender, single, dual, rewards) => StakeLpAccepted(w, now, sender, single, dual, rewards);
    case OpClaim(user, withdraw, rewards, pool) =>
      ClaimNeverStuck(w, now, user, withdraw, rewards, pool);
      ClaimableShares(w, user);
      SameDeposits(w.config, w.state, Lookup(w.users, user));
    case _ =>
  }

  lemma ClaimableShares(w: World, user: Addr)
    requires Sound(w)
    ensures var info := Materialised(w.config, w.state, Lookup(w.users, user)); info.withdrawnLp <= info.lpShares
  {
    hide Book;
    SharesInOrder(w, user);
  }

  lemma SameDeposits(config: Config, state: State, user: User)
    ensures Materialised(config, state, user).mars == user.mars && Materialised(config, state, user).ust == user.ust
  {
    hide LpShare, Incentive;
  }

  lemma StakeLpAccepted(w: World, now: nat, sender: Addr, single: bool, dual: bool, rewards: Rewards)
    requires Sound(w) && w.clock <= now
    ensures StakeLp(w, now, sender, single, dual, rewards).Ok?
       <==> Acceptable(w, now, OpStakeLp(sender, single, dual, rewards))
  {
    hide Book, Funds, Harvest, Collected;
    StakeLpSound(w, now, sender, single, dual, rewards);
  }

  // ---------------------------------------------------------------- what changes

  /** Every user's deposits move by the user's own transactions alone, and by the amount named. */
  lemma DepositsMove(w: World, now: nat, op: Operation, u: Addr)
    requires w.config.vestingDuration > 0 && Attempt(w, now, op).Ok?
    ensures var before, after := Lookup(w.users, u), Lookup(Attempt(w, now, op).value.users, u);
            && after.mars == before.mars + (if op.OpDepositMars? && op.user == u then op.amount else 0)
            && after.ust == before.ust + (if op.OpDepositUst? && op.user == u then op.amount else 0)
                            - (if op.OpWithdrawUst? && op.user == u then op.amount else 0)
            && after.ustWithdrawn == (before.ustWithdrawn || (op.OpWithdrawUst? && op.user == u
                                                              && now > w.config.init + w.config.ustDepositWindow))
            && (!(op.OpClaim? && op.user == u) ==>
                  after == before.(mars := after.mars, ust := after.ust, ustWithdrawn := after.ustWithdrawn))
  {
    hide LpShare, Incentive, Payable, PayoutOf, AllowedWithdrawalPercent, FromRatio, Unstake, PayRewards, Mul;
  }

  /** Settings, staking flags and the pool change only by the transactions meant for them, to the values named. */
  lemma SettingsMove(w: World, now: nat, op: Operation)
    requires w.config.vestingDuration > 0 && Attempt(w, now, op).Ok?
    ensures var r := Attempt(w, now, op).value;
            var update, raise := op.OpUpdateConfig?, if op.OpIncreaseIncentives? then op.amount else 0;
            && r.config == w.config.(owner := if update then op.owner.GetOr(w.config.owner) else w.config.owner,
                                     poolSet := w.config.poolSet || (update && op.setPool),
                                     stakingSet := w.config.stakingSet || (update && op.setStaking),
                                     marsRewards := w.config.marsRewards + raise)
            && r.state.single == (if op.OpStakeLp? then op.single else w.state.single)
            && r.state.dual == (if op.OpStakeLp? then op.dual else w.state.dual)
            && r.state.lpMinted == (if op.OpInitPool? then op.minted else w.state.lpMinted)
            && r.state.poolInit == (if op.OpInitPool? then now else w.state.poolInit)
  {
    hide LpShare, Incentive, Payable, PayoutOf, AllowedWithdrawalPercent, FromRatio, Unstake, PayRewards, Mul;
  }
}
