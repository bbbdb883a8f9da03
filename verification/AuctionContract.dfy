/**
 The auction contract as it runs: handlers and callbacks that load, change and save the storage
 items, and transactions that carry out their messages in order. A handler that hands control to
 another contract learns what happened from the difference of its own balances in a callback.
 Every transaction is proved to have the net effect specified in module `Auction`.
 */
module AuctionContract {
  import opened Decimals
  import opened Wrappers
  import opened Auction
  import opened AuctionBook
  import opened AuctionSolvency

  /** A call to a staking venue, with the LP tokens to be taken out. */
  datatype VenueCall = NoCall | UnbondFromStaking(amount: nat) | ClaimFromStaking | WithdrawFromGenerator(amount: nat)

  /** `UpdateStateOnRewardClaim`: the balances before the venue was called. */
  datatype RewardCallback = RewardCallback(user: Option<Addr>, prevMars: nat, prevAstro: nat, withdrawLp: nat)

  /** `TransferLiquidityWithdrawn`: the balances before the pool was called. */
  datatype LiquidityCallback = LiquidityCallback(user: Addr, prevMars: nat, prevUst: nat)

  /** The messages of a claim, in order. */
  datatype ClaimMessages = ClaimMessages(venue: VenueCall, callback: RewardCallback)

  /** The messages of the reward callback, in order: transfers to the user, LP tokens to the pool, a callback. */
  datatype RewardMessages = RewardMessages(mars: nat, astro: nat, withdrawLp: nat, callback: Option<LiquidityCallback>)

  /** The messages of a (re)staking, in order. */
  datatype StakeMessages = StakeMessages(unstake: VenueCall, stakeSingle: nat, stakeDual: nat,
                                         callback: Option<RewardCallback>)

  /** The user can be paid from the balances, and gives up no more shares than it holds. */
  predicate CanPay(config: Config, state: State, users: Users, ledger: Ledger, user: Addr, withdrawLp: nat, now: nat)
    requires config.vestingDuration > 0
  {
    && user in users && Payable(config, state, users[user], now)
    && withdrawLp <= users[user].lpShares - users[user].withdrawnLp
    && var payout := PayoutOf(config, state, users[user], now, Liquidity(0, 0));
       payout.incentives + payout.mars <= ledger.mars
  }

  class Contract {
    var config: Config
    var state: State
    var users: Users
    var ledger: Ledger
    ghost var received: Rewards
    ghost var lpDonated: nat
    ghost var clock: nat

    ghost function Value(): World
      reads this
    {
      World(config, state, users, ledger, received, lpDonated, clock)
    }

    constructor (config: Config, ghost now: nat)
      ensures Value() == Instantiated(config, now)
    {
      this.config := config;
      state := State(0, 0, 0, 0, false, false, 0, 0, 0);
      users := map[];
      ledger := Ledger(0, 0, 0, 0, 0, 0);
      received, lpDonated, clock := Rewards(0, 0), 0, now;
    }

    // ------------------------------------------------------------ deposits

    method HandleDepositMars(now: nat, sender: Addr, user: Addr, amount: nat) returns (r: Result<(), Error>)
      requires config.vestingDuration > 0
      modifies this
      ensures Value() == Step(old(Value()), now, OpDepositMars(sender, user, amount))
      ensures r.Ok? <==> DepositMars(old(Value()), now, sender, user, amount).Ok?
    {
      clock := now;
      if amount == 0 { return Err(ZeroAmount); }
      if config.airdrop != sender && config.lockdrop != sender { return Err(Unauthorized); }
      var till := config.init + config.marsDepositWindow;
      if !(config.init <= now && now <= till) { return Err(WindowClosed); }
      var info := Lookup(users, user);
      state := state.(totalMars := state.totalMars + amount);
      info := info.(mars := info.mars + amount);
      users := users[user := info];
      ledger := ledger.(mars := ledger.mars + amount);
      r := Ok(());
    }

    method HandleIncreaseMarsIncentives(now: nat, amount: nat) returns (r: Result<(), Error>)
      requires config.vestingDuration > 0
      modifies this
      ensures Value() == Step(old(Value()), now, OpIncreaseIncentives(amount))
      ensures r.Ok? <==> IncreaseIncentives(old(Value()), now, amount).Ok?
    {
      clock := now;
      if amount == 0 { return Err(ZeroAmount); }
      if state.lpMinted > 0 { return Err(AlreadyProvided); }
      config := config.(marsRewards := config.marsRewards + amount);
      ledger := ledger.(mars := ledger.mars + amount);
      r := Ok(());
    }

    method HandleDepositUst(now: nat, sender: Addr, amount: nat) returns (r: Result<(), Error>)
      requires config.vestingDuration > 0
      modifies this
      ensures Value() == Step(old(Value()), now, OpDepositUst(sender, amount))
      ensures r.Ok? <==> DepositUst(old(Value()), now, sender, amount).Ok?
    {
      clock := now;
      var till := config.init + config.ustDepositWindow;
      if !(config.init <= now && now <= till) { return Err(WindowClosed); }
      var info := Lookup(users, sender);
      if amount == 0 { return Err(ZeroAmount); }
      state := state.(totalUst := state.totalUst + amount);
      info := info.(ust := info.ust + amount);
      users := users[sender := info];
      ledger := ledger.(ust := ledger.ust + amount);
      r := Ok(());
    }

    method HandleWithdrawUst(now: nat, sender: Addr, amount: nat) returns (r: Result<(), Error>)
      requires Sound(Value()) && clock <= now
      modifies this
      ensures old(Value()).config.vestingDuration > 0
      ensures Value() == Step(old(Value()), now, OpWithdrawUst(sender, amount)) && Sound(Value())
      ensures r.Ok? <==> WithdrawUst(old(Value()), now, sender, amount).Ok?
    {
      hide Sound, AllowedWithdrawalPercent;
      NeverStuck(Value(), now, OpWithdrawUst(sender, amount));
      clock := now;
      var info := Lookup(users, sender);
      if info.ustWithdrawn { return Err(AlreadyWithdrawn); }
      var allowed := Mul(info.ust, AllowedWithdrawalPercent(config, now));
      if amount > allowed { return Err(ExceedsLimit); }
      if now > config.init + config.ustDepositWindow {
        info := info.(ustWithdrawn := true);
      }
      state := state.(totalUst := state.totalUst - amount);
      info := info.(ust := info.ust - amount);
      users := users[sender := info];
      ledger := ledger.(ust := ledger.ust - amount);
      r := Ok(());
    }

    // ------------------------------------------------------------ creating the pool

    method HandleInitPool(now: nat, sender: Addr) returns (r: Result<nat, Error>)
      ensures match r
              case Ok(prevLp) => prevLp == ledger.lp && sender == config.owner && state.lpMinted == 0
                                 && AreWindowsClosed(config, now) && config.poolSet
              case Err(e) => e != PoolRejected && InitPool(Value(), now, sender, 0) == Err(e)
    {
      if sender != config.owner { return Err(Unauthorized); }
      if state.lpMinted != 0 { return Err(AlreadyProvided); }
      if !AreWindowsClosed(config, now) { return Err(WindowsOpen); }
      if !config.poolSet { return Err(NotSet); }
      r := Ok(ledger.lp);
    }

    method UpdateStateOnLiquidityAddition(now: nat, prevLp: nat)
      requires prevLp <= ledger.lp
      modifies this`state
      ensures state == old(state).(lpMinted := ledger.lp - prevLp, poolInit := now)
    {
      state := state.(lpMinted := ledger.lp - prevLp);
      state := state.(poolInit := now);
    }

    /** The owner creates the pool; `minted` is what the pool mints for the deposits. */
    method AddLiquidityToPool(now: nat, sender: Addr, minted: nat) returns (r: Result<(), Error>)
      requires Sound(Value()) && clock <= now
      modifies this
      ensures old(Value()).config.vestingDuration > 0
      ensures Value() == Step(old(Value()), now, OpInitPool(sender, minted)) && Sound(Value())
      ensures r.Ok? <==> InitPool(old(Value()), now, sender, minted).Ok?
    {
      hide Sound;
      NeverStuck(Value(), now, OpInitPool(sender, minted));
      var started := HandleInitPool(now, sender);
      clock := now;
      match started {
        case Err(e) => return Err(e);
        case Ok(prevLp) =>
          // the pool rejects an empty side, or a provision for which it would mint nothing
          if minted == 0 || state.totalMars == 0 || state.totalUst == 0 { return Err(PoolRejected); }
          ledger := ledger.(mars := ledger.mars - state.totalMars, ust := ledger.ust - state.totalUst,
                            lp := ledger.lp + minted);
          UpdateStateOnLiquidityAddition(now, prevLp);
          r := Ok(());
      }
    }

    // ------------------------------------------------------------ staking venues

    /** Carries out a venue call: LP tokens come back, and rewards are paid unless there is no call. */
    method CallVenue(call: VenueCall, rewards: Rewards) returns (ok: bool)
      modifies this`ledger
      ensures ok <==> match call
                      case NoCall => true
                      case UnbondFromStaking(amount) => 0 < amount <= old(ledger).lpStaking
                      case ClaimFromStaking => true
                      case WithdrawFromGenerator(amount) => amount <= old(ledger).lpGenerator
      ensures !ok ==> ledger == old(ledger)
      ensures ok ==> ledger == match call
                               case NoCall => old(ledger)
                               case UnbondFromStaking(amount) =>
                                 old(ledger).(lpStaking := old(ledger).lpStaking - amount,
                                              lp := old(ledger).lp + amount,
                                              mars := old(ledger).mars + rewards.mars)
                               case ClaimFromStaking => old(ledger).(mars := old(ledger).mars + rewards.mars)
                               case WithdrawFromGenerator(amount) =>
                                 old(ledger).(lpGenerator := old(ledger).lpGenerator - amount,
                                              lp := old(ledger).lp + amount,
                                              mars := old(ledger).mars + rewards.mars,
                                              astro := old(ledger).astro + rewards.astro)
    {
      match call {
        case NoCall =>
        case UnbondFromStaking(amount) =>
          if amount == 0 || ledger.lpStaking < amount { return false; }
          ledger := ledger.(lpStaking := ledger.lpStaking - amount, lp := ledger.lp + amount,
                            mars := ledger.mars + rewards.mars);
        case ClaimFromStaking =>
          ledger := ledger.(mars := ledger.mars + rewards.mars);
        case WithdrawFromGenerator(amount) =>
          if ledger.lpGenerator < amount { return false; }
          ledger := ledger.(lpGenerator := ledger.lpGenerator - amount, lp := ledger.lp + amount,
                            mars := ledger.mars + rewards.mars, astro := ledger.astro + rewards.astro);
      }
      ok := true;
    }

    /** `update_mars_rewards_index` and `update_astro_rewards_index`, one after the other. */
    method UpdateRewardIndexes(s: State, marsClaimed: nat, astroClaimed: nat) returns (t: State)
      requires Outstanding(s) >= 0
      ensures t == Harvest(s, Rewards(marsClaimed, astroClaimed))
    {
      t := s;
      var staked := t.lpMinted - t.lpWithdrawn;
      if staked != 0 {
        t := t.(marsIndex := t.marsIndex + FromRatio(marsClaimed, staked));
        t := t.(astroIndex := t.astroIndex + FromRatio(astroClaimed, staked));
      }
    }

    method HandleStakeLpTokens(sender: Addr, single: bool, dual: bool) returns (r: Result<StakeMessages, Error>)
      requires Outstanding(state) >= 0 && !(state.single && state.dual)
      modifies this`state
      ensures match r
              case Err(e) =>
                state == old(state)
                && StakeLp(old(Value()), old(Value()).clock, sender, single, dual, Rewards(0, 0)) == Err(e)
              case Ok(messages) =>
                && sender == config.owner && single != dual && config.poolSet && (single ==> config.stakingSet)
                && !(single && old(state).single) && !(dual && old(state).dual)
                && state == old(state).(single := single, dual := dual)
                && var amount := Outstanding(old(state));
                   var unstake := if old(state).single then UnbondFromStaking(amount)
                                  else if old(state).dual then WithdrawFromGenerator(amount) else NoCall;
                   messages == StakeMessages(unstake,
                                             if single then amount else 0,
                                             if dual then amount else 0,
                                             if unstake == NoCall then None
                                             else Some(RewardCallback(None, ledger.mars, ledger.astro, 0)))
    {
      if sender != config.owner { return Err(Unauthorized); }
      if (single && dual) || (!single && !dual) { return Err(InvalidRequest); }
      if single && state.single { return Err(AlreadyStaked); }
      if dual && state.dual { return Err(AlreadyStaked); }
      var newState := state;
      var unstake := NoCall;
      var amount := state.lpMinted - state.lpWithdrawn;
      if single {
        if newState.dual { unstake := WithdrawFromGenerator(amount); }
        if !config.stakingSet { return Err(NotSet); }
        newState := newState.(single := true, dual := false);
      }
      if dual {
        if newState.single { unstake := UnbondFromStaking(amount); }
        newState := newState.(dual := true, single := false);
      }
      if !config.poolSet { return Err(NotSet); }
      var callback := None;
      if unstake != NoCall {
        callback := Some(RewardCallback(None, ledger.mars, ledger.astro, 0));
      }
      state := newState;
      r := Ok(StakeMessages(unstake, if single then amount else 0, if dual then amount else 0, callback));
    }

    /** The owner stakes all outstanding LP tokens, or moves them to the other venue. */
    method StakeLpTokens(now: nat, sender: Addr, single: bool, dual: bool,
                         rewards: Rewards) returns (r: Result<(), Error>)
      requires Sound(Value()) && clock <= now
      modifies this
      ensures old(Value()).config.vestingDuration > 0
      ensures Value() == Step(old(Value()), now, OpStakeLp(sender, single, dual, rewards)) && Sound(Value())
      ensures r.Ok? <==> StakeLp(old(Value()), now, sender, single, dual, rewards).Ok?
    {
      hide Sound, FromRatio;
      ghost var before := Value();
      NeverStuck(before, now, OpStakeLp(sender, single, dual, rewards));
      StakingFacts(before);
      StepTaken(before, now, OpStakeLp(sender, single, dual, rewards));
      hide Step;
      var savedState, savedLedger := state, ledger;
      clock := now;
      var handled := HandleStakeLpTokens(sender, single, dual);
      match handled {
        case Err(e) => return Err(e);
        case Ok(messages) =>
          var unstaked := CallVenue(messages.unstake, rewards);
          // cw20 rejects a transfer of zero, or of more than is held
          var amount := messages.stakeSingle + messages.stakeDual;
          if !unstaked || amount == 0 || ledger.lp < amount {
            state, ledger := savedState, savedLedger;
            return Err(ZeroTransfer);
          }
          ledger := ledger.(lp := ledger.lp - amount,
                            lpStaking := ledger.lpStaking + messages.stakeSingle,
                            lpGenerator := ledger.lpGenerator + messages.stakeDual);
          match messages.callback {
            case None =>
            case Some(callback) =>
              var _ := UpdateStateOnRewardClaim(now, callback);
          }
          r := Ok(());
      }
    }

    // ------------------------------------------------------------ claims

    method HandleClaimRewardsAndUnlock(now: nat, sender: Addr, unlockFor: Option<Addr>, withdraw: bool,
                                       pending: Rewards)
      returns (r: Result<ClaimMessages, Error>)
      requires Outstanding(state) >= 0 && !(state.single && state.dual)
      requires var info := Materialised(config, state, Lookup(users, unlockFor.GetOr(sender)));
               info.withdrawnLp <= info.lpShares
      modifies this`users
      ensures var user := unlockFor.GetOr(sender);
              var info := Materialised(config, state, Lookup(old(users), user));
              match r
              case Err(e) => users == old(users) && ClaimShares(old(Value()), now, user, withdraw) == Err(e)
              case Ok(messages) =>
                && users == old(users)[user := info]
                && AreWindowsClosed(config, now) && (info.mars > 0 || info.ust > 0)
                && messages.callback == RewardCallback(Some(user), ledger.mars, ledger.astro,
                                                       if withdraw then info.lpShares - info.withdrawnLp else 0)
                && messages.venue == (if state.single && withdraw then UnbondFromStaking(messages.callback.withdrawLp)
                                      else if state.single && pending.mars > 0 then ClaimFromStaking
                                      else if state.dual && (pending.mars > 0 || pending.astro > 0 || withdraw)
                                           then WithdrawFromGenerator(messages.callback.withdrawLp)
                                      else NoCall)
    {
      var user := unlockFor.GetOr(sender);
      var info := Lookup(users, user);
      if !AreWindowsClosed(config, now) { return Err(WindowsOpen); }
      if info.mars == 0 && info.ust == 0 { return Err(InvalidRequest); }
      if info.lpShares == 0 {
        info := info.(lpShares := LpShare(state, info));
      }
      assert Percent(state, info) == Percent(state, Lookup(users, user));
      if info.incentives == 0 {
        info := info.(incentives := Incentive(state, info, config.marsRewards));
      }
      var lp := 0;
      if withdraw {
        lp := info.lpShares - info.withdrawnLp;
      }
      var venue := NoCall;
      if state.single {
        if pending.mars > 0 || withdraw {
          venue := if withdraw then UnbondFromStaking(lp) else ClaimFromStaking;
        }
      }
      if state.dual {
        if pending.mars > 0 || pending.astro > 0 || withdraw {
          venue := WithdrawFromGenerator(lp);
        }
      }
      users := users[user := info];
      r := Ok(ClaimMessages(venue, RewardCallback(Some(user), ledger.mars, ledger.astro, lp)));
    }

    /** Counts the rewards that came in; with a user, as in a claim, the user is paid as well. */
    method UpdateStateOnRewardClaim(now: nat, callback: RewardCallback) returns (messages: RewardMessages)
      requires config.vestingDuration > 0 && Outstanding(state) >= 0
      requires callback.prevMars <= ledger.mars && callback.prevAstro <= ledger.astro
      requires callback.user.Some? ==>
                 var h := Harvest(state, Rewards(ledger.mars - callback.prevMars, ledger.astro - callback.prevAstro));
                 CanPay(config, h, users, ledger, callback.user.value, callback.withdrawLp, now)
      modifies this`state, this`users, this`received
      ensures var claimed := Rewards(ledger.mars - callback.prevMars, ledger.astro - callback.prevAstro);
              var h := Harvest(old(state), claimed);
              && received == Rewards(old(received).mars + claimed.mars, old(received).astro + claimed.astro)
              && (callback.user.None? ==>
                   state == h && users == old(users) && messages == RewardMessages(0, 0, 0, None))
              && (callback.user.Some? ==>
                    var user := callback.user.value;
                    var payout := PayoutOf(config, h, old(users)[user], now, Liquidity(0, 0));
                    && state == h.(lpWithdrawn := h.lpWithdrawn + callback.withdrawLp)
                    && users == old(users)[user := Settled(h, old(users)[user], payout, callback.withdrawLp)]
                    && messages == RewardMessages(
                         payout.incentives + payout.mars, payout.astro, callback.withdrawLp,
                         if callback.withdrawLp > 0
                         then Some(LiquidityCallback(user, ledger.mars - payout.incentives - payout.mars, ledger.ust))
                         else None))
    {
      hide FromRatio, Mul, Vested;
      var marsClaimed := ledger.mars - callback.prevMars;
      var astroClaimed := ledger.astro - callback.prevAstro;
      var newState := UpdateRewardIndexes(state, marsClaimed, astroClaimed);
      received := Rewards(received.mars + marsClaimed, received.astro + astroClaimed);
      hide Harvest;
      match callback.user {
        case None =>
          state := newState;
          messages := RewardMessages(0, 0, 0, None);
        case Some(user) =>
          messages := PayUser(now, user, newState, callback.withdrawLp);
      }
    }

    /** The user's part of `update_state_on_reward_claim`, from the state with updated indexes. */
    method PayUser(now: nat, user: Addr, counted: State, withdrawLp: nat) returns (messages: RewardMessages)
      requires config.vestingDuration > 0 && CanPay(config, counted, users, ledger, user, withdrawLp, now)
      modifies this`state, this`users
      ensures var payout := PayoutOf(config, counted, old(users)[user], now, Liquidity(0, 0));
              && state == counted.(lpWithdrawn := counted.lpWithdrawn + withdrawLp)
              && users == old(users)[user := Settled(counted, old(users)[user], payout, withdrawLp)]
              && messages == RewardMessages(
                   payout.incentives + payout.mars, payout.astro, withdrawLp,
                   if withdrawLp > 0
                   then Some(LiquidityCallback(user, ledger.mars - payout.incentives - payout.mars, ledger.ust))
                   else None)
    {
      hide FromRatio, Mul, Vested;
      var newState := counted;
      var info := users[user];

      var userMars := VestedAt(config, newState, info, now) - info.withdrawnIncentives;
      info := info.(withdrawnIncentives := info.withdrawnIncentives + userMars);

      var stakingMars := Accrued(info.lpShares - info.withdrawnLp, info.marsIndex, newState.marsIndex);
      info := info.(marsIndex := newState.marsIndex);
      info := info.(withdrawnMars := info.withdrawnMars + stakingMars);
      userMars := userMars + stakingMars;

      var stakingAstro := Accrued(info.lpShares - info.withdrawnLp, info.astroIndex, newState.astroIndex);
      info := info.(astroIndex := newState.astroIndex);
      info := info.(withdrawnAstro := info.withdrawnAstro + stakingAstro);

      var next := None;
      if withdrawLp > 0 {
        next := Some(LiquidityCallback(user, ledger.mars - userMars, ledger.ust));
        info := info.(withdrawnLp := info.withdrawnLp + withdrawLp);
        newState := newState.(lpWithdrawn := newState.lpWithdrawn + withdrawLp);
      }
      users := users[user := info];
      state := newState;
      messages := RewardMessages(userMars, stakingAstro, withdrawLp, next);
    }

    /** The callback after liquidity was withdrawn: whatever arrived is the user's. */
    method TransferLiquidityWithdrawn(callback: LiquidityCallback) returns (forwarded: Liquidity)
      requires callback.prevMars <= ledger.mars && callback.prevUst <= ledger.ust
      modifies this`ledger
      ensures forwarded == Liquidity(old(ledger).mars - callback.prevMars, old(ledger).ust - callback.prevUst)
      ensures ledger == old(ledger).(mars := callback.prevMars, ust := callback.prevUst)
    {
      forwarded := Liquidity(ledger.mars - callback.prevMars, ledger.ust - callback.prevUst);
      if forwarded.mars > 0 {
        ledger := ledger.(mars := ledger.mars - forwarded.mars);
      }
      if forwarded.ust > 0 {
        ledger := ledger.(ust := ledger.ust - forwarded.ust);
      }
    }

    /** The second half of a claim: from the reward callback to the last transfer. */
    method SettleClaim(now: nat, user: Addr, callback: RewardCallback, pool: Liquidity, ghost before: World,
                       ghost withdraw: bool, ghost rewards: Rewards)
      returns (payout: Payout)
      requires config.vestingDuration > 0 && Outstanding(state) >= 0
      requires before.config.vestingDuration > 0 && Claim(before, now, user, withdraw, rewards, pool).Ok?
      requires Value() == before.(clock := now, ledger := ledger,
                                  users := before.users[user := Materialised(before.config, before.state,
                                                                             Lookup(before.users, user))])
      requires ClaimShares(before, now, user, withdraw) == Ok(callback.withdrawLp)
      requires callback == RewardCallback(Some(user), before.ledger.mars, before.ledger.astro, callback.withdrawLp)
      requires var collected := Collected(before.state, rewards);
               var unstaked := Unstake(before.state, before.ledger, callback.withdrawLp);
               && unstaked.Some?
               && ledger == unstaked.value.(mars := unstaked.value.mars + collected.mars,
                                            astro := unstaked.value.astro + collected.astro)
      modifies this
      ensures Claim(before, now, user, withdraw, rewards, pool) == Ok((Value(), payout))
    {
      hide FromRatio, Mul, Percent, LpShare, Incentive, Payable, VestedAt, Accrued, Harvest, Materialised;
      ghost var collected := Collected(before.state, rewards);
      assert Rewards(ledger.mars - callback.prevMars, ledger.astro - callback.prevAstro) == collected;
      var was := users[user];
      var paid := UpdateStateOnRewardClaim(now, callback);
      ledger := ledger.(mars := ledger.mars - paid.mars, astro := ledger.astro - paid.astro);
      var forwarded := Liquidity(0, 0);
      match paid.callback {
        case None =>
        case Some(next) =>
          ledger := ledger.(lp := ledger.lp - paid.withdrawLp, mars := ledger.mars + pool.mars,
                            ust := ledger.ust + pool.ust);
          forwarded := TransferLiquidityWithdrawn(next);
      }
      var after := users[user];
      payout := Payout(after.withdrawnIncentives - was.withdrawnIncentives, after.withdrawnMars - was.withdrawnMars,
                       after.withdrawnAstro - was.withdrawnAstro, forwarded);
      assert users == before.users[user := after];
    }

    /**
     A claim as one transaction: the handler, the venue, the reward callback, the transfers, the pool
     and the liquidity callback. It is paid in full or rejected by its checks, and forwards exactly
     what the pool returned.
     */
    method ClaimRewards(now: nat, sender: Addr, unlockFor: Option<Addr>, withdraw: bool, rewards: Rewards,
                        pool: Liquidity)
      returns (r: Result<Payout, Error>)
      requires Sound(Value()) && clock <= now
      modifies this
      ensures old(Value()).config.vestingDuration > 0
      ensures Value() == Step(old(Value()), now, OpClaim(unlockFor.GetOr(sender), withdraw, rewards, pool))
      ensures Sound(Value())
      ensures match Claim(old(Value()), now, unlockFor.GetOr(sender), withdraw, rewards, pool)
              case Ok((_, payout)) => r == Ok(payout)
              case Err(e) => r == Err(e)
    {
      hide Book, Funds, FromRatio, Mul, Percent, LpShare;
      hide Incentive, Payable, VestedAt, Accrued, PayoutOf, PayRewards, Harvest;
      ghost var before := Value();
      var user := unlockFor.GetOr(sender);
      ClaimNeverStuck(before, now, user, withdraw, rewards, pool);
      NeverStuck(before, now, OpClaim(user, withdraw, rewards, pool));
      ClaimPhase(before);
      OutstandingNonNegative(before);
      SharesInOrder(before, user);
      var savedUsers := users;
      clock := now;
      var handled := HandleClaimRewardsAndUnlock(now, sender, unlockFor, withdraw, rewards);
      match handled {
        case Err(e) => return Err(e);
        case Ok(messages) =>
          var called := CallVenue(messages.venue, rewards);
          if !called {
            users := savedUsers;
            return Err(ZeroTransfer);
          }
          var payout := SettleClaim(now, user, messages.callback, pool, before, withdraw, rewards);
          r := Ok(payout);
      }
    }
  }

  lemma StakingFacts(w: World)
    requires Sound(w)
    ensures Outstanding(w.state) >= 0 && !(w.state.single && w.state.dual)
    ensures Harvest(w.state, Rewards(0, 0)) == w.state
  {
    hide Book, Funds;
    ClaimPhase(w);
    OutstandingNonNegative(w);
    HarvestNothing(w.state);
  }

  lemma StepTaken(w: World, now: nat, op: Operation)
    requires w.config.vestingDuration > 0
    ensures Step(w, now, op) == match Attempt(w, now, op) case Ok(r) => r case Err(_) => w.(clock := now)
  {
  }
}
