/**
 The bootstrap auction. Every transaction is specified by its net effect on a `World`: the
 contract's storage, the tokens it holds, its LP positions at the two staking venues, and the
 rewards it has ever received. The message chains that produce these effects are the methods of
 `AuctionContract`. Subtractions and transfers that the source checks at run time appear here as
 `Underflow` and `Unfunded` errors; `AuctionSolvency` proves that they never occur.
 */
module Auction {
  import opened Decimals
  import opened Wrappers

  datatype Config = Config(
    owner: Addr,
    airdrop: Addr,
    lockdrop: Addr,
    poolSet: bool,
    stakingSet: bool,
    marsRewards: nat,
    vestingDuration: nat,
    init: nat,
    ustDepositWindow: nat,
    marsDepositWindow: nat,
    withdrawalWindow: nat)

  datatype State = State(
    totalMars: nat,
    totalUst: nat,
    lpMinted: nat,
    lpWithdrawn: nat,
    single: bool,
    dual: bool,
    poolInit: nat,
    marsIndex: Decimal,
    astroIndex: Decimal)

  datatype User = User(
    mars: nat,
    ust: nat,
    ustWithdrawn: bool,
    lpShares: nat,
    withdrawnLp: nat,
    incentives: nat,
    withdrawnIncentives: nat,
    withdrawnMars: nat,
    withdrawnAstro: nat,
    marsIndex: Decimal,
    astroIndex: Decimal)

  const NEW_USER := User(0, 0, false, 0, 0, 0, 0, 0, 0, 0, 0)

  type Users = map<Addr, User>

  /** The tokens the contract holds, and its LP positions at the two venues. */
  datatype Ledger = Ledger(mars: nat, astro: nat, ust: nat, lp: nat, lpStaking: nat, lpGenerator: nat)

  /** Amounts a venue or the pool hands over during a transaction; nothing is assumed of them. */
  datatype Rewards = Rewards(mars: nat, astro: nat)
  datatype Liquidity = Liquidity(mars: nat, ust: nat)

  /**
   `received` is every staking reward ever counted by a callback, `lpDonated` every LP token given away
   to the contract.
   */
  datatype World = World(
    config: Config,
    state: State,
    users: Users,
    ledger: Ledger,
    received: Rewards,
    lpDonated: nat,
    clock: nat)

  datatype Error =
    | ZeroAmount | Unauthorized | WindowClosed | WindowsOpen | AlreadyWithdrawn | ExceedsLimit
    | AlreadyProvided | NotSet | InvalidRequest | AlreadyStaked | ZeroTransfer | PoolRejected
    | Underflow | Unfunded

  /** What the user ends up with: rewards, and the liquidity forwarded from the pool. */
  datatype Payout = Payout(incentives: nat, mars: nat, astro: nat, pool: Liquidity)

  function Lookup(users: Users, user: Addr): User {
    if user in users then users[user] else NEW_USER
  }

  // ---------------------------------------------------------------- windows and limits

  function OpenedTill(config: Config): nat {
    config.init + config.ustDepositWindow + config.withdrawalWindow
  }

  predicate AreWindowsClosed(config: Config, now: nat) {
    now > OpenedTill(config) || now < config.init
  }

  function AllowedWithdrawalPercent(config: Config, now: nat): (p: Decimal)
    ensures p <= ONE
  {
    var cutoff := config.init + config.ustDepositWindow;
    var second := cutoff + config.withdrawalWindow / 2;
    var final := second + config.withdrawalWindow / 2;
    if now <= cutoff then FromRatio(100, 100)
    else if now <= second then FromRatio(50, 100)
    else if now < final then
      LateRatioBelowHalf(final - now, final - second);
      FromRatio(50 * (final - now), 100 * (final - second))
    else FromRatio(0, 100)
  }

  lemma LateRatioBelowHalf(left: nat, span: nat)
    requires 0 < left <= span
    ensures 100 * span > 0
    ensures FromRatio(50 * left, 100 * span) <= ONE / 2
  {
    var r := FromRatio(50 * left, 100 * span);
    assert (ONE / 2 + 1) * (100 * span) == 50 * ONE * span + 100 * span;
    if r > ONE / 2 {
      ProductMonotone(ONE / 2 + 1, r, 100 * span, 100 * span);
    }
  }

  // ---------------------------------------------------------------- allocations

  /** A user's share of both sides of the pool, halved. */
  function Percent(state: State, user: User): Decimal {
    var marsShare := if user.mars > 0 && state.totalMars > 0 then FromRatio(user.mars, state.totalMars) else 0;
    var ustShare := if user.ust > 0 && state.totalUst > 0 then FromRatio(user.ust, state.totalUst) else 0;
    Half(marsShare + ustShare)
  }

  /** `calculate_user_lp_share` for a user whose shares have not been calculated. */
  function LpShare(state: State, user: User): nat {
    if state.totalMars == 0 || state.totalUst == 0 then 0
    else Mul(state.lpMinted, Percent(state, user))
  }

  /** `calculate_auction_reward_for_user`. */
  function Incentive(state: State, user: User, marsRewards: nat): nat {
    Mul(marsRewards, Percent(state, user))
  }

  /** The lazy calculation of shares and incentives at a claim. */
  function Materialised(config: Config, state: State, user: User): User {
    user.(lpShares := if user.lpShares == 0 then LpShare(state, user) else user.lpShares,
          incentives := if user.incentives == 0 then Incentive(state, user, config.marsRewards) else user.incentives)
  }

  /** The part of `total` that has vested `elapsed` seconds after the pool was created. */
  function Vested(config: Config, total: nat, elapsed: nat): (v: nat)
    requires config.vestingDuration > 0
    ensures v <= total
  {
    if elapsed >= config.vestingDuration then total
    else
      RatioAtMostOne(elapsed, config.vestingDuration);
      MulAtMostOne(total, FromRatio(elapsed, config.vestingDuration));
      Mul(total, FromRatio(elapsed, config.vestingDuration))
  }

  /** Nothing more is withdrawable: everything has been withdrawn, or there is no pool yet. */
  predicate VestingIdle(state: State, user: User) {
    user.withdrawnIncentives == user.incentives || state.poolInit == 0
  }

  /** The total that `calculate_withdrawable_auction_reward_for_user` brings the withdrawn incentives to. */
  function VestedAt(config: Config, state: State, user: User, now: nat): nat
    requires config.vestingDuration > 0
    requires VestingIdle(state, user) || state.poolInit <= now
  {
    if VestingIdle(state, user) then user.withdrawnIncentives
    else Vested(config, user.incentives, now - state.poolInit)
  }

  function Outstanding(state: State): int {
    state.lpMinted - state.lpWithdrawn
  }

  /** `update_mars_rewards_index` and `update_astro_rewards_index`. */
  function Harvest(state: State, rewards: Rewards): State {
    if Outstanding(state) <= 0 then state
    else state.(marsIndex := state.marsIndex + FromRatio(rewards.mars, Outstanding(state)),
                astroIndex := state.astroIndex + FromRatio(rewards.astro, Outstanding(state)))
  }

  /** The rewards that reach the contract: none unless its LP tokens are staked. */
  function Collected(state: State, rewards: Rewards): Rewards {
    if state.single then Rewards(rewards.mars, 0)
    else if state.dual then rewards
    else Rewards(0, 0)
  }

  /** Takes LP tokens out of whichever venue holds them; `None` if the position is too small. */
  function Unstake(state: State, ledger: Ledger, amount: nat): Option<Ledger> {
    if state.single then
      if ledger.lpStaking < amount then None
      else Some(ledger.(lpStaking := ledger.lpStaking - amount, lp := ledger.lp + amount))
    else if state.dual then
      if ledger.lpGenerator < amount then None
      else Some(ledger.(lpGenerator := ledger.lpGenerator - amount, lp := ledger.lp + amount))
    else Some(ledger)
  }

  // ---------------------------------------------------------------- transactions

  /** The contract is created. */
  function Instantiated(config: Config, now: nat): World {
    World(config, State(0, 0, 0, 0, false, false, 0, 0, 0), map[], Ledger(0, 0, 0, 0, 0, 0), Rewards(0, 0), 0, now)
  }

  predicate ValidConfig(config: Config) {
    config.marsDepositWindow <= config.ustDepositWindow && config.vestingDuration > 0
  }

  /** MARS sent by the airdrop or the lockdrop on behalf of `user`. */
  function DepositMars(w: World, now: nat, sender: Addr, user: Addr, amount: nat): Result<World, Error> {
    if amount == 0 then Err(ZeroAmount)
    else if sender != w.config.airdrop && sender != w.config.lockdrop then Err(Unauthorized)
    else if !(w.config.init <= now <= w.config.init + w.config.marsDepositWindow) then Err(WindowClosed)
    else
      var info := Lookup(w.users, user);
      Ok(w.(clock := now,
            state := w.state.(totalMars := w.state.totalMars + amount),
            users := w.users[user := info.(mars := info.mars + amount)],
            ledger := w.ledger.(mars := w.ledger.mars + amount)))
  }

  function IncreaseIncentives(w: World, now: nat, amount: nat): Result<World, Error> {
    if amount == 0 then Err(ZeroAmount)
    else if w.state.lpMinted > 0 then Err(AlreadyProvided)
    else Ok(w.(clock := now,
               config := w.config.(marsRewards := w.config.marsRewards + amount),
               ledger := w.ledger.(mars := w.ledger.mars + amount)))
  }

  function DepositUst(w: World, now: nat, user: Addr, amount: nat): Result<World, Error> {
    if !(w.config.init <= now <= w.config.init + w.config.ustDepositWindow) then Err(WindowClosed)
    else if amount == 0 then Err(ZeroAmount)
    else
      var info := Lookup(w.users, user);
      Ok(w.(clock := now,
            state := w.state.(totalUst := w.state.totalUst + amount),
            users := w.users[user := info.(ust := info.ust + amount)],
            ledger := w.ledger.(ust := w.ledger.ust + amount)))
  }

  function WithdrawUst(w: World, now: nat, user: Addr, amount: nat): Result<World, Error> {
    var info := Lookup(w.users, user);
    if info.ustWithdrawn then Err(AlreadyWithdrawn)
    else if amount > Mul(info.ust, AllowedWithdrawalPercent(w.config, now)) then Err(ExceedsLimit)
    else if amount > w.state.totalUst || amount > info.ust then Err(Underflow)
    else if amount > w.ledger.ust then Err(Unfunded)
    else
      var late := now > w.config.init + w.config.ustDepositWindow;
      Ok(w.(clock := now,
            state := w.state.(totalUst := w.state.totalUst - amount),
            users := w.users[user := info.(ust := info.ust - amount, ustWithdrawn := info.ustWithdrawn || late)],
            ledger := w.ledger.(ust := w.ledger.ust - amount)))
  }

  /**
   The pool takes all deposits and mints `minted` LP tokens; it rejects a provision with an empty side or
   that mints nothing.
   */
  function InitPool(w: World, now: nat, sender: Addr, minted: nat): Result<World, Error> {
    if sender != w.config.owner then Err(Unauthorized)
    else if w.state.lpMinted != 0 then Err(AlreadyProvided)
    else if !AreWindowsClosed(w.config, now) then Err(WindowsOpen)
    else if !w.config.poolSet then Err(NotSet)
    else if w.ledger.mars < w.state.totalMars || w.ledger.ust < w.state.totalUst then Err(Unfunded)
    else if minted == 0 || w.state.totalMars == 0 || w.state.totalUst == 0 then Err(PoolRejected)
    else Ok(w.(clock := now,
               state := w.state.(lpMinted := minted, poolInit := now),
               ledger := w.ledger.(mars := w.ledger.mars - w.state.totalMars,
                                   ust := w.ledger.ust - w.state.totalUst,
                                   lp := w.ledger.lp + minted)))
  }

  /** Stakes, or moves, all outstanding LP tokens; `rewards` is what leaving the other venue pays. */
  function StakeLp(w: World, now: nat, sender: Addr, single: bool, dual: bool, rewards: Rewards): Result<World, Error> {
    if sender != w.config.owner then Err(Unauthorized)
    else if single == dual then Err(InvalidRequest)
    else if (single && w.state.single) || (dual && w.state.dual) then Err(AlreadyStaked)
    else if Outstanding(w.state) < 0 then Err(Underflow)
    else if single && !w.config.stakingSet then Err(NotSet)
    else if !w.config.poolSet then Err(NotSet)
    else if Outstanding(w.state) == 0 then Err(ZeroTransfer)
    else
      var amount := Outstanding(w.state);
      var moving := w.state.single || w.state.dual;
      match Unstake(w.state, w.ledger, amount)
      case None => Err(Unfunded)
      case Some(unstaked) =>
        if unstaked.lp < amount then Err(Unfunded)
        else
          var collected := if moving then Collected(w.state, rewards) else Rewards(0, 0);
          var state := if moving then Harvest(w.state, collected) else w.state;
          Ok(w.(clock := now,
                state := state.(single := single, dual := dual),
                received := Rewards(w.received.mars + collected.mars, w.received.astro + collected.astro),
                ledger := unstaked.(mars := unstaked.mars + collected.mars,
                                    astro := unstaked.astro + collected.astro,
                                    lp := unstaked.lp - amount,
                                    lpStaking := unstaked.lpStaking + (if single then amount else 0),
                                    lpGenerator := unstaked.lpGenerator + (if dual then amount else 0))))
  }

  /** The subtractions a claim performs on the user's record all succeed. */
  predicate Payable(config: Config, state: State, user: User, now: nat)
    requires config.vestingDuration > 0
  {
    && user.withdrawnLp <= user.lpShares
    && user.marsIndex <= state.marsIndex
    && user.astroIndex <= state.astroIndex
    && (VestingIdle(state, user) || state.poolInit <= now)
    && user.withdrawnIncentives <= VestedAt(config, state, user, now)
  }

  /** The growth of a user's staking rewards from one index to a later one. */
  function Accrued(live: nat, from: Decimal, to: Decimal): nat
    requires from <= to
  {
    MulMonotone(live, live, from, to);
    Mul(live, to) - Mul(live, from)
  }

  function PayoutOf(config: Config, state: State, user: User, now: nat, pool: Liquidity): Payout
    requires config.vestingDuration > 0
    requires Payable(config, state, user, now)
  {
    var live := user.lpShares - user.withdrawnLp;
    Payout(VestedAt(config, state, user, now) - user.withdrawnIncentives,
           Accrued(live, user.marsIndex, state.marsIndex),
           Accrued(live, user.astroIndex, state.astroIndex),
           pool)
  }

  /** A user's record after being paid and after `lp` shares have left. */
  function Settled(state: State, user: User, payout: Payout, lp: nat): User {
    user.(withdrawnIncentives := user.withdrawnIncentives + payout.incentives,
          withdrawnMars := user.withdrawnMars + payout.mars,
          withdrawnAstro := user.withdrawnAstro + payout.astro,
          marsIndex := state.marsIndex,
          astroIndex := state.astroIndex,
          withdrawnLp := user.withdrawnLp + lp)
  }

  /** The checks of a claim before any token moves, and the number of LP shares to be withdrawn. */
  function ClaimShares(w: World, now: nat, user: Addr, withdraw: bool): Result<nat, Error> {
    var info := Materialised(w.config, w.state, Lookup(w.users, user));
    if !AreWindowsClosed(w.config, now) then Err(WindowsOpen)
    else if info.mars == 0 && info.ust == 0 then Err(InvalidRequest)
    else if info.withdrawnLp > info.lpShares || Outstanding(w.state) < 0 then Err(Underflow)
    else
      var lp := if withdraw then info.lpShares - info.withdrawnLp else 0;
      if w.state.single && withdraw && lp == 0 then Err(ZeroTransfer) else Ok(lp)
  }

  /**
   A claim for `user`, with or without withdrawing all LP shares. `rewards` is what the venue pays
   and `pool` what the pool returns for the LP tokens.
   */
  function Claim(w: World, now: nat, user: Addr, withdraw: bool, rewards: Rewards,
                 pool: Liquidity): Result<(World, Payout), Error>
    requires w.config.vestingDuration > 0
  {
    match ClaimShares(w, now, user, withdraw)
    case Err(e) => Err(e)
    case Ok(lp) =>
      match Unstake(w.state, w.ledger, lp)
      case None => Err(Unfunded)
      case Some(unstaked) =>
        var info := Materialised(w.config, w.state, Lookup(w.users, user));
        var collected := Collected(w.state, rewards);
        var state := Harvest(w.state, collected);
        if !Payable(w.config, state, info, now) then Err(Underflow)
        else
          var payout := PayoutOf(w.config, state, info, now, if lp > 0 then pool else Liquidity(0, 0));
          match PayRewards(unstaked, collected, payout, lp)
          case None => Err(Unfunded)
          case Some(ledger) =>
            Ok((w.(clock := now,
                   state := state.(lpWithdrawn := state.lpWithdrawn + lp),
                   users := w.users[user := Settled(state, info, payout, lp)],
                   received := Rewards(w.received.mars + collected.mars, w.received.astro + collected.astro),
                   ledger := ledger),
                payout))
  }

  /** Rewards come in, the user is paid, and `lp` tokens go to the pool; `None` if a transfer lacks funds. */
  function PayRewards(ledger: Ledger, collected: Rewards, payout: Payout, lp: nat): Option<Ledger> {
    if ledger.mars + collected.mars < payout.incentives + payout.mars
       || ledger.astro + collected.astro < payout.astro
       || ledger.lp < lp
    then None
    else Some(ledger.(mars := ledger.mars + collected.mars - payout.incentives - payout.mars,
                      astro := ledger.astro + collected.astro - payout.astro,
                      lp := ledger.lp - lp))
  }

  /** The owner sets addresses; none can be unset. */
  function UpdateConfig(w: World, now: nat, sender: Addr, owner: Option<Addr>, setPool: bool,
                        setStaking: bool): Result<World, Error> {
    if sender != w.config.owner then Err(Unauthorized)
    else Ok(w.(clock := now,
               config := w.config.(owner := owner.GetOr(w.config.owner),
                                   poolSet := w.config.poolSet || setPool,
                                   stakingSet := w.config.stakingSet || setStaking)))
  }

  /** Anyone may send tokens to the contract. */
  function Donate(w: World, now: nat, gift: Ledger): World {
    w.(clock := now,
       lpDonated := w.lpDonated + gift.lp,
       ledger := w.ledger.(mars := w.ledger.mars + gift.mars,
                           astro := w.ledger.astro + gift.astro,
                           ust := w.ledger.ust + gift.ust,
                           lp := w.ledger.lp + gift.lp))
  }

  datatype Operation =
    | OpDepositMars(sender: Addr, user: Addr, amount: nat)
    | OpIncreaseIncentives(amount: nat)
    | OpDepositUst(user: Addr, amount: nat)
    | OpWithdrawUst(user: Addr, amount: nat)
    | OpInitPool(sender: Addr, minted: nat)
    | OpStakeLp(sender: Addr, single: bool, dual: bool, rewards: Rewards)
    | OpClaim(user: Addr, withdraw: bool, rewards: Rewards, pool: Liquidity)
    | OpUpdateConfig(sender: Addr, owner: Option<Addr>, setPool: bool, setStaking: bool)
    | OpDonate(gift: Ledger)

  function Attempt(w: World, now: nat, op: Operation): Result<World, Error>
    requires w.config.vestingDuration > 0
  {
    match op
    case OpDepositMars(sender, user, amount) => DepositMars(w, now, sender, user, amount)
    case OpIncreaseIncentives(amount) => IncreaseIncentives(w, now, amount)
    case OpDepositUst(user, amount) => DepositUst(w, now, user, amount)
    case OpWithdrawUst(user, amount) => WithdrawUst(w, now, user, amount)
    case OpInitPool(sender, minted) => InitPool(w, now, sender, minted)
    case OpStakeLp(sender, single, dual, rewards) => StakeLp(w, now, sender, single, dual, rewards)
    case OpClaim(user, withdraw, rewards, pool) =>
      (match Claim(w, now, user, withdraw, rewards, pool) case Ok(r) => Ok(r.0) case Err(e) => Err(e))
    case OpUpdateConfig(sender, owner, setPool, setStaking) => UpdateConfig(w, now, sender, owner, setPool, setStaking)
    case OpDonate(gift) => Ok(Donate(w, now, gift))
  }

  /** A rejected transaction changes nothing but the time. */
  function Step(w: World, now: nat, op: Operation): World
    requires w.config.vestingDuration > 0
  {
    match Attempt(w, now, op)
    case Ok(r) => r
    case Err(_) => w.(clock := now)
  }
}
