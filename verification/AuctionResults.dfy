/** What a reader of the auction may rely on, stated over all reachable worlds. */
module AuctionResults {
  import opened Decimals
  import opened Sums
  import opened Wrappers
  import opened Auction
  import opened AuctionBook
  import opened AuctionSolvency

  // ---------------------------------------------------------------- solvency

  /** Auction incentives a user can still withdraw, once they have vested. */
  function DueIncentives(config: Config, state: State, user: User): nat {
    var total := if user.incentives == 0 then Incentive(state, user, config.marsRewards) else user.incentives;
    if total >= user.withdrawnIncentives then total - user.withdrawnIncentives else 0
  }

  /** Staking rewards a claim would pay a user at the current index. */
  function DueRewards(state: State, user: User): nat {
    var total := Mul(LpShare(state, user), state.marsIndex);
    if user.withdrawnLp == 0 && total >= user.withdrawnMars then total - user.withdrawnMars else 0
  }

  ghost function AllDueIncentives(w: World): map<Addr, nat> {
    map u | u in w.users :: DueIncentives(w.config, w.state, w.users[u])
  }

  ghost function AllDueRewards(w: World): map<Addr, nat> {
    map u | u in w.users :: DueRewards(w.state, w.users[u])
  }

  /** ASTRO rewards a claim would pay a user at the current index. */
  function DueAstro(state: State, user: User): nat {
    var total := Mul(LpShare(state, user), state.astroIndex);
    if user.withdrawnLp == 0 && total >= user.withdrawnAstro then total - user.withdrawnAstro else 0
  }

  ghost function AllDueAstro(w: World): map<Addr, nat> {
    map u | u in w.users :: DueAstro(w.state, w.users[u])
  }

  lemma AstroWithinClaims(config: Config, state: State, user: User, clock: nat)
    requires config.vestingDuration > 0 && UserOk(config, state, user, clock)
    ensures Below(DueAstro(state, user) + user.withdrawnAstro, ONE,
                  Claimed(state, user, user.withdrawnAstro, state.astroIndex), 1)
  {
    hide LpShare, Incentive, Vested;
    MulMonotone(user.lpShares, LpShare(state, user), user.astroIndex, state.astroIndex);
  }

  /** The ASTRO balance covers every unpaid reward. */
  lemma SolventInAstro(w: World)
    requires Sound(w)
    ensures w.ledger.astro >= Sum(AllDueAstro(w))
  {
    hide UserOk, DueAstro, Incentive, Claimed, Phase;
    var claims := AstroClaims(w.state, w.users);
    var full := map u | u in w.users :: AllDueAstro(w)[u] + AstroPaid(w.users)[u];
    SumAdd(AllDueAstro(w), AstroPaid(w.users), full);
    forall u | u in w.users ensures Below(full[u], ONE, Get(claims, u), 1) {
      AstroWithinClaims(w.config, w.state, w.users[u], w.clock);
    }
    SumBound(full, claims, ONE, 1);
  }

  lemma DueWithinClaims(config: Config, state: State, user: User, clock: nat)
    requires config.vestingDuration > 0 && UserOk(config, state, user, clock)
    ensures DueIncentives(config, state, user) + user.withdrawnIncentives <= Incentive(state, user, config.marsRewards)
    ensures (DueRewards(state, user) + user.withdrawnMars) * ONE
         <= Claimed(state, user, user.withdrawnMars, state.marsIndex)
  {
    hide LpShare, Incentive, Vested;
    MulMonotone(user.lpShares, LpShare(state, user), user.marsIndex, state.marsIndex);
  }

  /**
   The MARS balance covers every unpaid incentive and staking reward, and before the pool exists
   the deposits as well.
   */
  lemma Solvent(w: World)
    requires Sound(w)
    ensures w.ledger.mars >= Sum(AllDueIncentives(w)) + Sum(AllDueRewards(w))
                             + (if w.state.lpMinted == 0 then w.state.totalMars else 0)
  {
    hide UserOk, DueIncentives, DueRewards, Incentive, Claimed, Phase;
    var incentives := Incentives(w.state, w.users, w.config.marsRewards);
    var claims := MarsClaims(w.state, w.users);
    var fullIncentives := map u | u in w.users :: AllDueIncentives(w)[u] + IncentivesPaid(w.users)[u];
    var fullRewards := map u | u in w.users :: AllDueRewards(w)[u] + MarsPaid(w.users)[u];
    SumAdd(AllDueIncentives(w), IncentivesPaid(w.users), fullIncentives);
    SumAdd(AllDueRewards(w), MarsPaid(w.users), fullRewards);
    forall u | u in w.users
      ensures fullIncentives[u] <= incentives[u]
      ensures Below(fullRewards[u], ONE, Get(claims, u), 1)
    {
      DueWithinClaims(w.config, w.state, w.users[u], w.clock);
    }
    SumMonotone(fullIncentives, incentives);
    IncentivesWithinRewards(w.state, w.users, w.config.marsRewards);
    SumBound(fullRewards, claims, ONE, 1);
  }

  /** The shares and incentives on record, which users materialise at different times. */
  ghost function StoredShares(users: Users): map<Addr, nat> { map u | u in users :: users[u].lpShares }

  ghost function StoredIncentives(users: Users): map<Addr, nat> { map u | u in users :: users[u].incentives }

  lemma StoredWithin(w: World)
    requires Sound(w)
    ensures Sum(StoredShares(w.users)) <= w.state.lpMinted
    ensures Sum(StoredIncentives(w.users)) <= w.config.marsRewards
  {
    hide LpShare, Incentive, VestedSoFar, PaidToIndex, Phase;
    forall u | u in w.users
      ensures w.users[u].lpShares <= LpShare(w.state, w.users[u])
      ensures w.users[u].incentives <= Incentive(w.state, w.users[u], w.config.marsRewards)
    {
      assert UserOk(w.config, w.state, w.users[u], w.clock);
    }
    SumMonotone(StoredShares(w.users), LpShares(w.state, w.users));
    LpSharesWithinMinted(w.state, w.users);
    SumMonotone(StoredIncentives(w.users), Incentives(w.state, w.users, w.config.marsRewards));
    IncentivesWithinRewards(w.state, w.users, w.config.marsRewards);
  }

  /** Everything owed is covered, and everything on record or paid is within what was set aside for it. */
  ghost predicate Covered(w: World) {
    && w.ledger.mars >= Sum(AllDueIncentives(w)) + Sum(AllDueRewards(w))
                        + (if w.state.lpMinted == 0 then w.state.totalMars else 0)
    && w.ledger.astro >= Sum(AllDueAstro(w))
    && Sum(StoredShares(w.users)) <= w.state.lpMinted
    && Sum(StoredIncentives(w.users)) <= w.config.marsRewards
    && Sum(IncentivesPaid(w.users)) <= w.config.marsRewards
    && Sum(MarsPaid(w.users)) <= w.received.mars
    && Sum(AstroPaid(w.users)) <= w.received.astro
    && !(w.state.single && w.state.dual)
    && Custody(w.config, w.state, w.ledger, w.lpDonated)
  }

  lemma SoundIsCovered(w: World)
    requires Sound(w)
    ensures Covered(w)
  {
    hide Book, AllDueIncentives, AllDueRewards, AllDueAstro;
    hide IncentivesPaid, MarsPaid, AstroPaid, StoredShares, StoredIncentives;
    Solvent(w);
    SolventInAstro(w);
    StoredWithin(w);
    PaymentsWithin(w);
    ClaimPhase(w);
  }

  /** In every reachable world everything owed is covered, and the LP tokens are where the flags say. */
  lemma AlwaysCovered(config: Config, now: nat, calls: seq<(nat, Operation)>)
    requires ValidConfig(config) && config.marsRewards == 0 && Timed(now, calls)
    ensures Sound(Instantiated(config, now))
    ensures Covered(Run(Instantiated(config, now), calls))
  {
    hide Sound, Covered;
    InstantiatedSound(config, now);
    RunSound(Instantiated(config, now), calls);
    SoundIsCovered(Run(Instantiated(config, now), calls));
  }

  // ---------------------------------------------------------------- what a claim pays

  /** The record a successful claim leaves behind. */
  lemma ClaimOutcome(w: World, now: nat, user: Addr, withdraw: bool, rewards: Rewards, pool: Liquidity)
    requires w.config.vestingDuration > 0 && Claim(w, now, user, withdraw, rewards, pool).Ok?
    ensures var (r, payout) := Claim(w, now, user, withdraw, rewards, pool).value;
            var info := Materialised(w.config, w.state, Lookup(w.users, user));
            var h := Harvest(w.state, Collected(w.state, rewards));
            && Payable(w.config, h, info, now)
            && payout == PayoutOf(w.config, h, info, now, payout.pool)
            && r.users.Keys == w.users.Keys + {user}
            && Lookup(r.users, user) == Settled(h, info, payout, Lookup(r.users, user).withdrawnLp - info.withdrawnLp)
            && r.state == h.(lpWithdrawn := r.state.lpWithdrawn)
            && r.config == w.config && r.clock == now
  {
    hide Materialised, Payable, VestedAt, Accrued, PayRewards, Unstake, FromRatio;
  }

  /**
   After a claim a user still holding shares has been paid exactly the integer part of its shares
   times the index, in both assets; a user whose shares have left is paid no further reward.
   */
  lemma ClaimPaysToIndex(w: World, now: nat, user: Addr, withdraw: bool, rewards: Rewards, pool: Liquidity)
    requires Sound(w) && w.clock <= now
    requires w.config.vestingDuration > 0 && Claim(w, now, user, withdraw, rewards, pool).Ok?
    ensures var (r, payout) := Claim(w, now, user, withdraw, rewards, pool).value;
            var info, after := Materialised(w.config, w.state, Lookup(w.users, user)), Lookup(r.users, user);
            if info.withdrawnLp < info.lpShares then
              && after.withdrawnMars == Mul(after.lpShares, r.state.marsIndex)
              && after.withdrawnAstro == Mul(after.lpShares, r.state.astroIndex)
            else
              payout.mars == 0 && payout.astro == 0
  {
    hide Claim, Materialised, LpShare, VestedAt, Sound, UserOk, Mul, FromRatio, Accrued;
    var info := Materialised(w.config, w.state, Lookup(w.users, user));
    ClaimOutcome(w, now, user, withdraw, rewards, pool);
    ClaimedByDepositor(w, now, user, withdraw, rewards, pool);
    ClaimChecks(w, now, user, withdraw);
    var h := Harvest(w.state, Collected(w.state, rewards));
    InOrderPaidToIndex(w.config, w.state, info, now);
    IndexPaidLater(w.state, h, info, info.withdrawnMars, info.marsIndex, w.state.marsIndex, h.marsIndex);
    IndexPaidLater(w.state, h, info, info.withdrawnAstro, info.astroIndex, w.state.astroIndex, h.astroIndex);
  }

  /** While staked with the MARS venue, whoever has withdrawn all shares is refused when asking for them again. */
  lemma SecondWithdrawalRefused(w: World, now: nat, later: nat, user: Addr, rewards: Rewards, pool: Liquidity,
                                more: Rewards, rest: Liquidity)
    requires Sound(w) && w.clock <= now <= later && w.state.single
    requires w.config.vestingDuration > 0 && Claim(w, now, user, true, rewards, pool).Ok?
    ensures var r := Claim(w, now, user, true, rewards, pool).value.0;
            r.config.vestingDuration > 0 && Claim(r, later, user, true, more, rest) == Err(ZeroTransfer)
  {
    hide Sound, LpShare, Incentive, Book;
    ClaimNeverStuck(w, now, user, true, rewards, pool);
    ClaimTakesAll(w, now, user, rewards, pool);
    var r := Claim(w, now, user, true, rewards, pool).value.0;
    ClaimNeverStuck(r, later, user, true, more, rest);
    ClaimChecks(r, later, user, true);
    WindowsStayClosed(w.config, now, later, w.clock);
    PoolStarted(w);
    hide Claim;
    assert ClaimShares(r, later, user, true) == Err(ZeroTransfer);
    ClaimRefused(r, later, user, more, rest);
  }

  lemma ClaimRefused(w: World, now: nat, user: Addr, rewards: Rewards, pool: Liquidity)
    requires w.config.vestingDuration > 0 && ClaimShares(w, now, user, true).Err?
    ensures Claim(w, now, user, true, rewards, pool) == Err(ClaimShares(w, now, user, true).error)
  {
    hide ClaimShares;
  }

  /** Once LP tokens are staked the auction has started, so closed windows stay closed. */
  lemma PoolStarted(w: World)
    requires Sound(w) && w.state.single
    ensures OpenedTill(w.config) < w.clock
  {
    hide UserOk, Deposited;
  }

  lemma WindowsStayClosed(config: Config, now: nat, later: nat, clock: nat)
    requires clock <= now <= later
    ensures OpenedTill(config) < clock ==> AreWindowsClosed(config, now) && AreWindowsClosed(config, later)
  {
  }

  lemma ClaimTakesAll(w: World, now: nat, user: Addr, rewards: Rewards, pool: Liquidity)
    requires w.config.vestingDuration > 0 && w.state.single && Claim(w, now, user, true, rewards, pool).Ok?
    ensures var r := Claim(w, now, user, true, rewards, pool).value.0;
            var info := Materialised(w.config, w.state, Lookup(w.users, user));
            && r.config == w.config && r.state.single && r.clock == now
            && Lookup(r.users, user).lpShares == info.lpShares == Lookup(r.users, user).withdrawnLp && info.lpShares > 0
            && Lookup(r.users, user).mars == Lookup(w.users, user).mars
            && Lookup(r.users, user).ust == Lookup(w.users, user).ust
  {
    hide LpShare, Incentive, Payable, PayoutOf, VestedAt, Accrued, FromRatio, PayRewards;
  }

  lemma ClaimedByDepositor(w: World, now: nat, user: Addr, withdraw: bool, rewards: Rewards, pool: Liquidity)
    requires w.config.vestingDuration > 0 && Claim(w, now, user, withdraw, rewards, pool).Ok?
    ensures AreWindowsClosed(w.config, now)
    ensures Lookup(w.users, user).mars > 0 || Lookup(w.users, user).ust > 0
  {
    hide LpShare, Incentive;
  }

  lemma InOrderPaidToIndex(config: Config, state: State, user: User, clock: nat)
    requires config.vestingDuration > 0 && UserOk(config, state, user, clock)
    ensures PaidToIndex(state, user, user.withdrawnMars, user.marsIndex, state.marsIndex)
    ensures PaidToIndex(state, user, user.withdrawnAstro, user.astroIndex, state.astroIndex)
    ensures user.withdrawnLp == 0 || user.withdrawnLp == user.lpShares
  {
    hide LpShare, Incentive, Vested;
  }

  lemma IndexPaidLater(s: State, t: State, user: User, paid: nat, index: Decimal, global: Decimal, later: Decimal)
    requires SameAllocations(s, t) && user.lpShares == LpShare(s, user) && global <= later
    requires PaidToIndex(s, user, paid, index, global)
    requires user.withdrawnLp == 0 || user.withdrawnLp == user.lpShares
    ensures var live := user.lpShares - user.withdrawnLp;
            && (live > 0 ==> paid + Accrued(live, index, later) == Mul(user.lpShares, later))
            && (live == 0 ==> Accrued(live, index, later) == 0)
  {
    hide LpShare;
    SameShare(s, t, user);
    IndexPaid(t, user, paid, index, later);
  }

  // ---------------------------------------------------------------- vesting

  /** After a claim at `now` the withdrawn incentives are the vested amount at `now`, whatever was claimed before. */
  lemma ClaimVests(w: World, now: nat, user: Addr, withdraw: bool, rewards: Rewards, pool: Liquidity)
    requires Sound(w) && w.clock <= now
    requires w.config.vestingDuration > 0 && Claim(w, now, user, withdraw, rewards, pool).Ok?
    ensures var after := Lookup(Claim(w, now, user, withdraw, rewards, pool).value.0.users, user);
            if w.state.poolInit == 0 then after.withdrawnIncentives == 0
            else w.state.poolInit <= now
                 && after.withdrawnIncentives == Vested(w.config, after.incentives, now - w.state.poolInit)
  {
    hide LpShare, Percent, Incentive, Book, UserOk, Accrued;
    ClaimChecks(w, now, user, withdraw);
    PoolBeforeNow(w);
    VestedExactly(w.config, w.state, Materialised(w.config, w.state, Lookup(w.users, user)), now);
  }

  lemma PoolBeforeNow(w: World)
    requires Sound(w)
    ensures w.state.poolInit <= w.clock
  {
    hide UserOk, Deposited;
  }

  lemma VestedExactly(config: Config, state: State, user: User, now: nat)
    requires config.vestingDuration > 0 && UserOk(config, state, user, now)
    requires state.poolInit <= now
    ensures VestedAt(config, state, user, now)
         == if state.poolInit == 0 then 0 else Vested(config, user.incentives, now - state.poolInit)
  {
    hide LpShare, Incentive, Vested;
  }

  /** The time of `user`'s last successful claim since the pool exists. */
  ghost function LastClaim(w: World, calls: seq<(nat, Operation)>, user: Addr, last: Option<nat>): Option<nat>
    requires Sound(w) && Timed(w.clock, calls)
    decreases |calls|
  {
    hide Sound, Attempt, Step;
    if calls == [] then last
    else
      NeverStuck(w, calls[0].0, calls[0].1);
      StepClock(w, calls[0].0, calls[0].1);
      var op := calls[0].1;
      var claimed := op.OpClaim? && op.user == user && w.state.poolInit > 0 && Attempt(w, calls[0].0, op).Ok?;
      LastClaim(Step(w, calls[0].0, op), calls[1..], user, if claimed then Some(calls[0].0) else last)
  }

  /** The incentives withdrawn by `user` are those vested at its last claim. */
  ghost predicate WithdrawnAsOf(w: World, user: Addr, last: Option<nat>)
    requires w.config.vestingDuration > 0
  {
    var info := Lookup(w.users, user);
    match last
    case None => info.withdrawnIncentives == 0
    case Some(t) =>
      0 < w.state.poolInit <= t
      && info.withdrawnIncentives == Vested(w.config, info.incentives, t - w.state.poolInit)
  }

  lemma OthersKeepPayments(w: World, now: nat, op: Operation, user: Addr)
    requires Sound(w) && w.clock <= now && w.config.vestingDuration > 0
    requires !(op.OpClaim? && op.user == user) || Attempt(w, now, op).Err?
    ensures var r, before := Step(w, now, op), Lookup(w.users, user);
            && Lookup(r.users, user).withdrawnIncentives == before.withdrawnIncentives
            && Lookup(r.users, user).incentives == before.incentives
            && Lookup(r.users, user).lpShares == before.lpShares
            && Lookup(r.users, user).withdrawnMars == before.withdrawnMars
            && Lookup(r.users, user).withdrawnAstro == before.withdrawnAstro
            && (w.state.poolInit > 0 ==> r.state.poolInit == w.state.poolInit)
            && r.config.vestingDuration == w.config.vestingDuration
  {
    hide Sound, LpShare, Percent, Incentive, Payable;
    hide PayoutOf, AllowedWithdrawalPercent, FromRatio, Unstake, PayRewards;
    PoolExists(w);
  }

  lemma PoolExists(w: World)
    requires Sound(w)
    ensures w.state.poolInit > 0 <==> w.state.lpMinted > 0
  {
    hide UserOk, Deposited;
  }

  lemma SameVesting(c: Config, d: Config, total: nat, elapsed: nat)
    requires c.vestingDuration == d.vestingDuration > 0
    ensures Vested(c, total, elapsed) == Vested(d, total, elapsed)
  {
  }

  /**
   Vesting is path independent: however a user spreads its claims over a run, what it has
   withdrawn depends only on the time of the last one.
   */
  lemma {:induction false} VestingPathIndependent(w: World, calls: seq<(nat, Operation)>, user: Addr, last: Option<nat>)
    requires Sound(w) && Timed(w.clock, calls) && w.config.vestingDuration > 0
    requires WithdrawnAsOf(w, user, last)
    ensures Run(w, calls).config.vestingDuration > 0
    ensures WithdrawnAsOf(Run(w, calls), user, LastClaim(w, calls, user, last))
    decreases |calls|
  {
    hide Sound, Vested, Claim;
    if calls != [] {
      var now, op := calls[0].0, calls[0].1;
      var r := Step(w, now, op);
      NeverStuck(w, now, op);
      StepClock(w, now, op);
      Configured(r);
      PoolExists(w);
      if op.OpClaim? && op.user == user && Attempt(w, now, op).Ok? {
        ClaimVests(w, now, user, op.withdraw, op.rewards, op.pool);
        ClaimKeepsConfig(w, now, user, op.withdraw, op.rewards, op.pool);
        if w.state.poolInit > 0 {
          VestingPathIndependent(r, calls[1..], user, Some(now));
        } else {
          assert last.None?;
          VestingPathIndependent(r, calls[1..], user, None);
        }
      } else {
        OthersKeepPayments(w, now, op, user);
        if last.Some? {
          SameVesting(w.config, r.config, Lookup(w.users, user).incentives, last.value - w.state.poolInit);
        }
        VestingPathIndependent(r, calls[1..], user, last);
      }
    }
  }

  lemma ClaimKeepsConfig(w: World, now: nat, user: Addr, withdraw: bool, rewards: Rewards, pool: Liquidity)
    requires w.config.vestingDuration > 0 && Claim(w, now, user, withdraw, rewards, pool).Ok?
    ensures var r := Claim(w, now, user, withdraw, rewards, pool).value.0;
            r.config == w.config && r.state.poolInit == w.state.poolInit && user in r.users
  {
    hide LpShare, Percent, Incentive, Payable, PayoutOf, Unstake, PayRewards;
  }

  // ---------------------------------------------------------------- staking rewards over a run

  /** The claim is made while its user still holds LP shares. */
  predicate Holding(w: World, user: Addr) {
    var info := Materialised(w.config, w.state, Lookup(w.users, user));
    info.withdrawnLp < info.lpShares
  }

  /** The reward indexes that `user`'s last successful claim made while holding shares left behind. */
  ghost function LastIndexes(w: World, calls: seq<(nat, Operation)>, user: Addr,
                             last: Option<(Decimal, Decimal)>): Option<(Decimal, Decimal)>
    requires Sound(w) && Timed(w.clock, calls)
    decreases |calls|
  {
    hide Sound, Attempt, Step;
    if calls == [] then last
    else
      NeverStuck(w, calls[0].0, calls[0].1);
      StepClock(w, calls[0].0, calls[0].1);
      var op := calls[0].1;
      var r := Step(w, calls[0].0, op);
      var held := op.OpClaim? && op.user == user && Attempt(w, calls[0].0, op).Ok? && Holding(w, user);
      LastIndexes(r, calls[1..], user, if held then Some((r.state.marsIndex, r.state.astroIndex)) else last)
  }

  /** The staking rewards paid to `user` are the integer parts of its shares times the indexes. */
  predicate PaidAsOf(w: World, user: Addr, last: Option<(Decimal, Decimal)>) {
    var info := Lookup(w.users, user);
    match last
    case None => info.withdrawnMars == 0 && info.withdrawnAstro == 0
    case Some((mars, astro)) =>
      info.lpShares > 0
      && info.withdrawnMars == Mul(info.lpShares, mars) && info.withdrawnAstro == Mul(info.lpShares, astro)
  }

  lemma ClaimPaidAsOf(w: World, now: nat, op: Operation, last: Option<(Decimal, Decimal)>)
    requires Sound(w) && w.clock <= now && w.config.vestingDuration > 0
    requires op.OpClaim? && Attempt(w, now, op).Ok? && PaidAsOf(w, op.user, last)
    ensures var r := Step(w, now, op);
            PaidAsOf(r, op.user, if Holding(w, op.user) then Some((r.state.marsIndex, r.state.astroIndex)) else last)
  {
    hide Sound, LpShare, Incentive, Payable, PayoutOf, Mul, FromRatio, Claim;
    ClaimPaysToIndex(w, now, op.user, op.withdraw, op.rewards, op.pool);
    ClaimOutcome(w, now, op.user, op.withdraw, op.rewards, op.pool);
  }

  /**
   However a user spreads its claims over a run, the MARS and ASTRO rewards it has been paid are exactly
   its shares times the indexes at the last claim it made while holding shares, rounded down.
   */
  lemma {:induction false} RewardsPathIndependent(w: World, calls: seq<(nat, Operation)>, user: Addr,
                                                  last: Option<(Decimal, Decimal)>)
    requires Sound(w) && Timed(w.clock, calls) && PaidAsOf(w, user, last)
    ensures PaidAsOf(Run(w, calls), user, LastIndexes(w, calls, user, last))
    decreases |calls|
  {
    hide Sound, Claim, PaidAsOf, Holding, Attempt, Step;
    if calls != [] {
      var now, op := calls[0].0, calls[0].1;
      NeverStuck(w, now, op);
      StepClock(w, now, op);
      var r := Step(w, now, op);
      if op.OpClaim? && op.user == user && Attempt(w, now, op).Ok? {
        ClaimPaidAsOf(w, now, op, last);
        RewardsPathIndependent(r, calls[1..], user,
                               if Holding(w, user) then Some((r.state.marsIndex, r.state.astroIndex)) else last);
      } else {
        OthersKeepPayments(w, now, op, user);
        SamePayments(w, r, user, last);
        RewardsPathIndependent(r, calls[1..], user, last);
      }
    }
  }

  lemma SamePayments(w: World, r: World, user: Addr, last: Option<(Decimal, Decimal)>)
    requires PaidAsOf(w, user, last)
    requires Lookup(r.users, user).lpShares == Lookup(w.users, user).lpShares
    requires Lookup(r.users, user).withdrawnMars == Lookup(w.users, user).withdrawnMars
    requires Lookup(r.users, user).withdrawnAstro == Lookup(w.users, user).withdrawnAstro
    ensures PaidAsOf(r, user, last)
  {
    hide Mul;
  }

  // ---------------------------------------------------------------- committed UST

  /** The allowed percentage never rises as time passes. */
  lemma AllowedPercentFalls(config: Config, a: nat, b: nat)
    requires a <= b
    ensures AllowedWithdrawalPercent(config, b) <= AllowedWithdrawalPercent(config, a)
    ensures a > config.init + config.ustDepositWindow ==> AllowedWithdrawalPercent(config, a) <= ONE / 2
  {
    var second := config.init + config.ustDepositWindow + config.withdrawalWindow / 2;
    var final := second + config.withdrawalWindow / 2;
    if second < a < final {
      LateRatioBelowHalf(final - a, final - second);
    }
    if second < b < final {
      LateRatioBelowHalf(final - b, final - second);
      if second < a {
        RatioMonotone(50 * (final - b), 50 * (final - a), 100 * (final - second));
      }
    }
  }

  /** A deposit is untouched, or was withdrawn from once and kept at least half, rounded up. */
  predicate Committed(before: User, after: User) {
    || (after.ust == before.ust && after.ustWithdrawn == before.ustWithdrawn)
    || (!before.ustWithdrawn && after.ustWithdrawn && after.ust <= before.ust <= 2 * after.ust)
  }

  lemma LateStepCommits(w: World, now: nat, op: Operation, user: Addr)
    requires ValidConfig(w.config) && now > w.config.init + w.config.ustDepositWindow
    ensures Committed(Lookup(w.users, user), Lookup(Step(w, now, op).users, user))
    ensures var c := Step(w, now, op).config;
            c.init == w.config.init && c.ustDepositWindow == w.config.ustDepositWindow
  {
    hide LpShare, Percent, Incentive, Payable, PayoutOf, AllowedWithdrawalPercent, FromRatio, Unstake, PayRewards;
    AllowedPercentFalls(w.config, now, now);
    HalfAtMost(Lookup(w.users, user).ust, AllowedWithdrawalPercent(w.config, now));
  }

  /** Once deposits have closed, each user withdraws at most once and keeps at least half. */
  lemma {:induction false} LateRunCommits(w: World, calls: seq<(nat, Operation)>, user: Addr)
    requires Sound(w) && Timed(w.clock, calls)
    requires w.clock > w.config.init + w.config.ustDepositWindow
    ensures Committed(Lookup(w.users, user), Lookup(Run(w, calls).users, user))
    decreases |calls|
  {
    hide Sound;
    if calls != [] {
      Configured(w);
      NeverStuck(w, calls[0].0, calls[0].1);
      StepClock(w, calls[0].0, calls[0].1);
      LateStepCommits(w, calls[0].0, calls[0].1, user);
      LateRunCommits(Step(w, calls[0].0, calls[0].1), calls[1..], user);
    }
  }

  /** The final total is at least half of the total when deposits closed. */
  lemma TotalCommitted(w: World, calls: seq<(nat, Operation)>)
    requires Sound(w) && Timed(w.clock, calls)
    requires w.clock > w.config.init + w.config.ustDepositWindow
    ensures 2 * Run(w, calls).state.totalUst >= w.state.totalUst
  {
    hide Sound;
    var r := Run(w, calls);
    RunSound(w, calls);
    forall u | u in UstOf(w.users) ensures Below(UstOf(w.users)[u], 1, Get(UstOf(r.users), u), 2) {
      LateRunCommits(w, calls, u);
    }
    SumBound(UstOf(w.users), UstOf(r.users), 1, 2);
    TotalIsSum(w);
    TotalIsSum(r);
  }

  lemma TotalIsSum(w: World)
    requires Sound(w)
    ensures Sum(UstOf(w.users)) == w.state.totalUst
  {
    hide UserOk, Phase;
  }
}
