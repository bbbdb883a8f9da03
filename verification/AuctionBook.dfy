/**
 The books of the auction: what every transaction keeps about deposits, allocations, vesting and
 reward indexes, independently of the tokens actually held.
 */
module AuctionBook {
  import opened Decimals
  import opened Sums
  import opened Wrappers
  import opened Auction

  // ---------------------------------------------------------------- families over the users

  ghost function MarsOf(users: Users): map<Addr, nat> { map u | u in users :: users[u].mars }
  ghost function UstOf(users: Users): map<Addr, nat> { map u | u in users :: users[u].ust }
  ghost function LpGone(users: Users): map<Addr, nat> { map u | u in users :: users[u].withdrawnLp }
  ghost function IncentivesPaid(users: Users): map<Addr, nat> { map u | u in users :: users[u].withdrawnIncentives }
  ghost function MarsPaid(users: Users): map<Addr, nat> { map u | u in users :: users[u].withdrawnMars }
  ghost function AstroPaid(users: Users): map<Addr, nat> { map u | u in users :: users[u].withdrawnAstro }

  ghost function Percents(state: State, users: Users): map<Addr, nat> { map u | u in users :: Percent(state, users[u]) }
  ghost function LpShares(state: State, users: Users): map<Addr, nat> { map u | u in users :: LpShare(state, users[u]) }
  ghost function Incentives(state: State, users: Users, marsRewards: nat): map<Addr, nat> {
    map u | u in users :: Incentive(state, users[u], marsRewards)
  }

  /**
   Staking rewards a user has earned in atomics: what it was paid once its shares have left, its share of
   the index before.
   */
  function Claimed(state: State, user: User, paid: nat, index: Decimal): nat {
    if user.withdrawnLp > 0 then paid * ONE else LpShare(state, user) * index
  }

  ghost function MarsClaims(state: State, users: Users): map<Addr, nat> {
    map u | u in users :: Claimed(state, users[u], users[u].withdrawnMars, state.marsIndex)
  }

  ghost function AstroClaims(state: State, users: Users): map<Addr, nat> {
    map u | u in users :: Claimed(state, users[u], users[u].withdrawnAstro, state.astroIndex)
  }

  // ---------------------------------------------------------------- pro-rata allocations

  ghost function Ratios(amounts: map<Addr, nat>, total: nat): map<Addr, nat> {
    map u | u in amounts :: if amounts[u] > 0 && total > 0 then FromRatio(amounts[u], total) else 0
  }

  lemma RatiosWithinOne(amounts: map<Addr, nat>, total: nat)
    requires Sum(amounts) == total
    ensures Sum(Ratios(amounts, total)) <= ONE
  {
    var ratios := Ratios(amounts, total);
    if total == 0 {
      forall u | u in ratios ensures Below(ratios[u], 1, Get(amounts, u), 0) {
      }
      SumBound(ratios, amounts, 1, 0);
    } else {
      forall u | u in ratios ensures Below(ratios[u], total, Get(amounts, u), ONE) {
      }
      SumBound(ratios, amounts, total, ONE);
      assert (ONE + 1) * total == ONE * total + total;
      if Sum(ratios) > ONE {
        ProductMonotone(ONE + 1, Sum(ratios), total, total);
      }
    }
  }

  ghost predicate Deposited(state: State, users: Users) {
    && Sum(MarsOf(users)) == state.totalMars
    && Sum(UstOf(users)) == state.totalUst
  }

  lemma PercentsWithinOne(state: State, users: Users)
    requires Deposited(state, users)
    ensures Sum(Percents(state, users)) <= ONE
  {
    var a, b := Ratios(MarsOf(users), state.totalMars), Ratios(UstOf(users), state.totalUst);
    RatiosWithinOne(MarsOf(users), state.totalMars);
    RatiosWithinOne(UstOf(users), state.totalUst);
    var both := map u | u in users :: a[u] + b[u];
    SumAdd(a, b, both);
    forall u | u in users ensures Below(Percents(state, users)[u], 2, Get(both, u), 1) {
    }
    SumBound(Percents(state, users), both, 2, 1);
  }

  lemma ScaledWithin(parts: map<Addr, nat>, percents: map<Addr, nat>, whole: nat)
    requires Sum(percents) <= ONE
    requires forall u :: u in parts ==> parts[u] <= Mul(whole, Get(percents, u))
    ensures Sum(parts) <= whole
  {
    forall u | u in parts ensures Below(parts[u], ONE, Get(percents, u), whole) {
      ProductMonotone(parts[u], Mul(whole, Get(percents, u)), ONE, ONE);
    }
    SumBound(parts, percents, ONE, whole);
    ProductMonotone(Sum(percents), ONE, whole, whole);
  }

  /** Lazily computed LP shares never add up to more than was minted. */
  lemma LpSharesWithinMinted(state: State, users: Users)
    requires Deposited(state, users)
    ensures Sum(LpShares(state, users)) <= state.lpMinted
  {
    PercentsWithinOne(state, users);
    ScaledWithin(LpShares(state, users), Percents(state, users), state.lpMinted);
  }

  /** Incentives never add up to more than the rewards set aside. */
  lemma IncentivesWithinRewards(state: State, users: Users, marsRewards: nat)
    requires Deposited(state, users)
    ensures Sum(Incentives(state, users, marsRewards)) <= marsRewards
  {
    PercentsWithinOne(state, users);
    ScaledWithin(Incentives(state, users, marsRewards), Percents(state, users), marsRewards);
  }

  // ---------------------------------------------------------------- the invariant

  /** One reward asset of one user: what it was paid is the integer part of its share of its own index. */
  predicate PaidToIndex(state: State, user: User, paid: nat, index: Decimal, global: Decimal) {
    && index <= global
    && (user.withdrawnLp == 0 ==>
          && paid == Mul(user.lpShares, index)
          && (user.lpShares == 0 && LpShare(state, user) > 0 ==> index == 0))
  }

  predicate VestedSoFar(config: Config, state: State, user: User, clock: nat)
    requires config.vestingDuration > 0
  {
    && user.withdrawnIncentives <= user.incentives
    && if state.poolInit == 0 || clock < state.poolInit then user.withdrawnIncentives == 0
       else user.withdrawnIncentives <= Vested(config, user.incentives, clock - state.poolInit)
  }

  predicate UserOk(config: Config, state: State, user: User, clock: nat)
    requires config.vestingDuration > 0
  {
    && (user.mars > 0 || user.ust > 0 ==> clock >= config.init)
    && (user.lpShares > 0 || user.incentives > 0 ==> clock > OpenedTill(config))
    && (user.lpShares == 0 || user.lpShares == LpShare(state, user))
    && (user.withdrawnLp == 0 || user.withdrawnLp == user.lpShares)
    && user.incentives <= Incentive(state, user, config.marsRewards)
    && VestedSoFar(config, state, user, clock)
    && PaidToIndex(state, user, user.withdrawnMars, user.marsIndex, state.marsIndex)
    && PaidToIndex(state, user, user.withdrawnAstro, user.astroIndex, state.astroIndex)
  }

  /** Before the pool exists nothing is staked, withdrawn or indexed; it only exists after the windows. */
  predicate Phase(config: Config, state: State, received: Rewards, clock: nat) {
    && (state.totalMars > 0 || state.totalUst > 0 ==> clock >= config.init)
    && !(state.single && state.dual)
    && (state.lpMinted == 0 ==>
          && state.lpWithdrawn == 0 && state.poolInit == 0 && !state.single && !state.dual
          && state.marsIndex == 0 && state.astroIndex == 0 && received == Rewards(0, 0))
    && (state.lpMinted > 0 ==> OpenedTill(config) < state.poolInit <= clock)
  }

  ghost predicate Book(w: World) {
    && ValidConfig(w.config)
    && Phase(w.config, w.state, w.received, w.clock)
    && Deposited(w.state, w.users)
    && Sum(LpGone(w.users)) == w.state.lpWithdrawn
    && (forall u :: u in w.users ==> UserOk(w.config, w.state, w.users[u], w.clock))
    && Sum(MarsClaims(w.state, w.users)) <= w.received.mars * ONE
    && Sum(AstroClaims(w.state, w.users)) <= w.received.astro * ONE
  }

  lemma InstantiatedBook(config: Config, now: nat)
    requires ValidConfig(config)
    ensures Book(Instantiated(config, now))
  {
  }

  lemma NewUserOk(config: Config, state: State, clock: nat)
    requires config.vestingDuration > 0
    ensures UserOk(config, state, NEW_USER, clock)
  {
    assert Percent(state, NEW_USER) == 0;
  }

  // ---------------------------------------------------------------- time passes, indexes and rewards grow

  lemma VestedMonotone(config: Config, total: nat, a: nat, b: nat)
    requires config.vestingDuration > 0 && a <= b
    ensures Vested(config, total, a) <= Vested(config, total, b)
  {
    if b < config.vestingDuration {
      RatioMonotone(a, b, config.vestingDuration);
      MulMonotone(total, total, FromRatio(a, config.vestingDuration), FromRatio(b, config.vestingDuration));
    }
  }

  /** The parts of the state that fix the allocations are the same. */
  predicate SameAllocations(s: State, t: State) {
    s.totalMars == t.totalMars && s.totalUst == t.totalUst && s.lpMinted == t.lpMinted && s.poolInit == t.poolInit
  }

  lemma UserOkLater(c: Config, s: State, d: Config, t: State, user: User, clock: nat, later: nat)
    requires c.vestingDuration > 0
    requires d == c.(owner := d.owner, poolSet := d.poolSet, stakingSet := d.stakingSet, marsRewards := d.marsRewards)
    requires c.marsRewards <= d.marsRewards
    requires SameAllocations(s, t) && s.marsIndex <= t.marsIndex && s.astroIndex <= t.astroIndex
    requires clock <= later && UserOk(c, s, user, clock)
    ensures UserOk(d, t, user, later)
  {
    MulMonotone(c.marsRewards, d.marsRewards, Percent(s, user), Percent(s, user));
    if s.poolInit <= clock {
      VestedMonotone(c, user.incentives, clock - s.poolInit, later - s.poolInit);
    }
  }

  lemma UsersOkLater(w: World, r: World)
    requires Book(w) && r.users == w.users && w.clock <= r.clock
    requires r.config == w.config.(owner := r.config.owner, poolSet := r.config.poolSet,
                                   stakingSet := r.config.stakingSet, marsRewards := r.config.marsRewards)
    requires w.config.marsRewards <= r.config.marsRewards
    requires SameAllocations(w.state, r.state)
    requires w.state.marsIndex <= r.state.marsIndex && w.state.astroIndex <= r.state.astroIndex
    ensures forall u :: u in r.users ==> UserOk(r.config, r.state, r.users[u], r.clock)
  {
    hide UserOk;
    forall u | u in r.users ensures UserOk(r.config, r.state, r.users[u], r.clock) {
      UserOkLater(w.config, w.state, r.config, r.state, w.users[u], w.clock, r.clock);
    }
  }

  /** Waiting, raising the incentives and setting addresses leave the books in order. */
  lemma QuietBook(w: World, r: World)
    requires Book(w) && r.users == w.users && r.state == w.state && r.received == w.received && w.clock <= r.clock
    requires r.config == w.config.(owner := r.config.owner, poolSet := r.config.poolSet,
                                   stakingSet := r.config.stakingSet, marsRewards := r.config.marsRewards)
    requires w.config.marsRewards <= r.config.marsRewards
    ensures Book(r)
  {
    hide UserOk, Deposited;
    UsersOkLater(w, r);
  }

  // ---------------------------------------------------------------- replacing one user

  lemma NewUserClaims(state: State, index: Decimal)
    ensures Claimed(state, NEW_USER, 0, index) == 0
    ensures Percent(state, NEW_USER) == 0 && LpShare(state, NEW_USER) == 0
  {
  }

  lemma SumsReplace(state: State, users: Users, user: Addr, info: User)
    ensures var before, after := Lookup(users, user), users[user := info];
            && Sum(MarsOf(after)) + before.mars == Sum(MarsOf(users)) + info.mars
            && Sum(UstOf(after)) + before.ust == Sum(UstOf(users)) + info.ust
            && Sum(LpGone(after)) + before.withdrawnLp == Sum(LpGone(users)) + info.withdrawnLp
  {
    assert MarsOf(users[user := info]) == MarsOf(users)[user := info.mars];
    assert UstOf(users[user := info]) == UstOf(users)[user := info.ust];
    assert LpGone(users[user := info]) == LpGone(users)[user := info.withdrawnLp];
    SumUpdate(MarsOf(users), user, info.mars);
    SumUpdate(UstOf(users), user, info.ust);
    SumUpdate(LpGone(users), user, info.withdrawnLp);
  }

  lemma ClaimsReplace(state: State, users: Users, user: Addr, info: User)
    ensures var before, after := Lookup(users, user), users[user := info];
            && Sum(MarsClaims(state, after)) + Claimed(state, before, before.withdrawnMars, state.marsIndex)
               == Sum(MarsClaims(state, users)) + Claimed(state, info, info.withdrawnMars, state.marsIndex)
            && Sum(AstroClaims(state, after)) + Claimed(state, before, before.withdrawnAstro, state.astroIndex)
               == Sum(AstroClaims(state, users)) + Claimed(state, info, info.withdrawnAstro, state.astroIndex)
  {
    hide Claimed;
    var mars := Claimed(state, info, info.withdrawnMars, state.marsIndex);
    var astro := Claimed(state, info, info.withdrawnAstro, state.astroIndex);
    assert MarsClaims(state, users[user := info]) == MarsClaims(state, users)[user := mars];
    assert AstroClaims(state, users[user := info]) == AstroClaims(state, users)[user := astro];
    SumUpdate(MarsClaims(state, users), user, mars);
    SumUpdate(AstroClaims(state, users), user, astro);
    NewUserClaims(state, state.marsIndex);
    NewUserClaims(state, state.astroIndex);
  }

  lemma PaymentsReplace(users: Users, user: Addr, info: User)
    ensures var before, after := Lookup(users, user), users[user := info];
            && Sum(IncentivesPaid(after)) + before.withdrawnIncentives
               == Sum(IncentivesPaid(users)) + info.withdrawnIncentives
            && Sum(MarsPaid(after)) + before.withdrawnMars == Sum(MarsPaid(users)) + info.withdrawnMars
            && Sum(AstroPaid(after)) + before.withdrawnAstro == Sum(AstroPaid(users)) + info.withdrawnAstro
  {
    assert IncentivesPaid(users[user := info]) == IncentivesPaid(users)[user := info.withdrawnIncentives];
    assert MarsPaid(users[user := info]) == MarsPaid(users)[user := info.withdrawnMars];
    assert AstroPaid(users[user := info]) == AstroPaid(users)[user := info.withdrawnAstro];
    SumUpdate(IncentivesPaid(users), user, info.withdrawnIncentives);
    SumUpdate(MarsPaid(users), user, info.withdrawnMars);
    SumUpdate(AstroPaid(users), user, info.withdrawnAstro);
  }

  // ---------------------------------------------------------------- while the windows are open

  /** A user who has never claimed. */
  predicate Untouched(user: User) {
    user == User(user.mars, user.ust, user.ustWithdrawn, 0, 0, 0, 0, 0, 0, 0, 0)
  }

  lemma OpenMeansUntouched(config: Config, state: State, user: User, clock: nat)
    requires config.vestingDuration > 0 && UserOk(config, state, user, clock)
    requires clock <= OpenedTill(config) && state.marsIndex == 0 && state.astroIndex == 0
    ensures Untouched(user)
  {
    hide Percent, LpShare, Incentive, Vested;
  }

  lemma OpenPhase(w: World)
    requires Book(w) && w.clock <= OpenedTill(w.config)
    ensures w.state.lpMinted == 0
    ensures forall u :: u in w.users ==> Untouched(w.users[u])
  {
    hide UserOk, Untouched, Deposited;
    forall u | u in w.users ensures Untouched(w.users[u]) {
      OpenMeansUntouched(w.config, w.state, w.users[u], w.clock);
    }
  }

  lemma UntouchedOk(config: Config, state: State, user: User, clock: nat)
    requires config.vestingDuration > 0 && Untouched(user) && clock >= config.init
    requires state.lpMinted == 0 && state.poolInit == 0
    ensures UserOk(config, state, user, clock)
    ensures LpShare(state, user) == 0
  {
  }

  lemma NoClaims(state: State, users: Users)
    requires state.marsIndex == 0 && state.astroIndex == 0
    requires forall u :: u in users ==> users[u].withdrawnLp == 0
    ensures Sum(MarsClaims(state, users)) == 0 && Sum(AstroClaims(state, users)) == 0
  {
    forall u | u in users
      ensures Below(MarsClaims(state, users)[u], 1, Get(map[], u), 1)
      ensures Below(AstroClaims(state, users)[u], 1, Get(map[], u), 1) {
    }
    SumBound(MarsClaims(state, users), map[], 1, 1);
    SumBound(AstroClaims(state, users), map[], 1, 1);
  }

  /** Any change of one user's deposits, mirrored in the totals, before the windows close. */
  lemma DepositBook(w: World, r: World, user: Addr, info: User)
    requires Book(w) && w.clock <= r.clock <= OpenedTill(w.config)
    requires Untouched(info) && r.clock >= w.config.init
    requires r.config == w.config && r.received == w.received && r.users == w.users[user := info]
    requires r.state == w.state.(totalMars := r.state.totalMars, totalUst := r.state.totalUst)
    requires r.state.totalMars + Lookup(w.users, user).mars == w.state.totalMars + info.mars
    requires r.state.totalUst + Lookup(w.users, user).ust == w.state.totalUst + info.ust
    ensures Book(r)
  {
    hide UserOk, MarsOf, UstOf, LpGone, MarsClaims, AstroClaims;
    OpenPhase(w);
    SumsReplace(w.state, w.users, user, info);
    forall u | u in r.users ensures UserOk(r.config, r.state, r.users[u], r.clock) {
      UntouchedOk(r.config, r.state, r.users[u], r.clock);
    }
    NoClaims(r.state, r.users);
  }

  /** A late withdrawal cannot take anything; it only marks the user. */
  lemma MarkBook(w: World, r: World, user: Addr)
    requires Book(w) && w.clock <= r.clock
    requires r.config == w.config && r.state == w.state && r.received == w.received
    requires r.users == w.users[user := Lookup(w.users, user).(ustWithdrawn := true)]
    ensures Book(r)
  {
    hide UserOk, MarsOf, UstOf, LpGone, MarsClaims, AstroClaims, Claimed;
    var info := Lookup(w.users, user).(ustWithdrawn := true);
    SumsReplace(w.state, w.users, user, info);
    ClaimsReplace(w.state, w.users, user, info);
    MarkedOk(w.config, w.state, Lookup(w.users, user), r.clock);
    UsersOkLater(w, w.(clock := r.clock));
    NewUserOk(w.config, w.state, r.clock);
  }

  lemma MarkedOk(config: Config, state: State, user: User, clock: nat)
    requires config.vestingDuration > 0
    ensures UserOk(config, state, user, clock) ==> UserOk(config, state, user.(ustWithdrawn := true), clock)
    ensures forall paid, index ::
              Claimed(state, user.(ustWithdrawn := true), paid, index) == Claimed(state, user, paid, index)
  {
  }

  // ---------------------------------------------------------------- the pool is created

  lemma InitPoolUserOk(config: Config, state: State, user: User, clock: nat, minted: nat, now: nat)
    requires config.vestingDuration > 0 && UserOk(config, state, user, clock) && clock <= now
    requires state.lpMinted == 0 && state.poolInit == 0 && state.marsIndex == 0 && state.astroIndex == 0
    requires minted > 0 && now > OpenedTill(config)
    ensures UserOk(config, state.(lpMinted := minted, poolInit := now), user, now)
    ensures user.withdrawnLp == 0
  {
    hide Vested;
  }

  lemma InitPoolBook(w: World, r: World, minted: nat)
    requires Book(w) && w.clock <= r.clock
    requires w.state.lpMinted == 0 && minted > 0 && r.clock > OpenedTill(w.config)
    requires r.config == w.config && r.users == w.users && r.received == w.received
    requires r.state == w.state.(lpMinted := minted, poolInit := r.clock)
    ensures Book(r)
  {
    hide UserOk;
    forall u | u in r.users ensures UserOk(r.config, r.state, r.users[u], r.clock) && r.users[u].withdrawnLp == 0 {
      InitPoolUserOk(w.config, w.state, w.users[u], w.clock, minted, r.clock);
    }
    NoClaims(r.state, r.users);
  }

  // ---------------------------------------------------------------- rewards arrive

  ghost function Live(state: State, users: Users): map<Addr, nat>
    requires forall u :: u in users ==> users[u].withdrawnLp <= LpShare(state, users[u])
  {
    map u | u in users :: LpShare(state, users[u]) - users[u].withdrawnLp
  }

  /** Shares that can still leave, materialised or not, never exceed the outstanding LP tokens. */
  lemma LiveWithinOutstanding(state: State, users: Users)
    requires Deposited(state, users) && Sum(LpGone(users)) == state.lpWithdrawn
    requires forall u :: u in users ==> users[u].withdrawnLp <= LpShare(state, users[u])
    ensures Sum(Live(state, users)) <= Outstanding(state)
  {
    hide LpShare, Deposited;
    LpSharesWithinMinted(state, users);
    SumAdd(Live(state, users), LpGone(users), LpShares(state, users));
  }

  lemma GoneWithinShare(config: Config, state: State, user: User, clock: nat)
    requires config.vestingDuration > 0 && UserOk(config, state, user, clock)
    ensures user.withdrawnLp <= LpShare(state, user)
    ensures user.withdrawnLp > 0 ==> user.withdrawnLp == LpShare(state, user)
  {
    hide LpShare, Incentive, Vested;
  }

  /** A growth of an index by `step` adds `step` for each live share. */
  lemma ClaimedGrows(state: State, user: User, paid: nat, index: Decimal, step: Decimal)
    requires user.withdrawnLp > 0 ==> user.withdrawnLp == LpShare(state, user)
    ensures user.withdrawnLp <= LpShare(state, user)
    ensures Claimed(state, user, paid, index + step)
         == Claimed(state, user, paid, index) + (LpShare(state, user) - user.withdrawnLp) * step
  {
    hide LpShare;
    assert LpShare(state, user) * (index + step) == LpShare(state, user) * index + LpShare(state, user) * step;
  }

  lemma ClaimsGrow(claims: map<Addr, nat>, live: map<Addr, nat>, grown: map<Addr, nat>, step: Decimal,
                   outstanding: nat, before: nat, reward: nat)
    requires claims.Keys == live.Keys == grown.Keys
    requires forall u :: u in grown ==> grown[u] == claims[u] + live[u] * step
    requires Sum(live) <= outstanding && step * outstanding <= reward * ONE
    requires Sum(claims) <= before * ONE
    ensures Sum(grown) <= (before + reward) * ONE
  {
    SumAdd(claims, Scaled(live, step), grown);
    SumScaled(live, step);
    RewardCovers(Sum(claims), Sum(Scaled(live, step)), Sum(live), step, outstanding, before, reward);
  }

  lemma RewardCovers(claims: nat, added: nat, live: nat, step: Decimal, outstanding: nat, before: nat, reward: nat)
    requires claims <= before * ONE && added <= live * step
    requires live <= outstanding && step * outstanding <= reward * ONE
    ensures claims + added <= (before + reward) * ONE
  {
    ProductMonotone(live, outstanding, step, step);
  }

  /** The world after a callback has counted `collected` rewards into the indexes. */
  function HarvestWorld(w: World, now: nat, collected: Rewards): World {
    w.(clock := now,
       state := Harvest(w.state, collected),
       received := Rewards(w.received.mars + collected.mars, w.received.astro + collected.astro))
  }

  lemma UserAfterHarvest(config: Config, s: State, t: State, user: User, clock: nat)
    requires config.vestingDuration > 0 && UserOk(config, s, user, clock)
    requires SameAllocations(s, t) && s.marsIndex <= t.marsIndex && s.astroIndex <= t.astroIndex
    ensures var live := LpShare(s, user) - user.withdrawnLp;
            && live >= 0
            && Claimed(t, user, user.withdrawnMars, t.marsIndex)
               == Claimed(s, user, user.withdrawnMars, s.marsIndex) + live * (t.marsIndex - s.marsIndex)
            && Claimed(t, user, user.withdrawnAstro, t.astroIndex)
               == Claimed(s, user, user.withdrawnAstro, s.astroIndex) + live * (t.astroIndex - s.astroIndex)
  {
    hide UserOk, Claimed, LpShare;
    GoneWithinShare(config, s, user, clock);
    SameShare(s, t, user);
    ClaimedGrows(s, user, user.withdrawnMars, s.marsIndex, t.marsIndex - s.marsIndex);
    ClaimedGrows(s, user, user.withdrawnAstro, s.astroIndex, t.astroIndex - s.astroIndex);
  }

  lemma GoneWithinShares(w: World)
    requires Book(w)
    ensures forall u :: u in w.users ==> w.users[u].withdrawnLp <= LpShare(w.state, w.users[u])
  {
  }

  lemma ClaimsAfterHarvest(w: World, collected: Rewards)
    requires Book(w) && Outstanding(w.state) > 0
    ensures var r := HarvestWorld(w, w.clock, collected);
            && Sum(MarsClaims(r.state, r.users)) <= r.received.mars * ONE
            && Sum(AstroClaims(r.state, r.users)) <= r.received.astro * ONE
  {
    hide UserOk, LpShare, Deposited, Claimed, Phase;
    var r := HarvestWorld(w, w.clock, collected);
    GoneWithinShares(w);
    LiveWithinOutstanding(w.state, w.users);
    assert MarsClaims(r.state, r.users).Keys == AstroClaims(r.state, r.users).Keys == Live(w.state, w.users).Keys;
    forall u | u in w.users
      ensures MarsClaims(r.state, r.users)[u]
           == MarsClaims(w.state, w.users)[u] + Live(w.state, w.users)[u] * (r.state.marsIndex - w.state.marsIndex)
      ensures AstroClaims(r.state, r.users)[u]
           == AstroClaims(w.state, w.users)[u] + Live(w.state, w.users)[u] * (r.state.astroIndex - w.state.astroIndex)
    {
      UserAfterHarvest(w.config, w.state, r.state, w.users[u], w.clock);
    }
    ClaimsStayCovered(w, r, collected);
  }

  lemma ClaimsStayCovered(w: World, r: World, collected: Rewards)
    requires forall u :: u in w.users ==> w.users[u].withdrawnLp <= LpShare(w.state, w.users[u])
    requires Outstanding(w.state) > 0 && Sum(Live(w.state, w.users)) <= Outstanding(w.state)
    requires r == HarvestWorld(w, w.clock, collected)
    requires Sum(MarsClaims(w.state, w.users)) <= w.received.mars * ONE
    requires Sum(AstroClaims(w.state, w.users)) <= w.received.astro * ONE
    requires forall u :: u in w.users ==>
                MarsClaims(r.state, r.users)[u]
                == MarsClaims(w.state, w.users)[u] + Live(w.state, w.users)[u] * (r.state.marsIndex - w.state.marsIndex)
    requires forall u :: u in w.users ==>
                AstroClaims(r.state, r.users)[u]
                == AstroClaims(w.state, w.users)[u]
                   + Live(w.state, w.users)[u] * (r.state.astroIndex - w.state.astroIndex)
    ensures Sum(MarsClaims(r.state, r.users)) <= r.received.mars * ONE
    ensures Sum(AstroClaims(r.state, r.users)) <= r.received.astro * ONE
  {
    hide LpShare, Claimed;
    ClaimsGrow(MarsClaims(w.state, w.users), Live(w.state, w.users), MarsClaims(r.state, r.users),
               r.state.marsIndex - w.state.marsIndex, Outstanding(w.state), w.received.mars, collected.mars);
    ClaimsGrow(AstroClaims(w.state, w.users), Live(w.state, w.users), AstroClaims(r.state, r.users),
               r.state.astroIndex - w.state.astroIndex, Outstanding(w.state), w.received.astro, collected.astro);
  }

  lemma SameShare(s: State, t: State, user: User)
    requires SameAllocations(s, t)
    ensures LpShare(s, user) == LpShare(t, user) && Percent(s, user) == Percent(t, user)
    ensures forall paid, index :: Claimed(s, user, paid, index) == Claimed(t, user, paid, index)
  {
  }

  lemma OutstandingNonNegative(w: World)
    requires Book(w)
    ensures Outstanding(w.state) >= 0
  {
    GoneWithinShares(w);
    LiveWithinOutstanding(w.state, w.users);
  }

  lemma HarvestBook(w: World, now: nat, collected: Rewards)
    requires Book(w) && w.clock <= now
    requires w.state.lpMinted == 0 ==> collected == Rewards(0, 0)
    ensures Book(HarvestWorld(w, now, collected))
  {
    hide UserOk, MarsClaims, AstroClaims;
    var r := HarvestWorld(w, now, collected);
    UsersOkLater(w, r);
    if Outstanding(w.state) > 0 {
      ClaimsAfterHarvest(w, collected);
    }
  }

  // ---------------------------------------------------------------- a user is settled

  lemma MaterialisedOk(config: Config, state: State, user: User, clock: nat)
    requires config.vestingDuration > 0 && UserOk(config, state, user, clock) && clock > OpenedTill(config)
    ensures UserOk(config, state, Materialised(config, state, user), clock)
    ensures var info := Materialised(config, state, user);
            && info.lpShares == LpShare(state, info) == LpShare(state, user)
            && (forall paid, index :: Claimed(state, info, paid, index) == Claimed(state, user, paid, index))
  {
    hide Percent, FromRatio;
    assert Percent(state, Materialised(config, state, user))
         == Percent(state, user) by { SamePercent(state, user, config); }
  }

  lemma SamePercent(state: State, user: User, config: Config)
    ensures Percent(state, Materialised(config, state, user)) == Percent(state, user)
  {
  }

  /** For a user in order every subtraction of a claim succeeds. */
  lemma AlwaysPayable(config: Config, state: State, user: User, now: nat)
    requires config.vestingDuration > 0 && UserOk(config, state, user, now)
    requires state.poolInit <= now
    ensures Payable(config, state, user, now)
  {
    hide LpShare, Incentive, Vested;
  }

  lemma IndexPaid(state: State, user: User, paid: nat, index: Decimal, global: Decimal)
    requires PaidToIndex(state, user, paid, index, global) && user.lpShares == LpShare(state, user)
    requires user.withdrawnLp == 0 || user.withdrawnLp == user.lpShares
    ensures var live := user.lpShares - user.withdrawnLp;
            && (live > 0 ==> paid + Accrued(live, index, global) == Mul(user.lpShares, global))
            && (live == 0 ==> Accrued(live, index, global) == 0)
  {
    hide LpShare;
  }

  lemma SettledOk(config: Config, state: State, user: User, now: nat, pool: Liquidity, lp: nat)
    requires config.vestingDuration > 0 && UserOk(config, state, user, now)
    requires now > OpenedTill(config) && state.poolInit <= now
    requires user.lpShares == LpShare(state, user) && Payable(config, state, user, now)
    requires lp == 0 || lp == user.lpShares - user.withdrawnLp
    ensures var after := Settled(state, user, PayoutOf(config, state, user, now, pool), lp);
            && UserOk(config, state, after, now)
            && Claimed(state, after, after.withdrawnMars, state.marsIndex)
               <= Claimed(state, user, user.withdrawnMars, state.marsIndex)
            && Claimed(state, after, after.withdrawnAstro, state.astroIndex)
               <= Claimed(state, user, user.withdrawnAstro, state.astroIndex)
  {
    hide Vested, FromRatio;
    var after := Settled(state, user, PayoutOf(config, state, user, now, pool), lp);
    assert Percent(state, after) == Percent(state, user);
    hide Percent;
    IndexPaid(state, user, user.withdrawnMars, user.marsIndex, state.marsIndex);
    IndexPaid(state, user, user.withdrawnAstro, user.astroIndex, state.astroIndex);
  }

  /** The world after `user` has been settled at the current indexes and `lp` of its shares have left. */
  function SettleWorld(w: World, user: Addr, info: User, payout: Payout, lp: nat): World {
    w.(state := w.state.(lpWithdrawn := w.state.lpWithdrawn + lp),
       users := w.users[user := Settled(w.state, info, payout, lp)])
  }

  lemma SettleBook(w: World, user: Addr, pool: Liquidity, lp: nat)
    requires Book(w) && w.clock > OpenedTill(w.config)
    requires var info := Materialised(w.config, w.state, Lookup(w.users, user));
             && info.withdrawnLp <= info.lpShares
             && (lp == 0 || lp == info.lpShares - info.withdrawnLp)
             && Payable(w.config, w.state, info, w.clock)
    ensures var info := Materialised(w.config, w.state, Lookup(w.users, user));
            Book(SettleWorld(w, user, info, PayoutOf(w.config, w.state, info, w.clock, pool), lp))
  {
    hide UserOk, LpShare, Percent, Payable, Claimed, MarsOf, UstOf, LpGone, MarsClaims, AstroClaims, VestedAt;
    var before := Lookup(w.users, user);
    var info := Materialised(w.config, w.state, before);
    NewUserOk(w.config, w.state, w.clock);
    MaterialisedOk(w.config, w.state, before, w.clock);
    SettledOk(w.config, w.state, info, w.clock, pool, lp);
    var after := Settled(w.state, info, PayoutOf(w.config, w.state, info, w.clock, pool), lp);
    SumsReplace(w.state, w.users, user, after);
    ClaimsReplace(w.state, w.users, user, after);
    var r := SettleWorld(w, user, info, PayoutOf(w.config, w.state, info, w.clock, pool), lp);
    OnlyAllocationsMatter(w.config, w.state, r.state, r.users, w.clock);
    NothingToWithdraw(w.state, info);
  }

  lemma NothingToWithdraw(state: State, user: User)
    ensures state.lpMinted == 0 ==> LpShare(state, user) == 0
  {
  }

  /** Users are judged by the allocations and the indexes only. */
  lemma OnlyAllocationsMatter(config: Config, s: State, t: State, users: Users, clock: nat)
    requires config.vestingDuration > 0
    requires SameAllocations(s, t) && s.marsIndex == t.marsIndex && s.astroIndex == t.astroIndex
    ensures forall u :: u in users ==> (UserOk(config, s, users[u], clock) <==> UserOk(config, t, users[u], clock))
    ensures MarsClaims(s, users) == MarsClaims(t, users)
    ensures AstroClaims(s, users) == AstroClaims(t, users)
  {
  }

}
