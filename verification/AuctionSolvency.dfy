/**
 The balances of the auction: every transfer is funded and every subtraction succeeds, and LP tokens
 are where the flags say, over whole runs. Module `AuctionResults` draws the consequences.
 */
module AuctionSolvency {
  import opened Decimals
  import opened Sums
  import opened Wrappers
  import opened Auction
  import opened AuctionBook

  // ---------------------------------------------------------------- the invariant on balances

  /** Balances plus payments cover deposits not yet in the pool, incentives and rewards received. */
  ghost predicate Funds(w: World) {
    && w.ledger.mars + Sum(IncentivesPaid(w.users)) + Sum(MarsPaid(w.users))
       >= w.config.marsRewards + w.received.mars + (if w.state.lpMinted == 0 then w.state.totalMars else 0)
    && w.ledger.astro + Sum(AstroPaid(w.users)) >= w.received.astro
    && (w.state.lpMinted == 0 ==> w.ledger.ust >= w.state.totalUst)
  }

  /** All outstanding LP tokens are at the venue the flags name, or with the contract. */
  predicate Custody(config: Config, state: State, ledger: Ledger, donated: nat) {
    && (state.single ==> config.stakingSet)
    && ledger.lpStaking == (if state.single then Outstanding(state) else 0)
    && ledger.lpGenerator == (if state.dual then Outstanding(state) else 0)
    && ledger.lp == donated + (if state.single || state.dual then 0 else Outstanding(state))
  }

  ghost predicate Sound(w: World) {
    && Book(w)
    && Funds(w)
    && Custody(w.config, w.state, w.ledger, w.lpDonated)
  }

  // ---------------------------------------------------------------- payments stay within what was set aside

  lemma PaidWithinClaim(config: Config, state: State, user: User, clock: nat)
    requires config.vestingDuration > 0 && UserOk(config, state, user, clock)
    ensures user.withdrawnMars * ONE <= Claimed(state, user, user.withdrawnMars, state.marsIndex)
    ensures user.withdrawnAstro * ONE <= Claimed(state, user, user.withdrawnAstro, state.astroIndex)
    ensures user.withdrawnIncentives <= Incentive(state, user, config.marsRewards)
  {
    hide LpShare, Incentive, Vested;
    ProductMonotone(user.lpShares, LpShare(state, user), user.marsIndex, state.marsIndex);
    ProductMonotone(user.lpShares, LpShare(state, user), user.astroIndex, state.astroIndex);
  }

  lemma PaymentsWithin(w: World)
    requires Book(w)
    ensures Sum(IncentivesPaid(w.users)) <= w.config.marsRewards
    ensures Sum(MarsPaid(w.users)) <= w.received.mars
    ensures Sum(AstroPaid(w.users)) <= w.received.astro
  {
    hide UserOk, Claimed, Incentive, Deposited, Phase;
    var incentives := Incentives(w.state, w.users, w.config.marsRewards);
    forall u | u in w.users
      ensures IncentivesPaid(w.users)[u] <= incentives[u]
      ensures Below(MarsPaid(w.users)[u], ONE, Get(MarsClaims(w.state, w.users), u), 1)
      ensures Below(AstroPaid(w.users)[u], ONE, Get(AstroClaims(w.state, w.users), u), 1)
    {
      PaidWithinClaim(w.config, w.state, w.users[u], w.clock);
    }
    SumMonotone(IncentivesPaid(w.users), incentives);
    IncentivesWithinRewards(w.state, w.users, w.config.marsRewards);
    SumBound(MarsPaid(w.users), MarsClaims(w.state, w.users), ONE, 1);
    SumBound(AstroPaid(w.users), AstroClaims(w.state, w.users), ONE, 1);
  }

  // ---------------------------------------------------------------- claims

  /** A claim of a depositor after the windows finds the user's record in order. */
  lemma ClaimChecks(w: World, now: nat, user: Addr, withdraw: bool)
    requires Sound(w) && w.clock <= now
    ensures var stored := Lookup(w.users, user);
            var info := Materialised(w.config, w.state, stored);
            AreWindowsClosed(w.config, now) && (stored.mars > 0 || stored.ust > 0) ==>
              && now > OpenedTill(w.config)
              && UserOk(w.config, w.state, info, now)
              && info.withdrawnLp <= info.lpShares == LpShare(w.state, info)
              && Outstanding(w.state) >= 0
  {
    hide UserOk, LpShare, Percent, Incentive;
    var stored := Lookup(w.users, user);
    if AreWindowsClosed(w.config, now) && (stored.mars > 0 || stored.ust > 0) {
      DepositorAfterInit(w, user);
      UsersOkLater(w, w.(clock := now));
      MaterialisedOk(w.config, w.state, stored, now);
      GoneWithinShare(w.config, w.state, Materialised(w.config, w.state, stored), now);
      OutstandingNonNegative(w);
    }
  }

  lemma DepositorAfterInit(w: World, user: Addr)
    requires Book(w)
    ensures Lookup(w.users, user).mars > 0 || Lookup(w.users, user).ust > 0 ==>
              w.clock >= w.config.init && user in w.users
  {
  }

  /** The user's shares are among the outstanding ones, so they can be taken out of the venue. */
  lemma SharesOutstanding(w: World, user: Addr)
    requires Book(w) && w.clock > OpenedTill(w.config)
    ensures var info := Materialised(w.config, w.state, Lookup(w.users, user));
            info.withdrawnLp <= info.lpShares ==> info.lpShares - info.withdrawnLp <= Outstanding(w.state)
  {
    hide UserOk, LpShare, Percent, Deposited;
    var before := Lookup(w.users, user);
    OutstandingNonNegative(w);
    NewUserClaims(w.state, 0);
    if user in w.users {
      MaterialisedOk(w.config, w.state, before, w.clock);
      GoneWithinShares(w);
      LiveWithinOutstanding(w.state, w.users);
      SumContains(Live(w.state, w.users), user);
    } else {
      NewUserOk(w.config, w.state, w.clock);
      MaterialisedOk(w.config, w.state, before, w.clock);
    }
  }

  lemma SharesInOrder(w: World, user: Addr)
    requires Book(w)
    ensures var info := Materialised(w.config, w.state, Lookup(w.users, user));
            info.withdrawnLp <= info.lpShares
  {
    hide LpShare, Incentive, Deposited, Vested;
    NewUserOk(w.config, w.state, w.clock);
    assert UserOk(w.config, w.state, Lookup(w.users, user), w.clock);
  }

  /** The books after a claim: harvest, then settle. */
  ghost function ClaimBooks(w: World, now: nat, user: Addr, lp: nat, rewards: Rewards, pool: Liquidity): World
    requires w.config.vestingDuration > 0
    requires var h := HarvestWorld(w, now, Collected(w.state, rewards));
             Payable(w.config, h.state, Materialised(w.config, w.state, Lookup(w.users, user)), now)
  {
    var h := HarvestWorld(w, now, Collected(w.state, rewards));
    var info := Materialised(w.config, w.state, Lookup(w.users, user));
    SettleWorld(h, user, info, PayoutOf(w.config, h.state, info, now, if lp > 0 then pool else Liquidity(0, 0)), lp)
  }

  lemma SameMaterialised(config: Config, s: State, t: State, user: User)
    requires SameAllocations(s, t)
    ensures Materialised(config, s, user) == Materialised(config, t, user)
  {
    SameShare(s, t, user);
  }

  lemma ClaimBooksSound(w: World, now: nat, user: Addr, withdraw: bool, rewards: Rewards, pool: Liquidity)
    requires Sound(w) && w.clock <= now && ClaimShares(w, now, user, withdraw).Ok?
    ensures var lp := ClaimShares(w, now, user, withdraw).value;
            var h := HarvestWorld(w, now, Collected(w.state, rewards));
            && lp <= Outstanding(w.state)
            && Payable(w.config, h.state, Materialised(w.config, w.state, Lookup(w.users, user)), now)
            && Book(ClaimBooks(w, now, user, lp, rewards, pool))
  {
    hide UserOk, LpShare, Percent, Incentive, Payable, Deposited, MarsClaims, AstroClaims, LpGone;
    var lp := ClaimShares(w, now, user, withdraw).value;
    var h := HarvestWorld(w, now, Collected(w.state, rewards));
    var stored := Lookup(w.users, user);
    ClaimChecks(w, now, user, withdraw);
    HarvestBook(w, now, Collected(w.state, rewards));
    SharesOutstanding(h, user);
    SameMaterialised(w.config, w.state, h.state, stored);
    NewUserOk(h.config, h.state, now);
    MaterialisedOk(h.config, h.state, stored, now);
    AlwaysPayable(h.config, h.state, Materialised(h.config, h.state, stored), now);
    SettleBook(h, user, if lp > 0 then pool else Liquidity(0, 0), lp);
  }

  /** Payments of a claim never exceed the balances: the books after it stay within what was set aside. */
  lemma ClaimFunded(w: World, now: nat, user: Addr, withdraw: bool, rewards: Rewards, pool: Liquidity)
    requires Sound(w) && w.clock <= now && ClaimShares(w, now, user, withdraw).Ok?
    ensures Claim(w, now, user, withdraw, rewards, pool).Ok?
  {
    hide Book, LpShare, Percent, Incentive, Payable, IncentivesPaid, MarsPaid, AstroPaid, VestedAt, Accrued, FromRatio;
    var lp := ClaimShares(w, now, user, withdraw).value;
    ClaimPhase(w);
    ClaimBooksSound(w, now, user, withdraw, rewards, pool);
    var books := ClaimBooks(w, now, user, lp, rewards, pool);
    PaymentsReplace(w.users, user, books.users[user]);
    PaymentsWithin(books);
    OutstandingNonNegative(w);
  }

  /** A claim that passes its checks is paid in full and leaves the world sound. */
  lemma ClaimSound(w: World, now: nat, user: Addr, withdraw: bool, rewards: Rewards, pool: Liquidity)
    requires Sound(w) && w.clock <= now && ClaimShares(w, now, user, withdraw).Ok?
    ensures Claim(w, now, user, withdraw, rewards, pool).Ok?
    ensures Sound(Claim(w, now, user, withdraw, rewards, pool).value.0)
  {
    hide Book, LpShare, Percent, Incentive, Payable, IncentivesPaid;
    hide MarsPaid, AstroPaid, VestedAt, Accrued, FromRatio, ClaimShares;
    ClaimPhase(w);
    ClaimFunded(w, now, user, withdraw, rewards, pool);
    var lp := ClaimShares(w, now, user, withdraw).value;
    ClaimBooksSound(w, now, user, withdraw, rewards, pool);
    var books := ClaimBooks(w, now, user, lp, rewards, pool);
    PaymentsReplace(w.users, user, books.users[user]);
    BookIgnoresLedger(books, Claim(w, now, user, withdraw, rewards, pool).value.0);
  }

  lemma ClaimPhase(w: World)
    requires Book(w)
    ensures ValidConfig(w.config) && !(w.state.single && w.state.dual)
    ensures w.state.lpMinted == 0 ==> !w.state.single && !w.state.dual && w.state.lpWithdrawn == 0
  {
    hide UserOk;
  }

  lemma BookIgnoresLedger(w: World, r: World)
    requires Book(w) && r == w.(ledger := r.ledger, lpDonated := r.lpDonated)
    ensures Book(r)
  {
    hide UserOk, Deposited, Phase;
  }

  // ---------------------------------------------------------------- the other transactions

  lemma UntouchedPayments(w: World, user: Addr, info: User)
    requires Lookup(w.users, user).withdrawnIncentives == info.withdrawnIncentives
    requires Lookup(w.users, user).withdrawnMars == info.withdrawnMars
    requires Lookup(w.users, user).withdrawnAstro == info.withdrawnAstro
    ensures var after := w.users[user := info];
            && Sum(IncentivesPaid(after)) == Sum(IncentivesPaid(w.users))
            && Sum(MarsPaid(after)) == Sum(MarsPaid(w.users))
            && Sum(AstroPaid(after)) == Sum(AstroPaid(w.users))
  {
    PaymentsReplace(w.users, user, info);
  }

  lemma LookupUntouched(w: World, user: Addr)
    requires Book(w) && w.clock <= OpenedTill(w.config)
    ensures Untouched(Lookup(w.users, user)) && w.state.lpMinted == 0
  {
    OpenPhase(w);
  }

  lemma DepositMarsSound(w: World, now: nat, sender: Addr, user: Addr, amount: nat)
    requires Sound(w) && w.clock <= now && DepositMars(w, now, sender, user, amount).Ok?
    ensures Sound(DepositMars(w, now, sender, user, amount).value)
  {
    hide Book, IncentivesPaid, MarsPaid, AstroPaid;
    ClaimPhase(w);
    LookupUntouched(w, user);
    var info := Lookup(w.users, user).(mars := Lookup(w.users, user).mars + amount);
    var r := DepositMars(w, now, sender, user, amount).value;
    DepositBook(w, r, user, info);
    UntouchedPayments(w, user, info);
  }

  lemma DepositUstSound(w: World, now: nat, user: Addr, amount: nat)
    requires Sound(w) && w.clock <= now && DepositUst(w, now, user, amount).Ok?
    ensures Sound(DepositUst(w, now, user, amount).value)
  {
    hide Book, IncentivesPaid, MarsPaid, AstroPaid;
    ClaimPhase(w);
    LookupUntouched(w, user);
    var info := Lookup(w.users, user).(ust := Lookup(w.users, user).ust + amount);
    var r := DepositUst(w, now, user, amount).value;
    DepositBook(w, r, user, info);
    UntouchedPayments(w, user, info);
  }

  /** After the windows nothing can be withdrawn. */
  lemma NoLateWithdrawal(config: Config, now: nat, ust: nat)
    requires now > OpenedTill(config)
    ensures Mul(ust, AllowedWithdrawalPercent(config, now)) == 0
  {
  }

  lemma UstWithinTotal(w: World, user: Addr)
    requires Book(w)
    ensures Lookup(w.users, user).ust <= w.state.totalUst
    ensures Lookup(w.users, user).ust > 0 ==> w.clock >= w.config.init
  {
    hide UserOk, Phase;
    SumContains(UstOf(w.users), user);
    DepositorAfterInit(w, user);
  }

  /** A withdrawal within the limit always succeeds. */
  lemma WithdrawUstSound(w: World, now: nat, user: Addr, amount: nat)
    requires Sound(w) && w.clock <= now
    ensures var info := Lookup(w.users, user);
            var limit := Mul(info.ust, AllowedWithdrawalPercent(w.config, now));
            WithdrawUst(w, now, user, amount).Ok? <==> !info.ustWithdrawn && amount <= limit
    ensures WithdrawUst(w, now, user, amount).Ok? ==> Sound(WithdrawUst(w, now, user, amount).value)
  {
    hide Book, IncentivesPaid, MarsPaid, AstroPaid, AllowedWithdrawalPercent;
    var before := Lookup(w.users, user);
    ClaimPhase(w);
    UstWithinTotal(w, user);
    MulAtMostOne(before.ust, AllowedWithdrawalPercent(w.config, now));
    if now > OpenedTill(w.config) {
      NoLateWithdrawal(w.config, now, before.ust);
    } else {
      LookupUntouched(w, user);
    }
    if WithdrawUst(w, now, user, amount).Ok? {
      var r := WithdrawUst(w, now, user, amount).value;
      UntouchedPayments(w, user, r.users[user]);
      if now > OpenedTill(w.config) {
        MarkBook(w, r.(ledger := w.ledger), user);
        BookIgnoresLedger(r.(ledger := w.ledger), r);
      } else {
        EarlyWithdrawalBook(w, r, user, amount);
      }
    }
  }

  lemma EarlyWithdrawalBook(w: World, r: World, user: Addr, amount: nat)
    requires Book(w) && w.clock <= r.clock <= OpenedTill(w.config)
    requires WithdrawUst(w, r.clock, user, amount) == Ok(r)
    ensures Book(r)
  {
    hide Book, AllowedWithdrawalPercent;
    LookupUntouched(w, user);
    if r.clock >= w.config.init {
      DepositBook(w, r, user, r.users[user]);
    } else {
      NothingBeforeInit(w, r, user, amount);
    }
  }

  /** Before the start nobody has deposited, so a withdrawal changes nothing. */
  lemma NothingBeforeInit(w: World, r: World, user: Addr, amount: nat)
    requires Book(w) && w.clock <= r.clock < w.config.init
    requires WithdrawUst(w, r.clock, user, amount) == Ok(r)
    ensures Book(r)
  {
    hide UserOk, MarsOf, UstOf, LpGone, MarsClaims, AstroClaims, AllowedWithdrawalPercent;
    UstWithinTotal(w, user);
    var info := r.users[user];
    SumsReplace(w.state, w.users, user, info);
    OpenPhase(w);
    forall u | u in r.users ensures UserOk(r.config, r.state, r.users[u], r.clock) {
      EmptyUserOk(w, r, user, u);
    }
    NoClaims(r.state, r.users);
  }

  lemma EmptyUserOk(w: World, r: World, user: Addr, u: Addr)
    requires Book(w) && w.clock <= r.clock < w.config.init
    requires WithdrawUst(w, r.clock, user, 0) == Ok(r) && u in r.users
    ensures UserOk(r.config, r.state, r.users[u], r.clock)
  {
    hide AllowedWithdrawalPercent, Mul, FromRatio, LpShare, Incentive;
    hide Vested, Percent, Deposited, MarsClaims, AstroClaims, LpGone;
    OpenPhase(w);
    NewUserOk(w.config, w.state, r.clock);
    if u in w.users {
      assert UserOk(w.config, w.state, w.users[u], w.clock);
    }
  }

  lemma IncreaseIncentivesSound(w: World, now: nat, amount: nat)
    requires Sound(w) && w.clock <= now && IncreaseIncentives(w, now, amount).Ok?
    ensures Sound(IncreaseIncentives(w, now, amount).value)
  {
    hide Book;
    ClaimPhase(w);
    QuietBook(w, IncreaseIncentives(w, now, amount).value);
  }

  lemma UpdateConfigSound(w: World, now: nat, sender: Addr, owner: Option<Addr>, setPool: bool, setStaking: bool)
    requires Sound(w) && w.clock <= now && UpdateConfig(w, now, sender, owner, setPool, setStaking).Ok?
    ensures Sound(UpdateConfig(w, now, sender, owner, setPool, setStaking).value)
  {
    hide Book;
    QuietBook(w, UpdateConfig(w, now, sender, owner, setPool, setStaking).value);
  }

  lemma DonateSound(w: World, now: nat, gift: Ledger)
    requires Sound(w) && w.clock <= now
    ensures Sound(Donate(w, now, gift))
  {
    hide Book;
    QuietBook(w, Donate(w, now, gift));
  }

  lemma WaitSound(w: World, now: nat)
    requires Sound(w) && w.clock <= now
    ensures Sound(w.(clock := now))
  {
    hide Book;
    QuietBook(w, w.(clock := now));
  }

  /** The contract always holds the deposits the pool takes. */
  lemma InitPoolSound(w: World, now: nat, sender: Addr, minted: nat)
    requires Sound(w) && w.clock <= now
    ensures InitPool(w, now, sender, minted).Ok? <==>
              && sender == w.config.owner && w.state.lpMinted == 0
              && AreWindowsClosed(w.config, now) && w.config.poolSet
              && minted > 0 && w.state.totalMars > 0 && w.state.totalUst > 0
    ensures InitPool(w, now, sender, minted) != Err(Unfunded)
    ensures InitPool(w, now, sender, minted).Ok? ==> Sound(InitPool(w, now, sender, minted).value)
  {
    hide Book, IncentivesPaid, MarsPaid, AstroPaid;
    ClaimPhase(w);
    PaymentsWithin(w);
    if InitPool(w, now, sender, minted).Ok? {
      StartedAfterInit(w);
      InitPoolBook(w, InitPool(w, now, sender, minted).value, minted);
    }
  }

  lemma StartedAfterInit(w: World)
    requires Book(w)
    ensures w.state.totalMars > 0 || w.state.totalUst > 0 ==> w.clock >= w.config.init
  {
    hide UserOk;
  }

  /** Moving the LP tokens never lacks them, whatever the venue pays. */
  lemma StakeLpSound(w: World, now: nat, sender: Addr, single: bool, dual: bool, rewards: Rewards)
    requires Sound(w) && w.clock <= now
    ensures var r := StakeLp(w, now, sender, single, dual, rewards);
            && r != Err(Underflow) && r != Err(Unfunded)
            && (r.Ok? ==> Sound(r.value))
  {
    hide Book, IncentivesPaid, MarsPaid, AstroPaid;
    ClaimPhase(w);
    OutstandingNonNegative(w);
    var r := StakeLp(w, now, sender, single, dual, rewards);
    if r.Ok? {
      var moving := w.state.single || w.state.dual;
      var h := HarvestWorld(w, now, if moving then Collected(w.state, rewards) else Rewards(0, 0));
      HarvestBook(w, now, if moving then Collected(w.state, rewards) else Rewards(0, 0));
      HarvestNothing(w.state);
      FlagsBook(h, r.value, single, dual);
    }
  }

  lemma HarvestNothing(state: State)
    ensures Harvest(state, Rewards(0, 0)) == state
  {
    if Outstanding(state) > 0 {
      assert FromRatio(0, Outstanding(state)) == 0;
    }
  }

  /** The staking flags play no part in the books. */
  lemma FlagsBook(w: World, r: World, single: bool, dual: bool)
    requires Book(w) && single != dual && w.state.lpMinted > 0
    requires r == w.(ledger := r.ledger, lpDonated := r.lpDonated, state := w.state.(single := single, dual := dual))
    ensures Book(r)
  {
    hide UserOk, MarsClaims, AstroClaims;
    OnlyAllocationsMatter(w.config, w.state, r.state, w.users, w.clock);
  }

  // ---------------------------------------------------------------- whole runs

  /** No transaction ever fails for lack of funds or by subtracting too much. */
  lemma NeverStuck(w: World, now: nat, op: Operation)
    requires Sound(w) && w.clock <= now
    ensures w.config.vestingDuration > 0
    ensures Attempt(w, now, op) != Err(Unfunded) && Attempt(w, now, op) != Err(Underflow)
    ensures Sound(Step(w, now, op))
  {
    hide Sound;
    Configured(w);
    WaitSound(w, now);
    match op
    case OpDepositMars(sender, user, amount) =>
      if DepositMars(w, now, sender, user, amount).Ok? { DepositMarsSound(w, now, sender, user, amount); }
    case OpIncreaseIncentives(amount) =>
      if IncreaseIncentives(w, now, amount).Ok? { IncreaseIncentivesSound(w, now, amount); }
    case OpDepositUst(user, amount) =>
      if DepositUst(w, now, user, amount).Ok? { DepositUstSound(w, now, user, amount); }
    case OpWithdrawUst(user, amount) => WithdrawUstSound(w, now, user, amount);
    case OpInitPool(sender, minted) => InitPoolSound(w, now, sender, minted);
    case OpStakeLp(sender, single, dual, rewards) => StakeLpSound(w, now, sender, single, dual, rewards);
    case OpClaim(user, withdraw, rewards, pool) => ClaimNeverStuck(w, now, user, withdraw, rewards, pool);
    case OpUpdateConfig(sender, owner, setPool, setStaking) =>
      if UpdateConfig(w, now, sender, owner, setPool, setStaking).Ok? {
        UpdateConfigSound(w, now, sender, owner, setPool, setStaking);
      }
    case OpDonate(gift) => DonateSound(w, now, gift);
  }

  lemma Configured(w: World)
    requires Sound(w)
    ensures ValidConfig(w.config)
  {
  }

  /**
   A claim succeeds exactly when the windows are closed, the user has deposited, and it does not
   ask the MARS venue to unbond zero shares.
   */
  lemma ClaimNeverStuck(w: World, now: nat, user: Addr, withdraw: bool, rewards: Rewards, pool: Liquidity)
    requires Sound(w) && w.clock <= now
    ensures ValidConfig(w.config)
    ensures var stored := Lookup(w.users, user);
            var info := Materialised(w.config, w.state, stored);
            Claim(w, now, user, withdraw, rewards, pool).Ok? <==>
              && AreWindowsClosed(w.config, now)
              && (stored.mars > 0 || stored.ust > 0)
              && !(w.state.single && withdraw && info.withdrawnLp == info.lpShares)
    ensures var r := Claim(w, now, user, withdraw, rewards, pool);
            && r != Err(Unfunded) && r != Err(Underflow)
            && (r.Ok? ==> Sound(r.value.0))
  {
    hide Sound, LpShare, Incentive;
    Configured(w);
    ClaimChecks(w, now, user, withdraw);
    if ClaimShares(w, now, user, withdraw).Ok? {
      ClaimSound(w, now, user, withdraw, rewards, pool);
    }
  }

  ghost predicate Timed(clock: nat, calls: seq<(nat, Operation)>) {
    && (calls != [] ==> clock <= calls[0].0)
    && (forall i, j :: 0 <= i < j < |calls| ==> calls[i].0 <= calls[j].0)
  }

  ghost function Run(w: World, calls: seq<(nat, Operation)>): World
    requires Sound(w) && Timed(w.clock, calls)
    decreases |calls|
  {
    hide Sound, Attempt, Step;
    if calls == [] then w
    else
      NeverStuck(w, calls[0].0, calls[0].1);
      StepClock(w, calls[0].0, calls[0].1);
      Run(Step(w, calls[0].0, calls[0].1), calls[1..])
  }

  lemma StepClock(w: World, now: nat, op: Operation)
    requires w.config.vestingDuration > 0
    ensures Step(w, now, op).clock == now
  {
    hide LpShare, Incentive, Percent, Payable, PayoutOf, AllowedWithdrawalPercent;
  }

  lemma {:induction false} RunSound(w: World, calls: seq<(nat, Operation)>)
    requires Sound(w) && Timed(w.clock, calls)
    ensures Sound(Run(w, calls))
    decreases |calls|
  {
    hide Sound;
    if calls != [] {
      NeverStuck(w, calls[0].0, calls[0].1);
      StepClock(w, calls[0].0, calls[0].1);
      RunSound(Step(w, calls[0].0, calls[0].1), calls[1..]);
    }
  }

  lemma InstantiatedSound(config: Config, now: nat)
    requires ValidConfig(config) && config.marsRewards == 0
    ensures Sound(Instantiated(config, now))
  {
    InstantiatedBook(config, now);
  }
}
