/**
 Where every token of the auction is, exactly. Module `AuctionSolvency` needs balances to be large enough;
 here they are equal to what came in less what went out, so that nothing stays behind unaccounted for.
 */
module AuctionBalances {
  import opened Decimals
  import opened Sums
  import opened Wrappers
  import opened Auction
  import opened AuctionBook
  import opened AuctionSolvency

  /** What was given away to the contract during a run. */
  function Add(a: Ledger, b: Ledger): Ledger {
    Ledger(a.mars + b.mars, a.astro + b.astro, a.ust + b.ust, a.lp + b.lp, 0, 0)
  }

  function GiftOf(op: Operation): Ledger {
    if op.OpDonate? then op.gift else Ledger(0, 0, 0, 0, 0, 0)
  }

  function Gifts(calls: seq<(nat, Operation)>, gifts: Ledger): Ledger {
    if calls == [] then gifts else Gifts(calls[1..], Add(gifts, GiftOf(calls[0].1)))
  }

  /**
   MARS held and paid to users is what was set aside, received and given, and the deposits until the pool
   takes them; likewise ASTRO, UST and LP tokens.
   */
  ghost predicate Balances(w: World, gifts: Ledger) {
    && w.ledger.mars + Sum(IncentivesPaid(w.users)) + Sum(MarsPaid(w.users))
       == w.config.marsRewards + w.received.mars + gifts.mars + (if w.state.lpMinted == 0 then w.state.totalMars else 0)
    && w.ledger.astro + Sum(AstroPaid(w.users)) == w.received.astro + gifts.astro
    && w.ledger.ust == gifts.ust + (if w.state.lpMinted == 0 then w.state.totalUst else 0)
    && w.ledger.lp + w.ledger.lpStaking + w.ledger.lpGenerator + w.state.lpWithdrawn == w.state.lpMinted + gifts.lp
  }

  lemma ClaimBalances(w: World, now: nat, user: Addr, withdraw: bool, rewards: Rewards, pool: Liquidity, gifts: Ledger)
    requires Balances(w, gifts) && w.config.vestingDuration > 0
    requires Claim(w, now, user, withdraw, rewards, pool).Ok?
    ensures Balances(Claim(w, now, user, withdraw, rewards, pool).value.0, gifts)
  {
    hide IncentivesPaid, MarsPaid, AstroPaid, LpShare, Incentive, VestedAt, Accrued, FromRatio, Payable, Sum;
    var r := Claim(w, now, user, withdraw, rewards, pool).value.0;
    PaymentsReplace(w.users, user, r.users[user]);
  }

  lemma WithdrawBalances(w: World, now: nat, user: Addr, amount: nat, gifts: Ledger)
    requires Sound(w) && w.clock <= now && Balances(w, gifts) && WithdrawUst(w, now, user, amount).Ok?
    ensures Balances(WithdrawUst(w, now, user, amount).value, gifts)
  {
    hide IncentivesPaid, MarsPaid, AstroPaid, AllowedWithdrawalPercent, Sum, Book;
    var r := WithdrawUst(w, now, user, amount).value;
    UntouchedPayments(w, user, r.users[user]);
    if w.state.lpMinted > 0 {
      PoolAfterWindows(w);
      NoLateWithdrawal(w.config, now, Lookup(w.users, user).ust);
    }
  }

  lemma PoolAfterWindows(w: World)
    requires Book(w) && w.state.lpMinted > 0
    ensures w.clock > OpenedTill(w.config)
  {
    hide UserOk, Deposited;
  }

  lemma DepositBalances(w: World, now: nat, op: Operation, gifts: Ledger)
    requires Sound(w) && w.clock <= now && Balances(w, gifts) && w.config.vestingDuration > 0
    requires (op.OpDepositMars? || op.OpDepositUst?) && Attempt(w, now, op).Ok?
    ensures Balances(Attempt(w, now, op).value, gifts)
  {
    hide IncentivesPaid, MarsPaid, AstroPaid, Sum, Book;
    var r := Attempt(w, now, op).value;
    UntouchedPayments(w, op.user, r.users[op.user]);
    Configured(w);
    if w.state.lpMinted > 0 {
      PoolAfterWindows(w);
    }
  }

  lemma StakeBalances(w: World, now: nat, sender: Addr, single: bool, dual: bool, rewards: Rewards, gifts: Ledger)
    requires Balances(w, gifts) && StakeLp(w, now, sender, single, dual, rewards).Ok?
    ensures Balances(StakeLp(w, now, sender, single, dual, rewards).value, gifts)
  {
    hide IncentivesPaid, MarsPaid, AstroPaid, Sum, FromRatio;
  }

  /** Every transaction keeps the balances exactly. */
  lemma StepBalances(w: World, now: nat, op: Operation, gifts: Ledger)
    requires Sound(w) && w.clock <= now && Balances(w, gifts) && w.config.vestingDuration > 0
    ensures Balances(Step(w, now, op), Add(gifts, GiftOf(op)))
  {
    hide Sound, IncentivesPaid, MarsPaid, AstroPaid, Sum, DepositMars, DepositUst, WithdrawUst, StakeLp, Claim;
    match op
    case OpDepositMars(_, _, _) => if Attempt(w, now, op).Ok? { DepositBalances(w, now, op, gifts); }
    case OpDepositUst(_, _) => if Attempt(w, now, op).Ok? { DepositBalances(w, now, op, gifts); }
    case OpWithdrawUst(user, amount) =>
      if Attempt(w, now, op).Ok? { WithdrawBalances(w, now, user, amount, gifts); }
    case OpStakeLp(sender, single, dual, rewards) =>
      if Attempt(w, now, op).Ok? { StakeBalances(w, now, sender, single, dual, rewards, gifts); }
    case OpClaim(user, withdraw, rewards, pool) =>
      if Attempt(w, now, op).Ok? { ClaimBalances(w, now, user, withdraw, rewards, pool, gifts); }
    case _ =>
  }

  lemma {:induction false} RunBalances(w: World, calls: seq<(nat, Operation)>, gifts: Ledger)
    requires Sound(w) && Timed(w.clock, calls) && Balances(w, gifts)
    ensures Balances(Run(w, calls), Gifts(calls, gifts))
    decreases |calls|
  {
    hide Sound, Balances, Step;
    if calls != [] {
      Configured(w);
      NeverStuck(w, calls[0].0, calls[0].1);
      StepClock(w, calls[0].0, calls[0].1);
      StepBalances(w, calls[0].0, calls[0].1, gifts);
      RunBalances(Step(w, calls[0].0, calls[0].1), calls[1..], Add(gifts, GiftOf(calls[0].1)));
    }
  }

  /** In every reachable world every token is accounted for, to the unit. */
  lemma AlwaysBalanced(config: Config, now: nat, calls: seq<(nat, Operation)>)
    requires ValidConfig(config) && config.marsRewards == 0 && Timed(now, calls)
    ensures Sound(Instantiated(config, now))
    ensures Balances(Run(Instantiated(config, now), calls), Gifts(calls, Ledger(0, 0, 0, 0, 0, 0)))
  {
    hide Sound, Balances;
    InstantiatedSound(config, now);
    InstantiatedBalances(config, now);
    RunBalances(Instantiated(config, now), calls, Ledger(0, 0, 0, 0, 0, 0));
  }

  lemma InstantiatedBalances(config: Config, now: nat)
    requires config.marsRewards == 0
    ensures Balances(Instantiated(config, now), Ledger(0, 0, 0, 0, 0, 0))
  {
  }
}
