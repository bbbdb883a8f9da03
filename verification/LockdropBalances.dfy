/**
 Where every token of the lockdrop is, exactly. The invariant needs balances to be large enough; here they are
 equal to what came in less what went out, so that nothing stays behind unaccounted for.
 */
module LockdropBalances {
  import opened Decimals
  import opened Sums
  import opened Wrappers
  import opened Lockdrop
  import opened LockdropBook
  import opened LockdropRun

  /** UST is held until the Red Bank takes it, maUST until it is paid out, MARS until it is sent or delegated. */
  ghost predicate Balances(w: World) {
    && w.ledger.ust == (if w.state.finalMaUst == 0 then w.state.totalUst else 0)
    && (w.state.finalMaUst > 0 ==> w.state.totalUst == 0)
    && w.ledger.maUst == w.state.totalMaUst
    && w.ledger.mars + Sum(w.marsOut) == w.config.incentives
  }

  lemma PaidSum(paid: map<Addr, nat>, user: Addr, amount: nat)
    ensures Sum(paid[user := Get(paid, user) + amount]) == Sum(paid) + amount
  {
    SumUpdate(paid, user, Get(paid, user) + amount);
  }

  lemma ClosedAfterDeposit(w: World, now: nat)
    requires Sound(w) && w.clock <= now
    ensures w.state.finalMaUst > 0 ==> !IsDepositOpen(w.config, now) && !IsWithdrawOpen(w.config, now)
    ensures w.state.finalMaUst == 0 ==> w.state.totalMaUst == 0
  {
    hide Placed, Mars;
  }

  lemma DelegateBalances(w: World, now: nat, user: Addr, amount: nat)
    requires Balances(w) && DelegateMars(w, now, user, amount).Ok?
    ensures Balances(DelegateMars(w, now, user, amount).value)
  {
    hide MaUstShare, Rewards, Rewarded, Sum;
    PaidSum(w.marsOut, user, amount);
  }

  lemma ClaimBalances(w: World, now: nat, user: Addr, unlock: Option<nat>, accrued: nat)
    requires Balances(w) && Claim(w, now, user, unlock, accrued).Ok?
    ensures Balances(Claim(w, now, user, unlock, accrued).value)
  {
    hide MaUstShare, Rewards, Rewarded, PayXMars, PayMars, Dissolve;
    var m := Materialised(w, user);
    XMarsBalances(m, user, accrued);
    var x := PayXMars(m, user, accrued).value;
    MarsBalances(x, user);
    if unlock.Some? {
      DissolveBalances(PayMars(x, user).value, user, unlock.value);
    }
  }

  lemma XMarsBalances(w: World, user: Addr, accrued: nat)
    requires user in w.users && Balances(w) && PayXMars(w, user, accrued).Ok?
    ensures Balances(PayXMars(w, user, accrued).value) && user in PayXMars(w, user, accrued).value.users
  {
    hide XMarsDue, IndexAfter;
  }

  lemma MarsBalances(w: World, user: Addr)
    requires user in w.users && Balances(w) && PayMars(w, user).Ok?
    ensures Balances(PayMars(w, user).value)
  {
    hide Sum;
    PaidSum(w.marsOut, user, w.users[user].incentives - w.users[user].delegated);
  }

  lemma DissolveBalances(w: World, user: Addr, duration: nat)
    requires Balances(w) && Dissolve(w, user, duration).Ok?
    ensures Balances(Dissolve(w, user, duration).value)
  {
    hide MaUstShare, Without;
  }

  lemma {:induction false} NukeBalances(w: World, page: seq<Addr>)
    requires Balances(w) && Nuke(w, page).Ok?
    ensures Balances(Nuke(w, page).value)
    decreases |page|
  {
    hide NukeUser;
    if page != [] {
      NukeUserBalances(w, page[0]);
      NukeBalances(NukeUser(w, page[0]).value, page[1..]);
    }
  }

  lemma NukeUserBalances(w: World, user: Addr)
    requires Balances(w) && NukeUser(w, user).Ok?
    ensures Balances(NukeUser(w, user).value)
  {
    hide Shares, Locked;
  }

  /** Every transaction keeps the balances exactly. */
  lemma StepBalances(w: World, now: nat, op: Operation)
    requires Sound(w) && w.clock <= now && Balances(w)
    ensures Balances(Step(w, now, op))
  {
    hide Sound, DelegateMars, Claim, Nuke, AllowedWithdrawalPercent, Mul, Weight, Without, BoostFor, Sum;
    ClosedAfterDeposit(w, now);
    match op
    case OpDelegateMars(user, amount) =>
      if DelegateMars(w, now, user, amount).Ok? { DelegateBalances(w, now, user, amount); }
    case OpClaim(user, unlock, accrued) =>
      if Claim(w, now, user, unlock, accrued).Ok? { ClaimBalances(w, now, user, unlock, accrued); }
    case OpNuke(page) => if Nuke(w, page).Ok? { NukeBalances(w, page); }
    case _ =>
  }

  lemma {:induction false} RunBalances(w: World, calls: seq<(nat, Operation)>)
    requires Sound(w) && Balances(w) && AllowedRun(w, calls)
    ensures Balances(Run(w, calls))
    decreases |calls|
  {
    hide Sound, Balances, Step;
    if calls != [] {
      StepSound(w, calls[0].0, calls[0].1);
      StepBalances(w, calls[0].0, calls[0].1);
      RunBalances(Step(w, calls[0].0, calls[0].1), calls[1..]);
    }
  }

  lemma InstantiatedBalances(config: Config, now: nat)
    requires config.incentives == 0
    ensures Balances(Instantiated(config, now))
  {
  }

  /** After any run every UST, maUST and MARS is accounted for, to the unit. */
  lemma AlwaysBalanced(config: Config, start: nat, calls: seq<(nat, Operation)>)
    requires ValidConfig(config) && config.incentives == 0 && AllowedRun(Instantiated(config, start), calls)
    ensures Balances(Run(Instantiated(config, start), calls))
  {
    hide Sound, Balances;
    InstantiatedSound(config, start);
    InstantiatedBalances(config, start);
    RunBalances(Instantiated(config, start), calls);
  }
}
