/** The lockdrop over whole runs: every transaction keeps the books, and what that means for its users. */
module LockdropRun {
  import opened Decimals
  import opened Sums
  import opened Wrappers
  import opened Lockdrop
  import opened LockdropBook
  import opened LockdropSolvency
  import opened LockdropClaims
  import opened LockdropUnwind

  /**
   Claims are not enabled before the start, when the windows count as closed, and no position is
   unwound in a batch before the Red Bank deposit.
   */
  predicate InSeason(w: World, now: nat, op: Operation) {
    && (op.OpEnableClaims? && w.config.auction == Some(op.sender) && !w.state.claimsAllowed ==> w.config.init <= now)
    && (op.OpNuke? ==> w.state.finalMaUst > 0 || NothingListed(w, op.page))
  }

  predicate Allowed(w: World, now: nat, op: Operation) {
    w.clock <= now && InSeason(w, now, op)
  }

  /** Every transaction keeps the books, and apart from batches none lacks UST, maUST or MARS. */
  lemma StepSound(w: World, now: nat, op: Operation)
    requires Sound(w) && Allowed(w, now, op)
    ensures Sound(Step(w, now, op))
    ensures !op.OpNuke? ==> Attempt(w, now, op) != Err(Underflow) && Attempt(w, now, op) != Err(Unfunded)
  {
    hide Sound, DepositUst, WithdrawUst, IncreaseIncentives, EnableClaims;
    hide DepositInRedBank, DelegateMars, Claim, UpdateConfig, Nuke;
    WaitSound(w, now);
    match op {
      case OpDepositUst(user, duration, amount) =>
        NeverShort(w, now, op);
        if DepositUst(w, now, user, duration, amount).Ok? {
          DepositSound(w, now, user, duration, amount);
        }
      case OpWithdrawUst(user, duration, amount) =>
        WithdrawFunded(w, now, user, duration, amount);
        if WithdrawUst(w, now, user, duration, amount).Ok? {
          WithdrawSound(w, now, user, duration, amount, WithdrawUst(w, now, user, duration, amount).value);
        }
      case OpIncreaseIncentives(amount) =>
        NeverShort(w, now, op);
        if IncreaseIncentives(w, now, amount).Ok? {
          IncreaseIncentivesSound(w, now, amount);
        }
      case OpEnableClaims(sender) =>
        NeverShort(w, now, op);
        EnabledBy(w, now, sender);
        if EnableClaims(w, now, sender).Ok? {
          EnableClaimsSound(w, now, sender);
        }
      case OpDepositInRedBank(sender, minted) =>
        RedBankFunded(w, now, sender, minted);
        NeverShort(w, now, op);
        if DepositInRedBank(w, now, sender, minted).Ok? {
          RedBankSound(w, now, sender, minted);
        }
      case OpDelegateMars(user, amount) =>
        DelegateSound(w, now, user, amount);
      case OpClaim(user, unlock, accrued) =>
        ClaimSound(w, now, user, unlock, accrued);
      case OpNuke(page) =>
        NukeSound(w, page);
        if Nuke(w, page).Ok? {
          NukeClock(w, page);
          WaitSound(Nuke(w, page).value, now);
        }
      case OpUpdateConfig(sender, owner, auction, setProvider, setMaUst) =>
        NeverShort(w, now, op);
        if UpdateConfig(w, now, sender, owner, auction, setProvider, setMaUst).Ok? {
          UpdateConfigSound(w, now, sender, owner, auction, setProvider, setMaUst);
        }
    }
  }

  lemma EnabledBy(w: World, now: nat, sender: Addr)
    ensures EnableClaims(w, now, sender).Ok? ==> w.config.auction == Some(sender) && !w.state.claimsAllowed
  {
  }

  /** Transactions that send nothing, and subtract nothing, are never short. */
  lemma NeverShort(w: World, now: nat, op: Operation)
    requires op.OpDepositUst? || op.OpIncreaseIncentives? || op.OpEnableClaims? || op.OpUpdateConfig?
             || op.OpDepositInRedBank?
    ensures Attempt(w, now, op) != Err(Underflow)
    ensures Attempt(w, now, op) == Err(Unfunded) ==> op.OpDepositInRedBank?
  {
    hide Weight;
  }

  lemma {:induction false} NukeClock(w: World, page: seq<Addr>)
    ensures Nuke(w, page).Ok? ==> Nuke(w, page).value.clock == w.clock && Nuke(w, page).value.config == w.config
    decreases |page|
  {
    hide NukeUser;
    if page != [] && NukeUser(w, page[0]).Ok? {
      NukeUserClock(w, page[0]);
      NukeClock(NukeUser(w, page[0]).value, page[1..]);
    }
  }

  lemma NukeUserClock(w: World, user: Addr)
    requires NukeUser(w, user).Ok?
    ensures var r := NukeUser(w, user).value; r.clock == w.clock && r.config == w.config
    ensures var r := NukeUser(w, user).value; r.state == w.state.(totalMaUst := r.state.totalMaUst)
  {
    hide Shares, Locked;
  }

  lemma StepClock(w: World, now: nat, op: Operation)
    ensures Step(w, now, op).clock == now
  {
    hide Weight, Mul, FromRatio, AllowedWithdrawalPercent, Without;
    hide Rewards, Rewarded, MaUstShare, Materialised, Callbacks, Nuke;
  }

  // ---------------------------------------------------------------- runs

  /** A run of transactions, each attempted at its own time under the conditions of `Allowed`. */
  ghost predicate AllowedRun(w: World, calls: seq<(nat, Operation)>)
    decreases |calls|
  {
    calls != [] ==>
      && Allowed(w, calls[0].0, calls[0].1)
      && AllowedRun(Step(w, calls[0].0, calls[0].1), calls[1..])
  }

  ghost function Run(w: World, calls: seq<(nat, Operation)>): World
    decreases |calls|
  {
    if calls == [] then w else Run(Step(w, calls[0].0, calls[0].1), calls[1..])
  }

  lemma {:induction false} RunSound(w: World, calls: seq<(nat, Operation)>)
    requires Sound(w) && AllowedRun(w, calls)
    ensures Sound(Run(w, calls))
    decreases |calls|
  {
    hide Sound, Step, Allowed;
    if calls != [] {
      StepSound(w, calls[0].0, calls[0].1);
      RunSound(Step(w, calls[0].0, calls[0].1), calls[1..]);
    }
  }

  function IncentivesOf(users: Users): map<Addr, nat> {
    map u | u in users :: users[u].incentives
  }

  /**
   What users can rely on after any run: maUST left covers the shares of all live positions and
   never more than was minted is paid; MARS allotted, and MARS sent, stay within the incentives; no
   user is sent more than its own.
   */
  ghost predicate Covered(w: World) {
    && Sum(Shares(w.state, w.lockups)) <= w.state.totalMaUst <= w.ledger.maUst
    && Sum(w.maUstPaid) + w.state.totalMaUst == w.state.finalMaUst
    && Sum(IncentivesOf(w.users)) <= w.config.incentives
    && Sum(w.marsOut) <= w.config.incentives <= w.ledger.mars + Sum(w.marsOut)
    && w.ledger.xmars + Sum(w.xmarsPaid) == w.xmarsReceived
    && (forall u :: u in w.users ==> w.users[u].delegated <= Get(w.marsOut, u) <= w.users[u].incentives)
    && (forall u :: u in w.users && w.users[u].maUstShare > 0 ==>
          SumSeq(w.users[u].positions, Shares(w.state, w.lockups)) <= w.users[u].maUstShare)
    && (w.state.finalMaUst == 0 ==>
          && Sum(Locked(w.lockups)) == w.state.totalUst <= w.ledger.ust
          && Sum(Weights(w.config, w.lockups)) == w.state.totalWeight)
  }

  lemma SoundIsCovered(w: World)
    requires Sound(w)
    ensures Covered(w)
  {
    hide Shares, Locked, Rewards, Placed, Weights;
    forall u | u in w.users
      ensures w.users[u].delegated <= Get(w.marsOut, u) <= w.users[u].incentives
      ensures w.users[u].maUstShare > 0 ==>
                SumSeq(w.users[u].positions, Shares(w.state, w.lockups)) <= w.users[u].maUstShare
    {
      assert UserAmounts(w.state, w.lockups, w.users[u]);
      assert UserMars(w.config, w.state, w.users[u], Get(w.marsOut, u), w.clock);
    }
    SumMonotone(IncentivesOf(w.users), Committed(w));
    SentWithin(w);
    WeightsCovered(w);
  }

  ghost function Along(users: Users, m: map<LockupId, nat>): map<Addr, nat> {
    map u | u in users :: SumSeq(users[u].positions, m)
  }

  /** Summing along every user's list is summing over all positions, if each is listed by its owner. */
  lemma {:induction false} ListsCover(users: Users, m: map<LockupId, nat>)
    requires forall u :: u in users ==>
               Distinct(users[u].positions) && forall id :: id in users[u].positions ==> id.owner == u
    requires forall id :: id in m ==> id.owner in users && id in users[id.owner].positions
    ensures Sum(Along(users, m)) == Sum(m)
    decreases |users|
  {
    if users == map[] {
      assert m == map[] && Along(users, m) == map[];
    } else {
      var u :| u in users;
      var rest, ids := users - {u}, set id | id in users[u].positions;
      assert rest.Keys == users.Keys - {u} && |rest.Keys| < |users.Keys|;
      ListsCover(rest, m - ids);
      AlongRest(users, m, u);
      hide Sum;
      SumRemove(Along(users, m), u);
      SumDropSeq(users[u].positions, m);
    }
  }

  /** The other users' lists do not touch the positions of `u`. */
  lemma AlongRest(users: Users, m: map<LockupId, nat>, u: Addr)
    requires forall v :: v in users ==> forall id :: id in users[v].positions ==> id.owner == v
    requires u in users
    ensures Along(users - {u}, m - (set id | id in users[u].positions)) == Along(users, m) - {u}
  {
    var rest, ids := users - {u}, set id | id in users[u].positions;
    forall v | v in rest ensures SumSeq(rest[v].positions, m - ids) == SumSeq(users[v].positions, m) {
      SumSeqSame(users[v].positions, m, m - ids);
    }
  }

  lemma WeightsCovered(w: World)
    requires Sound(w)
    ensures w.state.finalMaUst == 0 ==> Sum(Weights(w.config, w.lockups)) == w.state.totalWeight
  {
    hide Mars, Weight, UserAmounts;
    PlacedCovers(w.config, w.users, w.lockups);
    hide Placed, Weights, Shares, Locked;
    assert UserWeights(w.config, w.users, w.lockups) == Along(w.users, Weights(w.config, w.lockups));
  }

  lemma PlacedCovers(config: Config, users: Users, lockups: Lockups)
    requires Placed(config, users, lockups)
    ensures Sum(Along(users, Weights(config, lockups))) == Sum(Weights(config, lockups))
  {
    hide Weight;
    forall u | u in users
      ensures Distinct(users[u].positions) && forall id :: id in users[u].positions ==> id.owner == u {
      assert Owned(u, users[u], lockups);
    }
    forall id | id in lockups ensures id.owner in users && id in users[id.owner].positions {
      assert Registered(config, users, id, lockups[id]);
    }
    ListsCover(users, Weights(config, lockups));
  }

  lemma SentWithin(w: World)
    requires Sound(w)
    ensures Sum(w.marsOut) <= w.config.incentives
  {
    hide Rewards, Placed, Amounts;
    forall u | u in w.marsOut ensures w.marsOut[u] <= Get(Committed(w), u) {
      if u in w.users {
        assert UserMars(w.config, w.state, w.users[u], Get(w.marsOut, u), w.clock);
      }
    }
    SumMonotone(w.marsOut, Committed(w));
  }

  lemma AlwaysCovered(config: Config, start: nat, calls: seq<(nat, Operation)>)
    requires ValidConfig(config) && config.incentives == 0
    requires AllowedRun(Instantiated(config, start), calls)
    ensures Covered(Run(Instantiated(config, start), calls))
  {
    InstantiatedSound(config, start);
    RunSound(Instantiated(config, start), calls);
    hide Sound;
    SoundIsCovered(Run(Instantiated(config, start), calls));
  }
}
