/**
 Conservation over whole runs of the LP staking contract. An audit follows every call and keeps
 what the contract itself forgets: the MARS each staker has been sent, the exact rewards it has
 earned (in atomics), its number of bond and unbond calls, and the rewards put into the index.
 */
module StakingAudit {
  import opened Decimals
  import opened Sums
  import opened Wrappers
  import opened Emission
  import opened LpStaking

  datatype Operation =
    | Bond(user: Addr, amount: nat)
    | Unbond(user: Addr, amount: nat, withdraw: bool)
    | Claim(user: Addr)
    | Update(sender: Addr, change: Change)

  /**
   `moves` counts bond and unbond calls; `gained` and `lost` add up, over these calls, the fractions of
   the new and of the old bond times the index, which the contract drops.
   */
  datatype Record = Record(claimed: nat, exact: nat, moves: nat, gained: nat, lost: nat)

  const NEW_RECORD := Record(0, 0, 0, 0, 0)

  datatype Audit = Audit(records: map<Addr, Record>, indexed: nat)

  datatype World = World(store: Store, audit: Audit, clock: nat)

  // ---------------------------------------------------------------- one call

  function RecordOf(audit: Audit, user: Addr): Record {
    if user in audit.records then audit.records[user] else NEW_RECORD
  }

  function Keep(audit: Audit, user: Addr, record: Record): Audit {
    audit.(records := audit.records[user := record])
  }

  /** The exact growth of a staker's share, in atomics, since it was last settled. */
  function Growth(staker: Staker, index: Decimal): nat {
    if staker.bond > 0 && staker.index <= index then staker.bond * (index - staker.index) else 0
  }

  ghost function AccrueWorld(w: World, now: nat): World
    requires ValidAt(w.store, now)
  {
    World(Accrue(w.store, now),
          w.audit.(indexed := w.audit.indexed + Indexed(w.store.config, w.store.state, now)),
          now)
  }

  ghost function SettleWorld(w: World, user: Addr): (r: World)
    requires ValidAt(w.store, w.clock)
    ensures ValidAt(r.store, r.clock)
    ensures user in r.store.stakers && r.store.stakers[user].index == r.store.state.globalRewardIndex
  {
    var record := RecordOf(w.audit, user);
    var growth := Growth(Lookup(w.store.stakers, user), w.store.state.globalRewardIndex);
    w.(store := SettleUser(w.store, w.clock, user),
       audit := Keep(w.audit, user, record.(exact := record.exact + growth)))
  }

  function Moved(record: Record, staker: Staker, bond: nat): Record {
    record.(moves := record.moves + 1,
            gained := record.gained + Fraction(bond, staker.index),
            lost := record.lost + Fraction(staker.bond, staker.index))
  }

  ghost function RebondWorld(w: World, user: Addr, bond: nat): World
    requires ValidAt(w.store, w.clock)
    requires user in w.store.stakers && w.store.stakers[user].index == w.store.state.globalRewardIndex
  {
    w.(store := Rebond(w.store, w.clock, user, bond),
       audit := Keep(w.audit, user, Moved(RecordOf(w.audit, user), w.store.stakers[user], bond)))
  }

  ghost function PayWorld(w: World, user: Addr): World
    requires ValidAt(w.store, w.clock) && user in w.store.stakers
  {
    var record := RecordOf(w.audit, user);
    w.(store := Pay(w.store, w.clock, user),
       audit := Keep(w.audit, user, record.(claimed := record.claimed + w.store.stakers[user].pending)))
  }

  ghost function BondWorld(w: World, now: nat, user: Addr, amount: nat): World
    requires ValidAt(w.store, now)
  {
    RebondWorld(SettleWorld(AccrueWorld(w, now), user), user, Lookup(w.store.stakers, user).bond + amount)
  }

  ghost function UnbondWorld(w: World, now: nat, user: Addr, amount: nat, withdraw: bool): World
    requires ValidAt(w.store, now)
  {
    if AfterUnbond(w.store, now, user, amount, withdraw).Err? then w.(clock := now)
    else
      var bond := Lookup(w.store.stakers, user).bond - amount;
      var moved := RebondWorld(SettleWorld(AccrueWorld(w, now), user), user, bond);
      if withdraw then PayWorld(moved, user) else moved
  }

  ghost function ClaimWorld(w: World, now: nat, user: Addr): World
    requires ValidAt(w.store, now)
  {
    if AfterClaim(w.store, now, user).Err? then w.(clock := now)
    else PayWorld(SettleWorld(AccrueWorld(w, now), user), user)
  }

  ghost function UpdateWorld(w: World, now: nat, sender: Addr, change: Change): World
    requires ValidAt(w.store, now)
  {
    var r := AfterUpdate(w.store, now, sender, change);
    if r.Err? then w.(clock := now) else AccrueWorld(w, now).(store := r.value)
  }

  /** A rejected call changes nothing but the time. */
  ghost function Step(w: World, now: nat, op: Operation): (r: World)
    requires ValidAt(w.store, now)
    ensures ValidAt(r.store, now) && r.clock == now
  {
    match op
    case Bond(user, amount) => BondWorld(w, now, user, amount)
    case Unbond(user, amount, withdraw) => UnbondWorld(w, now, user, amount, withdraw)
    case Claim(user) => ClaimWorld(w, now, user)
    case Update(sender, change) => UpdateWorld(w, now, sender, change)
  }

  /** The audit follows the contract: its store is the one the handlers leave. */
  lemma StepFollowsHandlers(w: World, now: nat, op: Operation)
    requires ValidAt(w.store, now)
    ensures Step(w, now, op).store ==
            match op
            case Bond(user, amount) => AfterBond(w.store, now, user, amount)
            case Unbond(user, amount, withdraw) =>
              (match AfterUnbond(w.store, now, user, amount, withdraw) case Ok(r) => r.0 case Err(_) => w.store)
            case Claim(user) =>
              (match AfterClaim(w.store, now, user) case Ok(r) => r.0 case Err(_) => w.store)
            case Update(sender, change) =>
              (match AfterUpdate(w.store, now, sender, change) case Ok(r) => r case Err(_) => w.store)
  {
    hide ValidAt, Valid, Ready, Rebond, SettleUser;
  }

  // ---------------------------------------------------------------- the invariant

  function Received(staker: Staker, record: Record): nat {
    record.claimed + staker.pending
  }

  /**
   What a staker has received differs from its exact earnings by fractions alone: those dropped at
   its bond and unbond calls, each less than one unit, and the one open at its current bond.
   */
  predicate Fair(staker: Staker, record: Record) {
    && Received(staker, record) * ONE + Fraction(staker.bond, staker.index) + record.lost
       == record.exact + record.gained
    && record.gained <= record.moves * (ONE - 1)
    && (record.moves > 0 ==> record.lost + (ONE - 1) <= record.moves * (ONE - 1))
    && (record.moves == 0 ==> staker.bond == 0 && record.lost == 0)
  }

  /** The settled and unsettled exact earnings of a staker. */
  function Earning(staker: Staker, record: Record, index: Decimal): nat {
    record.exact + Growth(staker, index)
  }

  ghost function Earned(w: World): map<Addr, nat> {
    map u | u in w.store.stakers :: Earning(w.store.stakers[u], RecordOf(w.audit, u), w.store.state.globalRewardIndex)
  }

  ghost predicate Balanced(w: World) {
    && ValidAt(w.store, w.clock)
    && w.audit.records.Keys == w.store.stakers.Keys
    && (forall u :: u in w.store.stakers ==> Fair(w.store.stakers[u], w.audit.records[u]))
    && Sum(Earned(w)) <= w.audit.indexed * ONE
  }

  /** What the index hands out for one unit of total bond, taken over all bonds. */
  lemma IndexStepCovered(store: Store, now: nat)
    requires ValidAt(store, now)
    ensures var step := Accrued(store.config, store.state, now).globalRewardIndex - store.state.globalRewardIndex;
            store.state.totalBondAmount * step <= Indexed(store.config, store.state, now) * ONE
  {
    hide Schedule, RewardAfter, CyclesElapsed, Synced;
    if store.state.totalBondAmount > 0 {
      NothingLeft(store.config, store.state, now);
    }
  }

  lemma NothingLeft(config: Config, state: State, now: nat)
    requires Ready(config, state, now)
    ensures state.lastDistributed == config.till ==> Accrued(config, state, now) == state
  {
    hide Schedule;
  }

  lemma EarnedGrows(w: World, r: World, step: Decimal)
    requires r.store.stakers == w.store.stakers && r.audit.records == w.audit.records
    requires r.store.state.globalRewardIndex == w.store.state.globalRewardIndex + step
    requires forall u :: u in w.store.stakers ==> Behind(w.store.stakers[u], w.store.state.globalRewardIndex)
    ensures Sum(Earned(r)) == Sum(Earned(w)) + Sum(Scaled(Bonds(w.store.stakers), step))
  {
    hide Growth;
    var grown := Scaled(Bonds(w.store.stakers), step);
    forall u | u in w.store.stakers ensures Earned(r)[u] == Earned(w)[u] + grown[u] {
      GrowthSplits(w.store.stakers[u], w.store.state.globalRewardIndex, step);
    }
    SumAdd(Earned(w), grown, Earned(r));
  }

  /** A growth of the index hands out no more than the rewards put into it. */
  lemma AccrueKeepsBalance(w: World, now: nat)
    requires Balanced(w) && w.clock <= now
    requires ValidAt(w.store, now)
    ensures Balanced(AccrueWorld(w, now))
  {
    hide Fair, Growth, Indexed, Ready, Earned;
    var r := AccrueWorld(w, now);
    var step := r.store.state.globalRewardIndex - w.store.state.globalRewardIndex;
    EarnedGrows(w, r, step);
    SumScaled(Bonds(w.store.stakers), step);
    IndexStepCovered(w.store, now);
  }

  lemma GrowthSplits(staker: Staker, index: Decimal, step: Decimal)
    requires Behind(staker, index)
    ensures Growth(staker, index + step) == Growth(staker, index) + staker.bond * step
  {
  }

  lemma SettleIsFair(staker: Staker, index: Decimal, record: Record)
    requires Behind(staker, index) && Fair(staker, record)
    ensures Fair(Settle(staker, index), record.(exact := record.exact + Growth(staker, index)))
    ensures Earning(Settle(staker, index), record.(exact := record.exact + Growth(staker, index)), index)
         == Earning(staker, record, index)
  {
    if staker.bond > 0 {
      assert staker.bond * (index - staker.index) == staker.bond * index - staker.bond * staker.index;
      MulMonotone(staker.bond, staker.bond, staker.index, index);
    }
  }

  /**
   A settlement pays more than the exact growth exactly when the fraction lost before was larger than the
   one lost now.
   */
  lemma SettleRoundsUp(staker: Staker, index: Decimal)
    requires staker.bond > 0 && staker.index <= index
    ensures (Settle(staker, index).pending - staker.pending) * ONE > Growth(staker, index)
       <==> Fraction(staker.bond, staker.index) > Fraction(staker.bond, index)
  {
    assert staker.bond * (index - staker.index) == staker.bond * index - staker.bond * staker.index;
  }

  lemma RebondIsFair(staker: Staker, bond: nat, record: Record)
    requires Fair(staker, record)
    ensures Fair(staker.(bond := bond), Moved(record, staker, bond))
    ensures Earning(staker.(bond := bond), Moved(record, staker, bond), staker.index)
         == Earning(staker, record, staker.index)
  {
    assert (record.moves + 1) * (ONE - 1) == record.moves * (ONE - 1) + (ONE - 1);
  }

  lemma PayIsFair(staker: Staker, record: Record, index: Decimal)
    requires Fair(staker, record)
    ensures var paid := record.(claimed := record.claimed + staker.pending);
            && Fair(staker.(pending := 0), paid)
            && Earning(staker.(pending := 0), paid, index) == Earning(staker, record, index)
  {
  }

  /** Replacing one staker and its record by a fair pair with the same earnings keeps the balance. */
  lemma ReplaceKeepsBalance(w: World, r: World, user: Addr, staker: Staker, record: Record)
    requires Balanced(w) && ValidAt(r.store, r.clock)
    requires r.store.state.globalRewardIndex == w.store.state.globalRewardIndex
    requires r.store.stakers == w.store.stakers[user := staker]
    requires r.audit == Keep(w.audit, user, record)
    requires Fair(staker, record)
    requires Earning(staker, record, w.store.state.globalRewardIndex)
          == Earning(Lookup(w.store.stakers, user), RecordOf(w.audit, user), w.store.state.globalRewardIndex)
    ensures Balanced(r)
  {
    hide Fair, Earning, Ready, Bonds;
    assert Earned(r) == Earned(w)[user := Earning(staker, record, w.store.state.globalRewardIndex)];
    SumUpdate(Earned(w), user, Earning(staker, record, w.store.state.globalRewardIndex));
    if user !in w.store.stakers {
      NothingEarned(w.store.state.globalRewardIndex);
    }
  }

  lemma NothingEarned(index: Decimal)
    ensures Earning(NEW_STAKER, NEW_RECORD, index) == 0
    ensures Fair(NEW_STAKER, NEW_RECORD)
  {
  }

  lemma SettleKeepsBalance(w: World, user: Addr)
    requires Balanced(w)
    ensures Balanced(SettleWorld(w, user))
  {
    hide Fair, Earning, Growth, Settle, Ready, Bonds;
    var r := SettleWorld(w, user);
    var staker, record := Lookup(w.store.stakers, user), RecordOf(w.audit, user);
    BondWithinTotal(w.store, user);
    NothingEarned(0);
    SettleIsFair(staker, w.store.state.globalRewardIndex, record);
    ReplaceKeepsBalance(w, r, user, r.store.stakers[user], r.audit.records[user]);
  }

  lemma RebondKeepsBalance(w: World, user: Addr, bond: nat)
    requires Balanced(w)
    requires user in w.store.stakers && w.store.stakers[user].index == w.store.state.globalRewardIndex
    ensures Balanced(RebondWorld(w, user, bond))
  {
    hide Fair, Earning, Ready, Bonds;
    var r := RebondWorld(w, user, bond);
    RebondIsFair(w.store.stakers[user], bond, RecordOf(w.audit, user));
    ReplaceKeepsBalance(w, r, user, r.store.stakers[user], r.audit.records[user]);
  }

  lemma PayKeepsBalance(w: World, user: Addr)
    requires Balanced(w) && user in w.store.stakers
    ensures Balanced(PayWorld(w, user))
  {
    hide Fair, Earning, Ready, Bonds;
    var r := PayWorld(w, user);
    PayIsFair(w.store.stakers[user], RecordOf(w.audit, user), w.store.state.globalRewardIndex);
    ReplaceKeepsBalance(w, r, user, r.store.stakers[user], r.audit.records[user]);
  }

  lemma BondKeepsBalance(w: World, now: nat, user: Addr, amount: nat)
    requires Balanced(w) && ValidAt(w.store, now) && w.clock <= now
    ensures Balanced(BondWorld(w, now, user, amount))
  {
    hide Balanced, Ready, Valid;
    AccrueKeepsBalance(w, now);
    SettleKeepsBalance(AccrueWorld(w, now), user);
    RebondKeepsBalance(SettleWorld(AccrueWorld(w, now), user), user, Lookup(w.store.stakers, user).bond + amount);
  }

  lemma UnbondKeepsBalance(w: World, now: nat, user: Addr, amount: nat, withdraw: bool)
    requires Balanced(w) && ValidAt(w.store, now) && w.clock <= now
    ensures Balanced(UnbondWorld(w, now, user, amount, withdraw))
  {
    hide Balanced, Ready, Valid, SettleUser;
    IdleKeepsBalance(w, now);
    if AfterUnbond(w.store, now, user, amount, withdraw).Ok? {
      var bond := Lookup(w.store.stakers, user).bond - amount;
      var settled := SettleWorld(AccrueWorld(w, now), user);
      AccrueKeepsBalance(w, now);
      SettleKeepsBalance(AccrueWorld(w, now), user);
      RebondKeepsBalance(settled, user, bond);
      PayKeepsBalance(RebondWorld(settled, user, bond), user);
    }
  }

  lemma ClaimKeepsBalance(w: World, now: nat, user: Addr)
    requires Balanced(w) && ValidAt(w.store, now) && w.clock <= now
    ensures Balanced(ClaimWorld(w, now, user))
  {
    hide Balanced, Ready, Valid;
    IdleKeepsBalance(w, now);
    AccrueKeepsBalance(w, now);
    SettleKeepsBalance(AccrueWorld(w, now), user);
    PayKeepsBalance(SettleWorld(AccrueWorld(w, now), user), user);
  }

  lemma UpdateKeepsBalance(w: World, now: nat, sender: Addr, change: Change)
    requires Balanced(w) && ValidAt(w.store, now) && w.clock <= now
    ensures Balanced(UpdateWorld(w, now, sender, change))
  {
    hide Ready;
    IdleKeepsBalance(w, now);
    AccrueKeepsBalance(w, now);
    if AfterUpdate(w.store, now, sender, change).Ok? {
      assert Earned(UpdateWorld(w, now, sender, change)) == Earned(AccrueWorld(w, now));
    }
  }

  lemma StepKeepsBalance(w: World, now: nat, op: Operation)
    requires Balanced(w) && w.clock <= now && ValidAt(w.store, now)
    ensures Balanced(Step(w, now, op))
  {
    match op
    case Bond(user, amount) => BondKeepsBalance(w, now, user, amount);
    case Unbond(user, amount, withdraw) => UnbondKeepsBalance(w, now, user, amount, withdraw);
    case Claim(user) => ClaimKeepsBalance(w, now, user);
    case Update(sender, change) => UpdateKeepsBalance(w, now, sender, change);
  }

  lemma IdleKeepsBalance(w: World, now: nat)
    requires Balanced(w) && w.clock <= now
    ensures Balanced(w.(clock := now))
  {
    assert Earned(w.(clock := now)) == Earned(w);
  }

  // ---------------------------------------------------------------- whole runs

  ghost predicate Timed(clock: nat, calls: seq<(nat, Operation)>) {
    && (calls != [] ==> clock <= calls[0].0)
    && (forall i, j :: 0 <= i < j < |calls| ==> calls[i].0 <= calls[j].0)
  }

  ghost function Run(w: World, calls: seq<(nat, Operation)>): World
    requires ValidAt(w.store, w.clock) && Timed(w.clock, calls)
    decreases |calls|
  {
    if calls == [] then w else Run(Step(w, calls[0].0, calls[0].1), calls[1..])
  }

  ghost function Instantiated(admin: Admin, config: Config, cycleRewards: nat, now: nat): World
    requires ValidConfig(config)
  {
    World(Store(admin, config, State(0, cycleRewards, config.init, 0, 0), map[]), Audit(map[], 0), now)
  }

  lemma {:induction false} RunKeepsBalance(w: World, calls: seq<(nat, Operation)>)
    requires Balanced(w) && Timed(w.clock, calls)
    ensures Balanced(Run(w, calls))
    decreases |calls|
  {
    if calls != [] {
      StepKeepsBalance(w, calls[0].0, calls[0].1);
      RunKeepsBalance(Step(w, calls[0].0, calls[0].1), calls[1..]);
    }
  }

  ghost function AllReceived(w: World): map<Addr, nat> {
    map u | u in w.store.stakers :: Received(w.store.stakers[u], RecordOf(w.audit, u))
  }

  ghost function Moves(w: World): map<Addr, nat> {
    map u | u in w.store.stakers :: RecordOf(w.audit, u).moves
  }

  lemma InstantiatedBalanced(admin: Admin, config: Config, cycleRewards: nat, now: nat)
    requires ValidConfig(config)
    ensures Balanced(Instantiated(admin, config, cycleRewards, now))
  {
    assert Earned(Instantiated(admin, config, cycleRewards, now)) == map[];
  }

  /** Each staker has received its exact earnings to within one unit per own bond or unbond call. */
  lemma StakerWithinMoves(admin: Admin, config: Config, cycleRewards: nat, now: nat, calls: seq<(nat, Operation)>,
                          user: Addr)
    requires ValidConfig(config) && Timed(now, calls)
    ensures var w := Run(Instantiated(admin, config, cycleRewards, now), calls);
            user in w.store.stakers ==>
              var record := RecordOf(w.audit, user);
              && AllReceived(w)[user] * ONE <= record.exact + record.moves * (ONE - 1)
              && record.exact <= AllReceived(w)[user] * ONE + record.moves * (ONE - 1)
  {
    hide Fair;
    InstantiatedBalanced(admin, config, cycleRewards, now);
    RunKeepsBalance(Instantiated(admin, config, cycleRewards, now), calls);
    var w := Run(Instantiated(admin, config, cycleRewards, now), calls);
    if user in w.store.stakers {
      FairWithinMoves(w.store.stakers[user], RecordOf(w.audit, user));
    }
  }

  lemma FairWithinMoves(staker: Staker, record: Record)
    requires Fair(staker, record)
    ensures Received(staker, record) * ONE <= record.exact + record.moves * (ONE - 1)
    ensures record.exact <= Received(staker, record) * ONE + record.moves * (ONE - 1)
  {
    if record.moves == 0 {
      assert record.gained == 0 && Fraction(staker.bond, staker.index) == 0;
    }
  }

  /**
   Over any run, everything pending or paid out is at most the rewards put into the index plus
   one unit for each bond and unbond call.
   */
  lemma NeverOverpaid(admin: Admin, config: Config, cycleRewards: nat, now: nat, calls: seq<(nat, Operation)>)
    requires ValidConfig(config) && Timed(now, calls)
    ensures var w := Run(Instantiated(admin, config, cycleRewards, now), calls);
            Sum(AllReceived(w)) <= w.audit.indexed + Sum(Moves(w))
  {
    InstantiatedBalanced(admin, config, cycleRewards, now);
    RunKeepsBalance(Instantiated(admin, config, cycleRewards, now), calls);
    BalancedNeverOverpaid(Run(Instantiated(admin, config, cycleRewards, now), calls));
  }

  lemma BalancedNeverOverpaid(w: World)
    requires Balanced(w)
    ensures Sum(AllReceived(w)) <= w.audit.indexed + Sum(Moves(w))
  {
    hide Fair;
    var limit := map u | u in w.store.stakers :: Earned(w)[u] + Scaled(Moves(w), ONE)[u];
    forall u | u in AllReceived(w) ensures Below(AllReceived(w)[u], ONE, Get(limit, u), 1) {
      FairWithinMoves(w.store.stakers[u], RecordOf(w.audit, u));
    }
    SumBound(AllReceived(w), limit, ONE, 1);
    SumAdd(Earned(w), Scaled(Moves(w), ONE), limit);
    SumScaled(Moves(w), ONE);
  }

  // ---------------------------------------------------------------- exact accounting

  ghost function Exacts(w: World): map<Addr, nat> { map u | u in w.store.stakers :: RecordOf(w.audit, u).exact }

  ghost function Gains(w: World): map<Addr, nat> { map u | u in w.store.stakers :: RecordOf(w.audit, u).gained }

  ghost function Losses(w: World): map<Addr, nat> { map u | u in w.store.stakers :: RecordOf(w.audit, u).lost }

  ghost function Open(w: World): map<Addr, nat> {
    map u | u in w.store.stakers :: Fraction(w.store.stakers[u].bond, w.store.stakers[u].index)
  }

  /** The received units, and the open fraction, of each staker. */
  ghost function Closed(w: World): map<Addr, nat> {
    map u | u in w.store.stakers ::
      Received(w.store.stakers[u], RecordOf(w.audit, u)) * ONE
      + Fraction(w.store.stakers[u].bond, w.store.stakers[u].index)
  }

  lemma ClosedSum(w: World)
    ensures Sum(Closed(w)) == Sum(AllReceived(w)) * ONE + Sum(Open(w))
  {
    hide Fraction, Received;
    SumScaled(AllReceived(w), ONE);
    SumAdd(Scaled(AllReceived(w), ONE), Open(w), Closed(w));
  }

  /**
   In every reachable world what stakers have received, plus the fractions still open and those of the
   old bonds at every move, is what they earned exactly plus the fractions of the new bonds.
   */
  lemma TotalExactly(w: World)
    requires Balanced(w)
    ensures Sum(AllReceived(w)) * ONE + Sum(Open(w)) + Sum(Losses(w)) == Sum(Exacts(w)) + Sum(Gains(w))
  {
    forall u | u in w.store.stakers ensures Closed(w)[u] + Losses(w)[u] == Exacts(w)[u] + Gains(w)[u] {
      assert Fair(w.store.stakers[u], w.audit.records[u]);
    }
    assert Closed(w).Keys == Losses(w).Keys == Exacts(w).Keys == Gains(w).Keys == w.store.stakers.Keys;
    ClosedSum(w);
    hide Balanced, Closed, Losses, Exacts, Gains, Open, AllReceived;
    SumBothSides(Closed(w), Losses(w), Exacts(w), Gains(w));
  }

  /**
   A run pays more than was put into the index exactly when the exact earnings and the fractions gained
   at its moves exceed what was put in, the fractions lost and those still open.
   */
  lemma OverpaidExactly(admin: Admin, config: Config, cycleRewards: nat, now: nat, calls: seq<(nat, Operation)>)
    requires ValidConfig(config) && Timed(now, calls)
    ensures var w := Run(Instantiated(admin, config, cycleRewards, now), calls);
            Sum(AllReceived(w)) > w.audit.indexed
            <==> Sum(Exacts(w)) + Sum(Gains(w)) >= (w.audit.indexed + 1) * ONE + Sum(Open(w)) + Sum(Losses(w))
  {
    hide Balanced, Step;
    InstantiatedBalanced(admin, config, cycleRewards, now);
    RunKeepsBalance(Instantiated(admin, config, cycleRewards, now), calls);
    var w := Run(Instantiated(admin, config, cycleRewards, now), calls);
    TotalExactly(w);
    hide Exacts, Gains, Open, Losses, AllReceived, Run;
    WholeUnits(Sum(AllReceived(w)), w.audit.indexed);
  }

  /**
   What a caller can do about it: if after every bond and unbond call the new bond times the index is
   a whole number, no slack is needed.
   */
  lemma NoFractionsNoSlack(admin: Admin, config: Config, cycleRewards: nat, now: nat, calls: seq<(nat, Operation)>)
    requires ValidConfig(config) && Timed(now, calls)
    ensures var w := Run(Instantiated(admin, config, cycleRewards, now), calls);
            Sum(Gains(w)) == 0 ==> Sum(AllReceived(w)) <= w.audit.indexed
  {
    hide Balanced, Step;
    InstantiatedBalanced(admin, config, cycleRewards, now);
    RunKeepsBalance(Instantiated(admin, config, cycleRewards, now), calls);
    var w := Run(Instantiated(admin, config, cycleRewards, now), calls);
    hide Run;
    TotalExactly(w);
    ExactWithin(w);
    if Sum(Gains(w)) == 0 {
      CancelFactor(Sum(AllReceived(w)), w.audit.indexed, ONE);
    }
  }

  lemma ExactWithin(w: World)
    requires Balanced(w)
    ensures Sum(Exacts(w)) <= w.audit.indexed * ONE
  {
    hide Fair, Growth;
    SumMonotone(Exacts(w), Earned(w));
  }

  lemma WholeUnits(a: nat, b: nat)
    ensures a > b <==> a * ONE >= (b + 1) * ONE
  {
    if a > b {
      ProductMonotone(b + 1, a, ONE, ONE);
    } else {
      ProductMonotone(a, b, ONE, ONE);
      assert (b + 1) * ONE == b * ONE + ONE;
    }
  }
}
