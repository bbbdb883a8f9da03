/** A run of the LP staking contract that pays more than was put into the index. */
module StakingExample {
  import opened Decimals
  import opened Sums
  import opened Wrappers
  import opened Emission
  import opened LpStaking
  import opened StakingAudit

  /** Two cycles of one second, one unit each. */
  const SMALL_CONFIG := Config(0, 2, 1, 0)

  /** The index after the first cycle: one half. */
  const HALF: Decimal := 500_000_000_000_000_000

  const SMALL_ADMIN := Admin("owner", "lp")

  /** `a` bonds 2; after the first cycle `a` unbonds 1 and `b` bonds 1; after the second both claim. */
  const SMALL_CALLS: seq<(nat, Operation)> :=
    [(0, Bond("a", 2)), (1, Unbond("a", 1, false)), (1, Bond("b", 1)), (2, Claim("a")), (2, Claim("b"))]

  function SmallState(cycle: nat, rewards: nat, bond: nat, index: Decimal): State {
    State(cycle, rewards, cycle, bond, index)
  }

  lemma SmallCycles()
    ensures ValidConfig(SMALL_CONFIG) && MaxCycles(SMALL_CONFIG) == 2
    ensures CyclesElapsed(SMALL_CONFIG, 0) == 0 && CyclesElapsed(SMALL_CONFIG, 1) == 1
    ensures CyclesElapsed(SMALL_CONFIG, 2) == 2
  {
  }

  lemma SmallPay(cycle: nat, from: nat, to: nat)
    requires from <= to <= 2
    ensures CyclePay(SMALL_CONFIG, cycle, 1, from, to) == if from <= cycle < to then 1 else 0
  {
    assert CycleStart(SMALL_CONFIG, cycle) == cycle && CycleStart(SMALL_CONFIG, cycle + 1) == cycle + 1;
    RatioAtMostOne(1, 1);
    MulAtMostOne(1, ONE);
  }

  lemma {:induction false} SmallSchedule(cycle: nat, from: nat, to: nat)
    requires from <= to <= 2 && cycle <= from
    ensures Schedule(SMALL_CONFIG, cycle, 1, from, to) == to - from
    decreases from - cycle
  {
    SmallCycles();
    hide CyclePay;
    SmallPay(cycle, from, to);
    SmallPay(cycle + 1, from, to);
    SmallPay(cycle + 2, from, to);
    assert NextCycleRewards(1, 0, false) == 1;
    assert Schedule(SMALL_CONFIG, 3, 1, from, to) == 0;
    if cycle < from {
      SmallSchedule(cycle + 1, from, to);
    } else if cycle < 2 {
      assert Schedule(SMALL_CONFIG, 2, 1, from, to) == CyclePay(SMALL_CONFIG, 2, 1, from, to);
    }
  }

  lemma SmallReady(cycle: nat, bond: nat, index: Decimal, now: nat)
    requires cycle <= now <= 2
    ensures CyclesElapsed(SMALL_CONFIG, now) == now && MaxCycles(SMALL_CONFIG) == 2
    ensures Ready(SMALL_CONFIG, SmallState(cycle, 1, bond, index), now)
  {
    SmallCycles();
    assert CyclesElapsed(SMALL_CONFIG, now) == now && CyclesElapsed(SMALL_CONFIG, cycle) == cycle;
    hide CyclesElapsed, MaxCycles;
  }

  lemma SmallEmitted(cycle: nat, bond: nat, index: Decimal, now: nat)
    requires cycle <= now <= 2
    ensures Ready(SMALL_CONFIG, SmallState(cycle, 1, bond, index), now)
    ensures Emitted(SMALL_CONFIG, SmallState(cycle, 1, bond, index), now) == now - cycle
  {
    SmallReady(cycle, bond, index, now);
    SmallSchedule(cycle, cycle, now);
    hide Schedule, Ready;
  }

  lemma HalfRatio()
    ensures FromRatio(1, 2) == HALF && FromRatio(0, 1) == 0
  {
  }

  /** Nothing is bonded in the first call. */
  lemma AccrualAtStart()
    ensures var s := State(0, 1, 0, 0, 0);
            Ready(SMALL_CONFIG, s, 0) && Indexed(SMALL_CONFIG, s, 0) == 0 && Accrued(SMALL_CONFIG, s, 0) == s
  {
    hide Ready, CyclesElapsed, MaxCycles, Emitted, Schedule, FromRatio;
    SmallReady(0, 0, 0, 0);
  }

  lemma AccrualToOne()
    ensures var s := State(0, 1, 0, 2, 0);
            Ready(SMALL_CONFIG, s, 1) && Indexed(SMALL_CONFIG, s, 1) == 1
            && Accrued(SMALL_CONFIG, s, 1) == State(1, 1, 1, 2, HALF)
  {
    hide Ready, CyclesElapsed, MaxCycles, Emitted, RewardAfter, Schedule, FromRatio;
    SmallReady(0, 2, 0, 1);
    SmallEmitted(0, 2, 0, 1);
    SmallReward(1);
    HalfRatio();
  }

  lemma AccrualAtOne()
    ensures var s := State(1, 1, 1, 1, HALF);
            Ready(SMALL_CONFIG, s, 1) && Indexed(SMALL_CONFIG, s, 1) == 0 && Accrued(SMALL_CONFIG, s, 1) == s
  {
    hide Ready, CyclesElapsed, MaxCycles, Emitted, Schedule, FromRatio;
    SmallReady(1, 1, HALF, 1);
    SmallEmitted(1, 1, HALF, 1);
    HalfRatio();
  }

  lemma AccrualToTwo()
    ensures var s := State(1, 1, 1, 2, HALF);
            Ready(SMALL_CONFIG, s, 2) && Indexed(SMALL_CONFIG, s, 2) == 1
            && Accrued(SMALL_CONFIG, s, 2) == State(2, 0, 2, 2, ONE)
  {
    hide Ready, CyclesElapsed, MaxCycles, Emitted, RewardAfter, Schedule, FromRatio;
    SmallReady(1, 2, HALF, 2);
    SmallEmitted(1, 2, HALF, 2);
    HalfRatio();
    TwoHalves();
  }

  lemma TwoHalves()
    ensures HALF + HALF == ONE
    ensures Mul(2, HALF) == 1 && Mul(1, HALF) == 0 && Mul(1, ONE) == 1
    ensures forall d: Decimal :: Mul(0, d) == 0
    ensures forall x: nat :: Mul(x, 0) == 0
  {
  }

  lemma {:induction false} SmallReward(k: nat)
    ensures RewardAfter(1, SMALL_CONFIG.rewardIncrease, k) == 1
    decreases k
  {
    assert NextCycleRewards(1, 0, false) == 1;
    if k > 0 {
      SmallReward(k - 1);
    }
  }

  // the stakers' records along the run
  const BONDED_A := Staker(2, 0, 0)
  const UNBONDED_A := Staker(1, HALF, 1)
  const BONDED_B := Staker(1, HALF, 0)

  function SmallStore(state: State, stakers: Stakers): Store {
    Store(SMALL_ADMIN, SMALL_CONFIG, state, stakers)
  }

  predicate SettlesTo(staker: Staker, index: Decimal, r: Staker) {
    Behind(staker, index) && Settle(staker, index) == r
  }

  lemma SettleFrom(staker: Staker, index: Decimal, before: nat, after: nat)
    requires Behind(staker, index) && Mul(staker.bond, staker.index) == before
    requires Mul(staker.bond, index) == after && before <= after
    ensures SettlesTo(staker, index, Staker(staker.bond, index, staker.pending + (after - before)))
  {
    hide Mul;
  }

  lemma SmallSettles()
    ensures SettlesTo(NEW_STAKER, 0, Staker(0, 0, 0)) && SettlesTo(NEW_STAKER, HALF, BONDED_B.(bond := 0))
    ensures SettlesTo(BONDED_A, HALF, UNBONDED_A.(bond := 2))
    ensures SettlesTo(UNBONDED_A, ONE, Staker(1, ONE, 2)) && SettlesTo(BONDED_B, ONE, Staker(1, ONE, 1))
  {
    hide Mul, SettlesTo;
    TwoHalves();
    SettleFrom(NEW_STAKER, 0, 0, 0);
    SettleFrom(NEW_STAKER, HALF, 0, 0);
    SettleFrom(BONDED_A, HALF, 0, 1);
    SettleFrom(UNBONDED_A, ONE, 0, 1);
    SettleFrom(BONDED_B, ONE, 0, 1);
  }

  predicate Reaches(w: World, s: State, indexed: nat, now: nat) {
    && Ready(w.store.config, w.store.state, now)
    && Accrued(w.store.config, w.store.state, now) == s && Indexed(w.store.config, w.store.state, now) == indexed
  }

  ghost predicate SameClaims(a: Audit, b: Audit) {
    forall u: Addr :: RecordOf(a, u).claimed == RecordOf(b, u).claimed
  }

  /** The effect of a bond, given what catching up and settling give. */
  lemma BondTo(w: World, now: nat, user: Addr, amount: nat, s: State, indexed: nat, settled: Staker)
    requires ValidAt(w.store, now) && Reaches(w, s, indexed, now)
    requires SettlesTo(Lookup(w.store.stakers, user), s.globalRewardIndex, settled)
    ensures var r := Step(w, now, Bond(user, amount));
            && r.store == w.store.(state := s.(totalBondAmount := s.totalBondAmount + amount),
                                   stakers := w.store.stakers[user := settled.(bond := settled.bond + amount)])
            && r.audit.indexed == w.audit.indexed + indexed && SameClaims(w.audit, r.audit)
  {
    hide Valid, Ready, Accrued, Indexed, Settle, Fraction, Growth;
    SettledBond(Lookup(w.store.stakers, user), s.globalRewardIndex);
  }

  lemma SettledBond(staker: Staker, index: Decimal)
    requires Behind(staker, index)
    ensures Settle(staker, index).bond == staker.bond
  {
    hide Mul;
  }

  lemma UnbondTo(w: World, now: nat, user: Addr, amount: nat, s: State, indexed: nat, settled: Staker)
    requires ValidAt(w.store, now) && Reaches(w, s, indexed, now)
    requires SettlesTo(Lookup(w.store.stakers, user), s.globalRewardIndex, settled) && 0 < amount <= settled.bond
    ensures amount <= s.totalBondAmount
    ensures var r := Step(w, now, Unbond(user, amount, false));
            && r.store == w.store.(state := s.(totalBondAmount := s.totalBondAmount - amount),
                                   stakers := w.store.stakers[user := settled.(bond := settled.bond - amount)])
            && r.audit.indexed == w.audit.indexed + indexed && SameClaims(w.audit, r.audit)
  {
    SettledBond(Lookup(w.store.stakers, user), s.globalRewardIndex);
    BondWithinTotal(w.store, user);
    UnbondInOneWrite(w.store, now, user, amount, false);
    StepFollowsHandlers(w, now, Unbond(user, amount, false));
    hide Valid, Ready, Accrued, Indexed, Settle, Fraction, Growth, AfterUnbond, Rebond, SettleUser;
  }

  lemma ClaimTo(w: World, now: nat, user: Addr, s: State, indexed: nat, settled: Staker)
    requires ValidAt(w.store, now) && Reaches(w, s, indexed, now)
    requires SettlesTo(Lookup(w.store.stakers, user), s.globalRewardIndex, settled) && settled.pending > 0
    ensures var r := Step(w, now, Claim(user));
            && r.store == w.store.(state := s, stakers := w.store.stakers[user := settled.(pending := 0)])
            && r.audit.indexed == w.audit.indexed + indexed
            && (forall u: Addr ::
                 RecordOf(r.audit, u).claimed
                 == RecordOf(w.audit, u).claimed + if u == user then settled.pending else 0)
  {
    hide Valid, Ready, Accrued, Indexed, Settle, Fraction, Growth;
  }

  lemma RunOne(w: World, calls: seq<(nat, Operation)>)
    requires ValidAt(w.store, w.clock) && Timed(w.clock, calls) && calls != []
    ensures ValidAt(w.store, calls[0].0)
    ensures Run(w, calls) == Run(Step(w, calls[0].0, calls[0].1), calls[1..])
  {
    hide Valid, Accrued, Step;
  }

  /** A world of the run before any claim. */
  ghost predicate Before(w: World, state: State, stakers: Stakers, indexed: nat, clock: nat) {
    && ValidAt(w.store, clock) && w.clock == clock && w.store == SmallStore(state, stakers)
    && w.audit.indexed == indexed && forall u: Addr :: RecordOf(w.audit, u).claimed == 0
  }

  lemma FirstBond(w0: World) returns (w: World)
    requires Before(w0, State(0, 1, 0, 0, 0), map[], 0, 0) && Timed(0, SMALL_CALLS) && Timed(0, SMALL_CALLS[1..])
    ensures Before(w, State(0, 1, 0, 2, 0), map["a" := BONDED_A], 0, 0)
    ensures Run(w0, SMALL_CALLS) == Run(w, SMALL_CALLS[1..])
  {
    hide Mul, FromRatio, Accrued, Indexed, Settle, SettlesTo, Step, Ready, Valid, MaxCycles, CyclesElapsed, Run;
    SmallSettles();
    SmallReaches(w0.store, w0.audit);
    BondTo(w0, 0, "a", 2, State(0, 1, 0, 0, 0), 0, Staker(0, 0, 0));
    RunOne(w0, SMALL_CALLS);
    w := Step(w0, 0, Bond("a", 2));
  }

  lemma SmallStart()
    ensures ValidConfig(SMALL_CONFIG) && Timed(0, SMALL_CALLS) && Timed(0, SMALL_CALLS[1..])
    ensures Before(Instantiated(SMALL_ADMIN, SMALL_CONFIG, 1, 0), State(0, 1, 0, 0, 0), map[], 0, 0)
  {
    SmallCycles();
    hide Ready, MaxCycles, CyclesElapsed;
    InstantiatedBalanced(SMALL_ADMIN, SMALL_CONFIG, 1, 0);
  }

  lemma OneUnbond(w1: World) returns (w: World)
    requires Before(w1, State(0, 1, 0, 2, 0), map["a" := BONDED_A], 0, 0)
    ensures Before(w, State(1, 1, 1, 1, HALF), map["a" := UNBONDED_A], 1, 1)
    ensures Run(w1, SMALL_CALLS[1..]) == Run(w, SMALL_CALLS[2..])
  {
    hide Mul, FromRatio, Accrued, Indexed, Settle, SettlesTo, Step, Ready, Valid, MaxCycles, CyclesElapsed, Run;
    SmallSettles();
    SmallReaches(w1.store, w1.audit);
    UnbondTo(w1, 1, "a", 1, State(1, 1, 1, 2, HALF), 1, UNBONDED_A.(bond := 2));
    RunOne(w1, SMALL_CALLS[1..]);
    w := Step(w1, 1, Unbond("a", 1, false));
  }

  lemma SecondBond(w2: World) returns (w: World)
    requires Before(w2, State(1, 1, 1, 1, HALF), map["a" := UNBONDED_A], 1, 1)
    ensures Before(w, State(1, 1, 1, 2, HALF), map["a" := UNBONDED_A, "b" := BONDED_B], 1, 1)
    ensures Run(w2, SMALL_CALLS[2..]) == Run(w, SMALL_CALLS[3..])
  {
    hide Mul, FromRatio, Accrued, Indexed, Settle, SettlesTo, Step, Ready, Valid, MaxCycles, CyclesElapsed, Run;
    SmallSettles();
    SmallReaches(w2.store, w2.audit);
    BondTo(w2, 1, "b", 1, State(1, 1, 1, 1, HALF), 0, BONDED_B.(bond := 0));
    RunOne(w2, SMALL_CALLS[2..]);
    w := Step(w2, 1, Bond("b", 1));
  }

  lemma FirstClaim(w3: World) returns (w: World)
    requires Before(w3, State(1, 1, 1, 2, HALF), map["a" := UNBONDED_A, "b" := BONDED_B], 1, 1)
    ensures ValidAt(w.store, 2) && w.clock == 2 && w.audit.indexed == 2
    ensures w.store == SmallStore(State(2, 0, 2, 2, ONE), map["a" := Staker(1, ONE, 0), "b" := BONDED_B])
    ensures forall u: Addr :: RecordOf(w.audit, u).claimed == if u == "a" then 2 else 0
    ensures Run(w3, SMALL_CALLS[3..]) == Run(w, SMALL_CALLS[4..])
  {
    hide Mul, FromRatio, Accrued, Indexed, Settle, SettlesTo;
    hide Step, Ready, Valid, MaxCycles, CyclesElapsed, Schedule, Run;
    SmallSettles();
    SmallReaches(w3.store, w3.audit);
    ClaimTo(w3, 2, "a", State(2, 0, 2, 2, ONE), 1, Staker(1, ONE, 2));
    RunOne(w3, SMALL_CALLS[3..]);
    w := Step(w3, 2, Claim("a"));
  }

  lemma SecondClaim(w4: World)
    requires ValidAt(w4.store, 2) && w4.clock == 2 && w4.audit.indexed == 2
    requires w4.store == SmallStore(State(2, 0, 2, 2, ONE), map["a" := Staker(1, ONE, 0), "b" := BONDED_B])
    requires forall u: Addr :: RecordOf(w4.audit, u).claimed == if u == "a" then 2 else 0
    ensures var w := Run(w4, SMALL_CALLS[4..]);
            w.audit.indexed == 2 && AllReceived(w) == map["a" := 2, "b" := 1]
  {
    hide Mul, FromRatio, Accrued, Indexed, Settle, SettlesTo, Step, Ready, Valid, MaxCycles, CyclesElapsed, Schedule;
    SmallSettles();
    SmallReaches(w4.store, w4.audit);
    ClaimTo(w4, 2, "b", State(2, 0, 2, 2, ONE), 0, Staker(1, ONE, 1));
    RunOne(w4, SMALL_CALLS[4..]);
    var w5 := Step(w4, 2, Claim("b"));
    assert Run(w5, SMALL_CALLS[5..]) == w5;
    hide Run, AllReceived;
    ReceivedInEnd(w5);
  }

  lemma ReceivedInEnd(w: World)
    requires w.store.stakers == map["a" := Staker(1, ONE, 0), "b" := Staker(1, ONE, 0)]
    requires RecordOf(w.audit, "a").claimed == 2 && RecordOf(w.audit, "b").claimed == 1
    ensures AllReceived(w) == map["a" := 2, "b" := 1]
  {
    hide RecordOf;
  }

  /**
   Two units are put into the index, and three are paid: `a` receives two and `b` one. Strict
   conservation fails, so a bound without a unit per move would be false.
   */
  lemma RunPaysMoreThanIndexed()
    ensures ValidConfig(SMALL_CONFIG) && Timed(0, SMALL_CALLS)
    ensures var w := Run(Instantiated(SMALL_ADMIN, SMALL_CONFIG, 1, 0), SMALL_CALLS);
            w.audit.indexed == 2 && Sum(AllReceived(w)) == 3
  {
    hide Before, Run, AllReceived;
    SmallStart();
    var w1 := FirstBond(Instantiated(SMALL_ADMIN, SMALL_CONFIG, 1, 0));
    var w2 := OneUnbond(w1);
    var w3 := SecondBond(w2);
    var w4 := FirstClaim(w3);
    SecondClaim(w4);
    SumUpdate(map["a" := 2], "b", 1);
    SumUpdate(map[], "a", 2);
  }

  /** What the states of the run catch up to. */
  lemma SmallReaches(store: Store, audit: Audit)
    requires store.config == SMALL_CONFIG
    ensures store.state == State(0, 1, 0, 0, 0) ==> Reaches(World(store, audit, 0), State(0, 1, 0, 0, 0), 0, 0)
    ensures store.state == State(0, 1, 0, 2, 0) ==> Reaches(World(store, audit, 0), State(1, 1, 1, 2, HALF), 1, 1)
    ensures store.state == State(1, 1, 1, 1, HALF) ==> Reaches(World(store, audit, 1), State(1, 1, 1, 1, HALF), 0, 1)
    ensures store.state == State(1, 1, 1, 2, HALF) ==> Reaches(World(store, audit, 1), State(2, 0, 2, 2, ONE), 1, 2)
    ensures store.state == State(2, 0, 2, 2, ONE) ==> Reaches(World(store, audit, 2), State(2, 0, 2, 2, ONE), 0, 2)
  {
    hide Half, Mul, FromRatio, Accrued, Indexed, Ready;
    AccrualAtStart();
    AccrualToOne();
    AccrualAtOne();
    AccrualToTwo();
    AccrualAtTwo();
  }

  lemma AccrualAtTwo()
    ensures var s := State(2, 0, 2, 2, ONE);
            Ready(SMALL_CONFIG, s, 2) && Indexed(SMALL_CONFIG, s, 2) == 0 && Accrued(SMALL_CONFIG, s, 2) == s
  {
    hide CyclesElapsed, MaxCycles, Emitted, Schedule, FromRatio, RewardAfter, Indexed, Accrued;
    SmallCycles();
    NothingAtEnd(SMALL_CONFIG, State(2, 0, 2, 2, ONE), 2);
  }

  lemma NothingAtEnd(config: Config, state: State, now: nat)
    requires Ready(config, state, now) && state.lastDistributed == config.till
    ensures Indexed(config, state, now) == 0 && Accrued(config, state, now) == state
  {
    hide RewardAfter, FromRatio;
    EmptyInterval(config, state.currentCycle, state.currentCycleRewards, config.till, now);
  }
}
