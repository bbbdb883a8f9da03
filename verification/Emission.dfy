/**
 Emission of the LP staking contract. Rewards are paid out in cycles of equal length whose
 reward grows by a fixed ratio; `ComputeReward` catches up over any number of cycles.
 The specification is the declarative schedule: every cycle pays its own rate for the seconds
 of the cycle that lie in the interval being paid and in the distribution period.
 */
module Emission {
  import opened Decimals

  datatype Config = Config(
    init: nat,
    till: nat,
    cycleDuration: nat,
    rewardIncrease: Decimal)

  datatype State = State(
    currentCycle: nat,
    currentCycleRewards: nat,
    lastDistributed: nat,
    totalBondAmount: nat,
    globalRewardIndex: Decimal)

  /** What `instantiate` and `Config::validate` establish. */
  predicate ValidConfig(config: Config) {
    config.init < config.till && config.cycleDuration > 0 && config.rewardIncrease < ONE
  }

  // ---------------------------------------------------------------- cycle arithmetic

  function CycleStart(config: Config, cycle: nat): nat {
    config.init + cycle * config.cycleDuration
  }

  function MaxCycles(config: Config): nat
    requires ValidConfig(config)
  {
    (config.till - config.init) / config.cycleDuration
  }

  function CyclesElapsed(config: Config, now: nat): (c: nat)
    requires ValidConfig(config)
    ensures c <= MaxCycles(config)
  {
    if config.init >= now then 0
    else Min(MaxCycles(config), (now - config.init) / config.cycleDuration)
  }

  function RewardsForSlice(rate: Decimal, from: nat, to: nat): nat {
    if to <= from then 0 else Mul(to - from, rate)
  }

  function NextCycleRewards(rewards: nat, increase: Decimal, sameCycle: bool): nat {
    if sameCycle then rewards else rewards + Mul(rewards, increase)
  }

  /** The reward of the cycle `k` cycles after one whose reward is `rewards`. */
  function RewardAfter(rewards: nat, increase: Decimal, k: nat): nat
    decreases k
  {
    if k == 0 then rewards
    else RewardAfter(NextCycleRewards(rewards, increase, false), increase, k - 1)
  }

  // ---------------------------------------------------------------- the schedule

  /** Seconds of `cycle` that lie in `[from, to)` and in the distribution period. */
  function Overlap(config: Config, cycle: nat, from: nat, to: nat): nat {
    var lo := Max(from, CycleStart(config, cycle));
    var hi := Min(to, Min(config.till, CycleStart(config, cycle + 1)));
    if hi <= lo then 0 else hi - lo
  }

  /** The pay of one cycle for `[from, to)`: its rate times its overlap, rounded down. */
  function CyclePay(config: Config, cycle: nat, rewards: nat, from: nat, to: nat): nat
    requires ValidConfig(config)
  {
    Mul(Overlap(config, cycle, from, to), FromRatio(rewards, config.cycleDuration))
  }

  /**
   What the schedule pays over `[from, to)`, counted from `cycle` (whose reward is `rewards`)
   to the last cycle: cycle by cycle, the rate times the overlap, rounded down.
   */
  function Schedule(config: Config, cycle: nat, rewards: nat, from: nat, to: nat): nat
    requires ValidConfig(config)
    decreases MaxCycles(config) + 1 - cycle
  {
    if cycle > MaxCycles(config) then 0
    else
      CyclePay(config, cycle, rewards, from, to)
      + Schedule(config, cycle + 1, NextCycleRewards(rewards, config.rewardIncrease, false), from, to)
  }

  /** The nominal rewards of `cycle` and all later cycles. */
  function Budget(config: Config, cycle: nat, rewards: nat): nat
    requires ValidConfig(config)
    decreases MaxCycles(config) + 1 - cycle
  {
    if cycle > MaxCycles(config) then 0
    else rewards + Budget(config, cycle + 1, NextCycleRewards(rewards, config.rewardIncrease, false))
  }

  /** The cycle counter agrees with the time up to which rewards have been paid. */
  predicate Synced(config: Config, state: State)
    requires ValidConfig(config)
  {
    && state.lastDistributed <= config.till
    && state.currentCycle == CyclesElapsed(config, state.lastDistributed)
  }

  /** A call at `now` respects the non-decreasing clock. */
  predicate Ready(config: Config, state: State, now: nat) {
    && ValidConfig(config)
    && Synced(config, state)
    && state.lastDistributed <= Max(now, config.init)
  }

  function Emitted(config: Config, state: State, now: nat): nat
    requires Ready(config, state, now)
  {
    Schedule(config, state.currentCycle, state.currentCycleRewards, state.lastDistributed, now)
  }

  /** The rewards that reach the stakers: none while nothing is bonded or before the start. */
  function Indexed(config: Config, state: State, now: nat): nat
    requires Ready(config, state, now)
  {
    if state.totalBondAmount == 0 || config.init > now then 0 else Emitted(config, state, now)
  }

  /** The state after catching up to `now`. */
  function Accrued(config: Config, state: State, now: nat): (s: State)
    requires Ready(config, state, now)
    ensures Ready(config, s, now)
    ensures s.totalBondAmount == state.totalBondAmount
    ensures s.globalRewardIndex >= state.globalRewardIndex
  {
    ElapsedMonotone(config, config.till, config.till);
    ElapsedMonotone(config, now, now);
    if state.lastDistributed == config.till then state
    else
      ElapsedMonotone(config, state.lastDistributed, Max(now, config.init));
      var cycle := CyclesElapsed(config, now);
      State(
        cycle,
        if now >= config.till then 0
        else RewardAfter(state.currentCycleRewards, config.rewardIncrease, cycle - state.currentCycle),
        Min(now, config.till),
        state.totalBondAmount,
        if state.totalBondAmount == 0 || config.init > now then state.globalRewardIndex
        else state.globalRewardIndex + FromRatio(Emitted(config, state, now), state.totalBondAmount))
  }

  // ---------------------------------------------------------------- cycle lemmas

  lemma DivisionMonotone(n: nat, m: nat, d: nat)
    requires d > 0 && n <= m
    ensures n / d <= m / d
  {
    DivisionBounds(n, d);
    DivisionBounds(m, d);
    if n / d > m / d {
      ProductMonotone(m / d + 1, n / d, d, d);
    }
  }

  lemma ElapsedMonotone(config: Config, a: nat, b: nat)
    requires ValidConfig(config) && a <= b
    ensures CyclesElapsed(config, a) <= CyclesElapsed(config, b)
    ensures b <= config.init ==> CyclesElapsed(config, b) == 0
    ensures b >= config.till ==> CyclesElapsed(config, b) == MaxCycles(config)
  {
    if a > config.init {
      DivisionMonotone(a - config.init, b - config.init, config.cycleDuration);
    }
    if b >= config.till {
      DivisionMonotone(config.till - config.init, b - config.init, config.cycleDuration);
    }
  }

  lemma StartMonotone(config: Config, a: nat, b: nat)
    requires a <= b
    ensures CycleStart(config, a) <= CycleStart(config, b)
    ensures CycleStart(config, a + 1) == CycleStart(config, a) + config.cycleDuration
  {
    ProductMonotone(a, b, config.cycleDuration, config.cycleDuration);
  }

  /** The cycle reached at `now` has started, and the next one starts at or after `Min(now, till)`. */
  lemma ElapsedBounds(config: Config, now: nat)
    requires ValidConfig(config)
    ensures var c := CyclesElapsed(config, now);
            && CycleStart(config, c) <= Max(now, config.init)
            && CycleStart(config, c) <= config.till
            && Min(now, config.till) <= CycleStart(config, c + 1)
            && (now < config.till ==> now < CycleStart(config, c + 1))
  {
    var c, d := CyclesElapsed(config, now), config.cycleDuration;
    var span := config.till - config.init;
    DivisionBounds(span, d);
    if now > config.init {
      DivisionBounds(now - config.init, d);
      ProductMonotone(c, (now - config.init) / d, d, d);
    }
    ProductMonotone(c, MaxCycles(config), d, d);
    StartMonotone(config, c, c);
  }

  // ---------------------------------------------------------------- schedule lemmas

  /** Nothing is paid by cycles that start at or after the end of the interval. */
  lemma {:induction false} ScheduleBeyond(config: Config, cycle: nat, rewards: nat, from: nat, to: nat)
    requires ValidConfig(config)
    requires Min(to, config.till) <= CycleStart(config, cycle)
    ensures Schedule(config, cycle, rewards, from, to) == 0
    decreases MaxCycles(config) + 1 - cycle
  {
    if cycle <= MaxCycles(config) {
      StartMonotone(config, cycle, cycle + 1);
      ScheduleBeyond(config, cycle + 1, NextCycleRewards(rewards, config.rewardIncrease, false), from, to);
    }
  }

  /** Moving the start of the interval before the first counted cycle changes nothing. */
  lemma {:induction false} ScheduleEarlier(config: Config, cycle: nat, rewards: nat, a: nat, b: nat, to: nat)
    requires ValidConfig(config)
    requires a <= b <= CycleStart(config, cycle)
    ensures Schedule(config, cycle, rewards, a, to) == Schedule(config, cycle, rewards, b, to)
    decreases MaxCycles(config) + 1 - cycle
  {
    if cycle <= MaxCycles(config) {
      StartMonotone(config, cycle, cycle + 1);
      ScheduleEarlier(config, cycle + 1, NextCycleRewards(rewards, config.rewardIncrease, false), a, b, to);
    }
  }

  /** Cycles that end before the interval begins pay nothing. */
  lemma {:induction false} ScheduleSkip(config: Config, cycle: nat, rewards: nat, k: nat, from: nat, to: nat)
    requires ValidConfig(config)
    requires cycle + k <= MaxCycles(config)
    requires CycleStart(config, cycle + k) <= Max(from, config.init)
    ensures Schedule(config, cycle, rewards, from, to)
         == Schedule(config, cycle + k, RewardAfter(rewards, config.rewardIncrease, k), from, to)
    decreases k
  {
    hide CyclePay, CycleStart;
    if k > 0 {
      StartMonotone(config, cycle + 1, cycle + k);
      NothingBeforeStart(config, cycle, rewards, from, to);
      ScheduleSkip(config, cycle + 1, NextCycleRewards(rewards, config.rewardIncrease, false), k - 1, from, to);
    }
  }

  lemma NothingBeforeStart(config: Config, cycle: nat, rewards: nat, from: nat, to: nat)
    requires ValidConfig(config) && CycleStart(config, cycle + 1) <= Max(from, config.init)
    ensures CyclePay(config, cycle, rewards, from, to) == 0
  {
    hide FromRatio;
    StartMonotone(config, 0, cycle);
    StartMonotone(config, 0, cycle + 1);
  }

  /** Cutting the interval of one cycle inside that cycle loses at most one unit. */
  lemma CyclePaySplit(config: Config, cycle: nat, rewards: nat, a: nat, b: nat, t: nat)
    requires ValidConfig(config) && a <= b <= t
    ensures var cut := CyclePay(config, cycle, rewards, a, b) + CyclePay(config, cycle, rewards, b, t);
            cut <= CyclePay(config, cycle, rewards, a, t) <= cut + 1
    ensures b >= Min(config.till, CycleStart(config, cycle + 1)) ==>
              CyclePay(config, cycle, rewards, a, b) + CyclePay(config, cycle, rewards, b, t)
              == CyclePay(config, cycle, rewards, a, t)
  {
    StartMonotone(config, cycle, cycle);
    MulSplit(Overlap(config, cycle, a, b), Overlap(config, cycle, b, t), FromRatio(rewards, config.cycleDuration));
    assert Overlap(config, cycle, a, b) + Overlap(config, cycle, b, t) == Overlap(config, cycle, a, t);
  }

  /** Only the cycle that contains the cut can lose a unit to rounding. */
  lemma {:induction false} ScheduleSplit(config: Config, cycle: nat, rewards: nat, a: nat, b: nat, t: nat)
    requires ValidConfig(config) && a <= b <= t
    ensures var cut := Schedule(config, cycle, rewards, a, b) + Schedule(config, cycle, rewards, b, t);
            cut <= Schedule(config, cycle, rewards, a, t) <= cut + 1
    decreases MaxCycles(config) + 1 - cycle
  {
    if cycle <= MaxCycles(config) {
      var next := NextCycleRewards(rewards, config.rewardIncrease, false);
      StartMonotone(config, cycle, cycle + 1);
      if b <= CycleStart(config, cycle) {
        ScheduleBeyond(config, cycle, rewards, a, b);
        ScheduleEarlier(config, cycle, rewards, a, b, t);
      } else if b < CycleStart(config, cycle + 1) && b < config.till {
        CyclePaySplit(config, cycle, rewards, a, b, t);
        ScheduleBeyond(config, cycle + 1, next, a, b);
        ScheduleEarlier(config, cycle + 1, next, a, b, t);
      } else {
        CyclePaySplit(config, cycle, rewards, a, b, t);
        ScheduleSplit(config, cycle + 1, next, a, b, t);
      }
    }
  }

  /** A cycle never pays more than its own reward, so a schedule never exceeds its budget. */
  lemma {:induction false} ScheduleWithinBudget(config: Config, cycle: nat, rewards: nat, from: nat, to: nat)
    requires ValidConfig(config)
    ensures Schedule(config, cycle, rewards, from, to) <= Budget(config, cycle, rewards)
    decreases MaxCycles(config) + 1 - cycle
  {
    if cycle <= MaxCycles(config) {
      CycleWithinReward(config, cycle, rewards, from, to);
      ScheduleWithinBudget(config, cycle + 1, NextCycleRewards(rewards, config.rewardIncrease, false), from, to);
    }
  }

  lemma CycleWithinReward(config: Config, cycle: nat, rewards: nat, from: nat, to: nat)
    requires ValidConfig(config)
    ensures CyclePay(config, cycle, rewards, from, to) <= rewards
  {
    var seconds, rate := Overlap(config, cycle, from, to), FromRatio(rewards, config.cycleDuration);
    StartMonotone(config, cycle, cycle);
    assert seconds <= config.cycleDuration;
    ProductMonotone(seconds, config.cycleDuration, rate, rate);
    assert Mul(seconds, rate) * ONE <= seconds * rate <= config.cycleDuration * rate <= rewards * ONE;
  }

  /** Each second of the distribution period belongs to exactly one cycle. */
  function TotalOverlap(config: Config, cycle: nat, from: nat, to: nat): nat
    requires ValidConfig(config)
    decreases MaxCycles(config) + 1 - cycle
  {
    if cycle > MaxCycles(config) then 0
    else Overlap(config, cycle, from, to) + TotalOverlap(config, cycle + 1, from, to)
  }

  lemma {:induction false} OverlapFrom(config: Config, cycle: nat, from: nat, to: nat)
    requires ValidConfig(config) && cycle <= MaxCycles(config) + 1
    ensures var lo := Max(from, CycleStart(config, cycle));
            var hi := Min(to, config.till);
            TotalOverlap(config, cycle, from, to) == if hi <= lo then 0 else hi - lo
    decreases MaxCycles(config) + 1 - cycle
  {
    StartMonotone(config, cycle, cycle);
    if cycle <= MaxCycles(config) {
      OverlapFrom(config, cycle + 1, from, to);
    } else {
      ElapsedBounds(config, config.till);
      ElapsedMonotone(config, config.till, config.till);
    }
  }

  /** The seconds paid are exactly the seconds of `[from, to)` inside the distribution period. */
  lemma EverySecondOnce(config: Config, from: nat, to: nat)
    requires ValidConfig(config)
    ensures var lo := Max(from, config.init);
            var hi := Min(to, config.till);
            TotalOverlap(config, 0, from, to) == if hi <= lo then 0 else hi - lo
  {
    OverlapFrom(config, 0, from, to);
  }

  // ---------------------------------------------------------------- the loop

  lemma {:induction false} RewardAfterAdd(rewards: nat, increase: Decimal, j: nat, k: nat)
    ensures RewardAfter(rewards, increase, j + k) == RewardAfter(RewardAfter(rewards, increase, j), increase, k)
    decreases j
  {
    if j > 0 {
      RewardAfterAdd(NextCycleRewards(rewards, increase, false), increase, j - 1, k);
    }
  }

  /** What one iteration of the loop pays and where it leaves the distribution time. */
  lemma SliceIsCyclePay(config: Config, state: State, now: nat, cycle: nat, last: nat, rewards: nat)
    requires Ready(config, state, now)
    requires state.currentCycle <= cycle <= CyclesElapsed(config, now)
    requires last == if cycle == state.currentCycle then state.lastDistributed else CycleStart(config, cycle)
    ensures var next := Min(config.till, CycleStart(config, cycle + 1));
            && RewardsForSlice(FromRatio(rewards, config.cycleDuration), Max(last, config.init), Min(now, next))
               == CyclePay(config, cycle, rewards, state.lastDistributed, now)
            && Min(now, next) == if cycle < CyclesElapsed(config, now) then CycleStart(config, cycle + 1)
                                 else Min(now, config.till)
  {
    hide FromRatio;
    ElapsedBounds(config, state.lastDistributed);
    ElapsedBounds(config, now);
    StartMonotone(config, state.currentCycle, cycle);
    StartMonotone(config, cycle, cycle);
    StartMonotone(config, 0, cycle);
    if cycle < CyclesElapsed(config, now) {
      StartMonotone(config, cycle + 1, CyclesElapsed(config, now));
    }
    if cycle > state.currentCycle {
      StartMonotone(config, state.currentCycle + 1, cycle);
    }
  }

  /** `compute_reward`: pays cycle after cycle up to the current one. */
  method ComputeReward(config: Config, state: State, now: nat) returns (r: State)
    requires Ready(config, state, now)
    ensures r == Accrued(config, state, now)
  {
    hide Mul, FromRatio, CyclePay, Overlap;
    r := state;
    if r.lastDistributed == config.till {
      return;
    }
    ElapsedMonotone(config, state.lastDistributed, Max(now, config.init));

    var cycle := r.currentCycle;
    r := r.(currentCycle := CyclesElapsed(config, now));
    var rewards := 0;
    ghost var reached := state.currentCycleRewards;  // the reward of `cycle`
    while r.currentCycle >= cycle
      invariant state.currentCycle <= cycle <= r.currentCycle + 1
      invariant r.currentCycle == CyclesElapsed(config, now)
      invariant r.totalBondAmount == state.totalBondAmount && r.globalRewardIndex == state.globalRewardIndex
      invariant cycle <= r.currentCycle ==>
                  r.lastDistributed == if cycle == state.currentCycle then state.lastDistributed
                                       else CycleStart(config, cycle)
      invariant cycle > r.currentCycle ==> r.lastDistributed == Min(now, config.till)
      invariant reached == RewardAfter(state.currentCycleRewards, config.rewardIncrease, cycle - state.currentCycle)
      invariant r.currentCycleRewards
             == if cycle <= r.currentCycle then reached
                else RewardAfter(state.currentCycleRewards, config.rewardIncrease, r.currentCycle - state.currentCycle)
      invariant Emitted(config, state, now)
             == rewards + Schedule(config, cycle, reached, state.lastDistributed, now)
      decreases r.currentCycle + 1 - cycle
    {
      SliceIsCyclePay(config, state, now, cycle, r.lastDistributed, reached);
      RewardAfterAdd(state.currentCycleRewards, config.rewardIncrease, cycle - state.currentCycle, 1);
      var nextTimestamp := Min(config.till, CycleStart(config, cycle + 1));
      rewards := rewards + RewardsForSlice(
        FromRatio(r.currentCycleRewards, config.cycleDuration),
        Max(r.lastDistributed, config.init),
        Min(now, nextTimestamp));
      r := r.(currentCycleRewards := NextCycleRewards(r.currentCycleRewards, config.rewardIncrease,
                                                      r.currentCycle == cycle),
              lastDistributed := Min(now, nextTimestamp));
      reached := NextCycleRewards(reached, config.rewardIncrease, false);
      cycle := cycle + 1;
    }
    ElapsedBounds(config, now);
    ScheduleBeyond(config, cycle, reached, state.lastDistributed, now);

    if r.lastDistributed == config.till {
      r := r.(currentCycleRewards := 0);
    }
    if r.totalBondAmount == 0 || config.init > now {
      return;
    }
    r := r.(globalRewardIndex := r.globalRewardIndex + FromRatio(rewards, r.totalBondAmount));
  }

  // ---------------------------------------------------------------- whole-run properties

  /** What a caught-up state still pays is what the schedule of the earlier state pays from `now` on. */
  lemma EmittedFromAccrued(config: Config, state: State, now: nat, later: nat)
    requires Ready(config, state, now) && now <= later
    ensures Emitted(config, Accrued(config, state, now), later)
         == Schedule(config, state.currentCycle, state.currentCycleRewards, Max(state.lastDistributed, now), later)
  {
    var s := Accrued(config, state, now);
    ElapsedBounds(config, now);
    ElapsedMonotone(config, state.lastDistributed, Max(now, config.init));
    if now >= config.till || state.lastDistributed == config.till {
      EmptyInterval(config, s.currentCycle, s.currentCycleRewards, config.till, later);
      EmptyInterval(config, state.currentCycle, state.currentCycleRewards, Max(state.lastDistributed, now), later);
    } else if now >= config.init {
      ScheduleSkip(config, state.currentCycle, state.currentCycleRewards, s.currentCycle - state.currentCycle, now,
                   later);
    } else {
      ScheduleEarlier(config, 0, state.currentCycleRewards, now, Max(state.lastDistributed, now), later);
    }
  }

  lemma {:induction false} EmptyInterval(config: Config, cycle: nat, rewards: nat, from: nat, to: nat)
    requires ValidConfig(config) && (from >= config.till || from >= to)
    ensures Schedule(config, cycle, rewards, from, to) == 0
    decreases MaxCycles(config) + 1 - cycle
  {
    if cycle <= MaxCycles(config) {
      EmptyInterval(config, cycle + 1, NextCycleRewards(rewards, config.rewardIncrease, false), from, to);
    }
  }

  /** Stopping at `t1` on the way to `t2` leaves the same cycle, cycle reward and distribution time. */
  lemma PathIndependentState(config: Config, state: State, t1: nat, t2: nat)
    requires Ready(config, state, t1) && t1 <= t2
    ensures var twice := Accrued(config, Accrued(config, state, t1), t2);
            var once := Accrued(config, state, t2);
            && twice.currentCycle == once.currentCycle
            && twice.currentCycleRewards == once.currentCycleRewards
            && twice.lastDistributed == once.lastDistributed
  {
    if state.lastDistributed != config.till && t2 < config.till {
      var c, c1, c2 := state.currentCycle, CyclesElapsed(config, t1), CyclesElapsed(config, t2);
      ElapsedMonotone(config, state.lastDistributed, Max(t1, config.init));
      ElapsedMonotone(config, t1, t2);
      RewardAfterAdd(state.currentCycleRewards, config.rewardIncrease, c1 - c, c2 - c1);
    } else {
      ElapsedMonotone(config, t1, t2);
    }
  }

  /** Stopping at `t1` on the way to `t2` emits the same reward or exactly one unit less. */
  lemma PathIndependentEmission(config: Config, state: State, t1: nat, t2: nat)
    requires Ready(config, state, t1) && t1 <= t2
    ensures var split := Emitted(config, state, t1) + Emitted(config, Accrued(config, state, t1), t2);
            split <= Emitted(config, state, t2) <= split + 1
  {
    EmittedFromAccrued(config, state, t1, t2);
    var c, r := state.currentCycle, state.currentCycleRewards;
    if state.lastDistributed <= t1 {
      ScheduleSplit(config, c, r, state.lastDistributed, t1, t2);
    } else {
      ElapsedBounds(config, state.lastDistributed);
      EmptyInterval(config, c, r, state.lastDistributed, t1);
    }
  }

  // ---------------------------------------------------------------- budget over a run

  ghost predicate NonDecreasing(times: seq<nat>) {
    forall i, j :: 0 <= i < j < |times| ==> times[i] <= times[j]
  }

  /** The rewards emitted by successive calls at `times`. */
  ghost function RunEmission(config: Config, state: State, times: seq<nat>): nat
    requires NonDecreasing(times)
    requires times != [] ==> Ready(config, state, times[0])
    decreases |times|
  {
    if times == [] then 0
    else Emitted(config, state, times[0])
         + RunEmission(config, Accrued(config, state, times[0]), times[1..])
  }

  /**
   However many calls catch up to the last time, together they emit what one call would, less at
   most one unit per intermediate stop, and never more than the nominal rewards of the cycles.
   */
  lemma {:induction false} RunWithinBudget(config: Config, state: State, times: seq<nat>)
    requires NonDecreasing(times) && times != []
    requires Ready(config, state, times[0])
    ensures var last := times[|times| - 1];
            && Ready(config, state, last)
            && RunEmission(config, state, times) <= Emitted(config, state, last)
            && Emitted(config, state, last) < RunEmission(config, state, times) + |times|
            && RunEmission(config, state, times) <= Budget(config, state.currentCycle, state.currentCycleRewards)
    decreases |times|
  {
    var last := times[|times| - 1];
    if |times| > 1 {
      var rest := times[1..];
      RunWithinBudget(config, Accrued(config, state, times[0]), rest);
      PathIndependentEmission(config, state, times[0], last);
    } else {
      assert RunEmission(config, Accrued(config, state, last), times[1..]) == 0;
    }
    ScheduleWithinBudget(config, state.currentCycle, state.currentCycleRewards, state.lastDistributed, last);
  }

  // ---------------------------------------------------------------- what each cycle pays

  /** What a call at `now` pays for `cycle`. */
  function PaidFor(config: Config, state: State, now: nat, cycle: nat): nat
    requires ValidConfig(config)
  {
    if cycle < state.currentCycle || cycle > MaxCycles(config) then 0
    else
      CyclePay(config, cycle, RewardAfter(state.currentCycleRewards, config.rewardIncrease, cycle - state.currentCycle),
               state.lastDistributed, now)
  }

  /** What a call at `now` pays for `cycle` and all later cycles. */
  function PaidFrom(config: Config, state: State, now: nat, cycle: nat): nat
    requires ValidConfig(config)
    decreases MaxCycles(config) + 1 - cycle
  {
    if cycle > MaxCycles(config) then 0
    else PaidFor(config, state, now, cycle) + PaidFrom(config, state, now, cycle + 1)
  }

  /** The pay of all cycles is what is emitted. */
  lemma {:induction false} EmittedByCycle(config: Config, state: State, now: nat, cycle: nat)
    requires Ready(config, state, now) && cycle <= state.currentCycle
    ensures PaidFrom(config, state, now, cycle) == Emitted(config, state, now)
    decreases state.currentCycle - cycle
  {
    if cycle < state.currentCycle {
      EmittedByCycle(config, state, now, cycle + 1);
    } else {
      ScheduleByCycle(config, state, now, cycle);
    }
  }

  lemma {:induction false} ScheduleByCycle(config: Config, state: State, now: nat, cycle: nat)
    requires ValidConfig(config) && state.currentCycle <= cycle
    ensures PaidFrom(config, state, now, cycle)
         == Schedule(config, cycle,
                     RewardAfter(state.currentCycleRewards, config.rewardIncrease, cycle - state.currentCycle),
                     state.lastDistributed, now)
    decreases MaxCycles(config) + 1 - cycle
  {
    hide CyclePay;
    if cycle <= MaxCycles(config) {
      ScheduleByCycle(config, state, now, cycle + 1);
      RewardAfterAdd(state.currentCycleRewards, config.rewardIncrease, cycle - state.currentCycle, 1);
      assert RewardAfter(RewardAfter(state.currentCycleRewards, config.rewardIncrease, cycle - state.currentCycle),
                         config.rewardIncrease, 1)
          == NextCycleRewards(RewardAfter(state.currentCycleRewards, config.rewardIncrease, cycle - state.currentCycle),
                              config.rewardIncrease, false);
    }
  }

  /** A call at `t1` and one at `t2` together pay no more for a cycle than one call at `t2`. */
  lemma PaidForSplit(config: Config, state: State, t1: nat, t2: nat, cycle: nat)
    requires Ready(config, state, t1) && t1 <= t2
    ensures PaidFor(config, state, t1, cycle) + PaidFor(config, Accrued(config, state, t1), t2, cycle)
         <= PaidFor(config, state, t2, cycle)
  {
    var s := Accrued(config, state, t1);
    ElapsedMonotone(config, state.lastDistributed, Max(t1, config.init));
    if state.currentCycle <= cycle <= MaxCycles(config) {
      var reward := RewardAfter(state.currentCycleRewards, config.rewardIncrease, cycle - state.currentCycle);
      if t1 >= config.till || state.lastDistributed == config.till {
        NothingAfterEnd(config, s, t2, cycle);
        PayGrows(config, cycle, reward, state.lastDistributed, t1, t2);
      } else {
        if s.currentCycle <= cycle {
          RewardAfterAdd(state.currentCycleRewards, config.rewardIncrease, s.currentCycle - state.currentCycle,
                         cycle - s.currentCycle);
        }
        CutPays(config, cycle, reward, state.lastDistributed, t1, t2);
      }
    }
  }

  lemma NothingAfterEnd(config: Config, state: State, now: nat, cycle: nat)
    requires ValidConfig(config) && state.lastDistributed == config.till
    ensures PaidFor(config, state, now, cycle) == 0
  {
    hide RewardAfter;
  }

  lemma PayGrows(config: Config, cycle: nat, rewards: nat, from: nat, t1: nat, t2: nat)
    requires ValidConfig(config) && t1 <= t2
    ensures CyclePay(config, cycle, rewards, from, t1) <= CyclePay(config, cycle, rewards, from, t2)
  {
    hide FromRatio, Mul;
    var rate := FromRatio(rewards, config.cycleDuration);
    MulMonotone(Overlap(config, cycle, from, t1), Overlap(config, cycle, from, t2), rate, rate);
  }

  lemma CutPays(config: Config, cycle: nat, rewards: nat, from: nat, t1: nat, t2: nat)
    requires ValidConfig(config) && t1 <= t2 && from <= Max(t1, config.init)
    ensures CyclePay(config, cycle, rewards, from, t1) + CyclePay(config, cycle, rewards, t1, t2)
         <= CyclePay(config, cycle, rewards, from, t2)
    ensures CyclePay(config, cycle, rewards, from, t1) <= CyclePay(config, cycle, rewards, from, t2)
  {
    if from <= t1 {
      CyclePaySplit(config, cycle, rewards, from, t1, t2);
    } else {
      StartMonotone(config, 0, cycle);
      assert Overlap(config, cycle, from, t1) == 0;
      assert Overlap(config, cycle, t1, t2) == Overlap(config, cycle, from, t2);
    }
  }

  /** What successive calls at `times` pay for `cycle`. */
  ghost function RunPaidFor(config: Config, state: State, times: seq<nat>, cycle: nat): nat
    requires NonDecreasing(times)
    requires times != [] ==> Ready(config, state, times[0])
    decreases |times|
  {
    if times == [] then 0
    else PaidFor(config, state, times[0], cycle) + RunPaidFor(config, Accrued(config, state, times[0]), times[1..],
                                                              cycle)
  }

  /** However many calls there are, together they pay no more for a cycle than the cycle's reward. */
  lemma CycleWithinRewardOverCalls(config: Config, state: State, times: seq<nat>, cycle: nat)
    requires NonDecreasing(times) && times != [] && Ready(config, state, times[0])
    requires state.currentCycle <= cycle
    ensures RunPaidFor(config, state, times, cycle)
         <= RewardAfter(state.currentCycleRewards, config.rewardIncrease, cycle - state.currentCycle)
  {
    CallsPayAtMostOne(config, state, times, cycle);
    PaidForWithinReward(config, state, times[|times| - 1], cycle);
  }

  lemma PaidForWithinReward(config: Config, state: State, now: nat, cycle: nat)
    requires ValidConfig(config) && state.currentCycle <= cycle
    ensures PaidFor(config, state, now, cycle)
         <= RewardAfter(state.currentCycleRewards, config.rewardIncrease, cycle - state.currentCycle)
  {
    CycleWithinReward(config, cycle,
                      RewardAfter(state.currentCycleRewards, config.rewardIncrease, cycle - state.currentCycle),
                      state.lastDistributed, now);
  }

  lemma {:induction false} CallsPayAtMostOne(config: Config, state: State, times: seq<nat>, cycle: nat)
    requires NonDecreasing(times) && times != [] && Ready(config, state, times[0])
    ensures RunPaidFor(config, state, times, cycle) <= PaidFor(config, state, times[|times| - 1], cycle)
    decreases |times|
  {
    hide PaidFor;
    var last := times[|times| - 1];
    var s := Accrued(config, state, times[0]);
    if |times| > 1 {
      CallsPayAtMostOne(config, s, times[1..], cycle);
      PaidForSplit(config, state, times[0], last, cycle);
    } else {
      assert RunPaidFor(config, s, times[1..], cycle) == 0;
    }
  }
}
