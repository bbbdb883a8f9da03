/**
 What the emission amounts to, second by second: every second of the distribution period earns the
 reward of the cycle it lies in, divided by the cycle's duration, and rewards grow from cycle to
 cycle by the ratio. Nothing here refers to the schedule by which `Emission` specifies the loop.
 */
module EmissionRates {
  import opened Decimals
  import opened Emission

  /** `next` is `reward` increased by the ratio, rounded down. */
  predicate Grows(reward: nat, next: nat, increase: Decimal) {
    reward <= next && (next - reward) * ONE <= reward * increase < (next - reward) * ONE + ONE
  }

  /** The rewards of consecutive cycles. */
  ghost predicate Growing(rewards: seq<nat>, increase: Decimal) {
    forall i, j :: 0 <= i && j == i + 1 && j < |rewards| ==> Grows(rewards[i], rewards[j], increase)
  }

  /** What the second `t` earns, times the cycle duration; `rewards` are those of the cycles from `first` on. */
  function Rate(config: Config, first: nat, rewards: seq<nat>, t: nat): nat
    requires config.cycleDuration > 0
  {
    if config.init <= t < config.till && first <= (t - config.init) / config.cycleDuration < first + |rewards|
    then rewards[(t - config.init) / config.cycleDuration - first]
    else 0
  }

  /** What the seconds of `[from, to)` earn, times the cycle duration. */
  function Earned(config: Config, first: nat, rewards: seq<nat>, from: nat, to: nat): nat
    requires config.cycleDuration > 0
    decreases (to)
  {
    if to <= from then 0
    else Earned(config, first, rewards, from, to - 1) + Rate(config, first, rewards, to - 1)
  }

  function Span(from: nat, to: nat): nat {
    if to <= from then 0 else to - from
  }

  /** The rewards reach to the end of the interval. */
  predicate Reaching(config: Config, first: nat, rewards: seq<nat>, to: nat) {
    rewards != [] && Min(to, config.till) <= config.init + (first + |rewards|) * config.cycleDuration
  }

  // ---------------------------------------------------------------- cycle by cycle

  function ByCycle(config: Config, first: nat, rewards: seq<nat>, from: nat, to: nat): nat
    decreases |rewards|
  {
    if rewards == [] then 0
    else rewards[0] * Overlap(config, first, from, to) + ByCycle(config, first + 1, rewards[1..], from, to)
  }

  function Seconds(config: Config, first: nat, rewards: seq<nat>, from: nat, to: nat): nat
    decreases |rewards|
  {
    if rewards == [] then 0
    else Overlap(config, first, from, to) + Seconds(config, first + 1, rewards[1..], from, to)
  }

  lemma NextReward(reward: nat, next: nat, increase: Decimal)
    requires Grows(reward, next, increase)
    ensures NextCycleRewards(reward, increase, false) == next
  {
    var d := Mul(reward, increase);
    assert d * ONE < (next - reward + 1) * ONE && (next - reward) * ONE < (d + 1) * ONE;
    CancelStrict(d, next - reward + 1, ONE);
    CancelStrict(next - reward, d + 1, ONE);
  }

  /** The pay of one cycle is its reward times its seconds over the duration, to within the two roundings. */
  lemma CyclePayBounds(config: Config, cycle: nat, reward: nat, from: nat, to: nat)
    requires ValidConfig(config)
    ensures var s := Overlap(config, cycle, from, to);
            Bounded(CyclePay(config, cycle, reward, from, to), reward * s, config.cycleDuration, s, 1)
  {
    var s, d := Overlap(config, cycle, from, to), config.cycleDuration;
    hide Overlap;
    var rate := FromRatio(reward, d);
    var pay := Mul(s, rate);
    PayBounds(s, d, reward, rate, pay);
  }

  lemma PayBounds(s: nat, d: nat, reward: nat, rate: nat, pay: nat)
    requires rate * d <= reward * ONE < rate * d + d
    requires pay * ONE <= s * rate < pay * ONE + ONE
    ensures pay * d <= reward * s && reward * s * ONE <= pay * d * ONE + s * d + d * ONE
  {
    ProductMonotone(pay * ONE, s * rate, d, d);
    ProductMonotone(rate * d, reward * ONE, s, s);
    assert pay * ONE * d == pay * d * ONE && s * rate * d == rate * d * s;
    assert reward * ONE * s == reward * s * ONE;
    CancelFactor(pay * d, reward * s, ONE);
    ProductMonotone(reward * ONE, rate * d + d, s, s);
    assert (rate * d + d) * s == s * rate * d + s * d;
    ProductMonotone(s * rate, pay * ONE + ONE, d, d);
    assert (pay * ONE + ONE) * d == pay * d * ONE + d * ONE;
  }

  ghost predicate Bounded(paid: nat, due: nat, d: nat, seconds: nat, cycles: nat) {
    paid * d <= due && due * ONE <= paid * d * ONE + seconds * d + cycles * (d * ONE)
  }

  lemma BoundsAdd(p: nat, due: nat, s: nat, q: nat, rest: nat, t: nat, d: nat, cycles: nat)
    requires Bounded(p, due, d, s, 1) && Bounded(q, rest, d, t, cycles)
    ensures Bounded(p + q, due + rest, d, s + t, cycles + 1)
  {
    assert (p + q) * d == p * d + q * d && (s + t) * d == s * d + t * d;
    assert (p * d + q * d) * ONE == p * d * ONE + q * d * ONE;
    assert (cycles + 1) * (d * ONE) == cycles * (d * ONE) + d * ONE;
  }

  lemma {:induction false} ScheduleBounds(config: Config, cycle: nat, rewards: seq<nat>, from: nat, to: nat)
    requires ValidConfig(config) && Reaching(config, cycle, rewards, to) && Growing(rewards, config.rewardIncrease)
    ensures Bounded(Schedule(config, cycle, rewards[0], from, to), ByCycle(config, cycle, rewards, from, to),
                    config.cycleDuration, Seconds(config, cycle, rewards, from, to), |rewards|)
    decreases |rewards|
  {
    hide Overlap, CyclePay, NextCycleRewards, Bounded;
    if cycle > MaxCycles(config) {
      NoneBeyond(config, cycle, rewards, from, to);
      BoundedZero(config.cycleDuration, Seconds(config, cycle, rewards, from, to), |rewards|);
    } else {
      CyclePayBounds(config, cycle, rewards[0], from, to);
      var next := NextCycleRewards(rewards[0], config.rewardIncrease, false);
      if |rewards| == 1 {
        ScheduleBeyond(config, cycle + 1, next, from, to);
        assert ByCycle(config, cycle + 1, rewards[1..], from, to) == 0;
        assert Seconds(config, cycle + 1, rewards[1..], from, to) == 0;
      } else {
        assert Grows(rewards[0], rewards[1], config.rewardIncrease);
        NextReward(rewards[0], rewards[1], config.rewardIncrease);
        ReachingNext(config, cycle, rewards, to);
        ScheduleBounds(config, cycle + 1, rewards[1..], from, to);
        BoundsAdd(CyclePay(config, cycle, rewards[0], from, to), rewards[0] * Overlap(config, cycle, from, to),
                  Overlap(config, cycle, from, to), Schedule(config, cycle + 1, next, from, to),
                  ByCycle(config, cycle + 1, rewards[1..], from, to),
                  Seconds(config, cycle + 1, rewards[1..], from, to), config.cycleDuration, |rewards| - 1);
      }
    }
  }

  lemma ReachingNext(config: Config, cycle: nat, rewards: seq<nat>, to: nat)
    requires Reaching(config, cycle, rewards, to) && |rewards| > 1 && Growing(rewards, config.rewardIncrease)
    ensures Reaching(config, cycle + 1, rewards[1..], to) && Growing(rewards[1..], config.rewardIncrease)
  {
    assert cycle + |rewards| == cycle + 1 + |rewards[1..]|;
  }

  lemma BoundedZero(d: nat, seconds: nat, cycles: nat)
    ensures Bounded(0, 0, d, seconds, cycles)
  {
  }

  lemma {:induction false} NoneBeyond(config: Config, cycle: nat, rewards: seq<nat>, from: nat, to: nat)
    requires ValidConfig(config) && cycle > MaxCycles(config)
    ensures ByCycle(config, cycle, rewards, from, to) == 0
    decreases |rewards|
  {
    StartMonotone(config, MaxCycles(config) + 1, cycle);
    DivisionBounds(config.till - config.init, config.cycleDuration);
    assert CycleStart(config, MaxCycles(config) + 1)
        == config.init + MaxCycles(config) * config.cycleDuration + config.cycleDuration;
    if rewards != [] {
      NoneBeyond(config, cycle + 1, rewards[1..], from, to);
    }
  }

  // ---------------------------------------------------------------- second by second

  /** The second lies in one of the `n` cycles from `first` on. */
  predicate Within(config: Config, first: nat, n: nat, t: nat)
    requires config.cycleDuration > 0
  {
    config.init <= t < config.till && first <= (t - config.init) / config.cycleDuration < first + n
  }

  lemma InCycle(config: Config, cycle: nat, t: nat)
    requires ValidConfig(config) && config.init <= t
    ensures (t - config.init) / config.cycleDuration == cycle
       <==> CycleStart(config, cycle) <= t < CycleStart(config, cycle + 1)
  {
    var d, k := config.cycleDuration, (t - config.init) / config.cycleDuration;
    DivisionBounds(t - config.init, d);
    StartMonotone(config, k, k);
    StartMonotone(config, cycle, cycle);
    if k < cycle {
      StartMonotone(config, k + 1, cycle);
    } else if k > cycle {
      StartMonotone(config, cycle + 1, k);
    }
  }

  lemma OneMoreSecond(config: Config, cycle: nat, from: nat, t: nat)
    requires ValidConfig(config) && from <= t
    ensures Overlap(config, cycle, from, t + 1)
         == Overlap(config, cycle, from, t) + (if Within(config, cycle, 1, t) then 1 else 0)
  {
    StartMonotone(config, 0, cycle);
    StartMonotone(config, cycle, cycle + 1);
    if config.init <= t {
      InCycle(config, cycle, t);
    }
  }

  lemma NoCycles(config: Config, first: nat, t: nat)
    requires config.cycleDuration > 0
    ensures Rate(config, first, [], t) == 0 && !Within(config, first, 0, t)
  {
  }

  lemma FirstOrLater(config: Config, first: nat, rewards: seq<nat>, t: nat)
    requires config.cycleDuration > 0 && rewards != []
    ensures var rest := rewards[1..];
            if Within(config, first, 1, t)
            then && Within(config, first, |rewards|, t) && !Within(config, first + 1, |rest|, t)
                 && Rate(config, first, rewards, t) == rewards[0] && Rate(config, first + 1, rest, t) == 0
            else && (Within(config, first, |rewards|, t) <==> Within(config, first + 1, |rest|, t))
                 && Rate(config, first, rewards, t) == Rate(config, first + 1, rest, t)
  {
  }

  lemma {:induction false} ByCycleStep(config: Config, first: nat, rewards: seq<nat>, from: nat, t: nat)
    requires ValidConfig(config) && from <= t
    ensures ByCycle(config, first, rewards, from, t + 1)
         == ByCycle(config, first, rewards, from, t) + Rate(config, first, rewards, t)
    ensures Seconds(config, first, rewards, from, t + 1)
         == Seconds(config, first, rewards, from, t) + (if Within(config, first, |rewards|, t) then 1 else 0)
    decreases |rewards|
  {
    hide Overlap, Within, Rate;
    if rewards == [] {
      NoCycles(config, first, t);
    } else {
      OneMoreSecond(config, first, from, t);
      FirstOrLater(config, first, rewards, t);
      ByCycleStep(config, first + 1, rewards[1..], from, t);
      var s := Overlap(config, first, from, t);
      assert rewards[0] * (s + 1) == rewards[0] * s + rewards[0];
    }
  }

  lemma {:induction false} NothingYet(config: Config, first: nat, rewards: seq<nat>, from: nat, to: nat)
    requires to <= from
    ensures ByCycle(config, first, rewards, from, to) == 0 == Seconds(config, first, rewards, from, to)
    decreases |rewards|
  {
    if rewards != [] {
      NothingYet(config, first + 1, rewards[1..], from, to);
    }
  }

  /** Adding up cycles is adding up seconds. */
  lemma {:induction false} EarnedByCycle(config: Config, first: nat, rewards: seq<nat>, from: nat, to: nat)
    requires ValidConfig(config)
    ensures Earned(config, first, rewards, from, to) == ByCycle(config, first, rewards, from, to)
    ensures Seconds(config, first, rewards, from, to) <= Span(from, to)
    decreases (to)
  {
    if to <= from {
      NothingYet(config, first, rewards, from, to);
    } else {
      EarnedByCycle(config, first, rewards, from, to - 1);
      ByCycleStep(config, first, rewards, from, to - 1);
    }
  }

  // ---------------------------------------------------------------- results

  /**
   What a call emits is what the seconds since the last one earn, each the reward of its cycle over the
   duration: never more, and less by at most two roundings, of the rate and of the product, per cycle.
   */
  lemma EverySecondEarns(config: Config, state: State, now: nat, rewards: seq<nat>)
    requires Ready(config, state, now) && Reaching(config, state.currentCycle, rewards, now)
    requires rewards[0] == state.currentCycleRewards && Growing(rewards, config.rewardIncrease)
    ensures var earned := Earned(config, state.currentCycle, rewards, state.lastDistributed, now);
            var emitted, d := Emitted(config, state, now), config.cycleDuration;
            && emitted * d <= earned
            && earned * ONE <= emitted * d * ONE + Span(state.lastDistributed, now) * d + |rewards| * (d * ONE)
  {
    hide Schedule, Rate;
    ScheduleBounds(config, state.currentCycle, rewards, state.lastDistributed, now);
    EarnedByCycle(config, state.currentCycle, rewards, state.lastDistributed, now);
    var d := config.cycleDuration;
    ProductMonotone(Seconds(config, state.currentCycle, rewards, state.lastDistributed, now),
                    Span(state.lastDistributed, now), d, d);
  }

  function Total(rewards: seq<nat>): nat {
    if rewards == [] then 0 else rewards[0] + Total(rewards[1..])
  }

  lemma WholeCycle(config: Config, first: nat, n: nat, from: nat, to: nat)
    requires n > 0 && to <= config.till && from <= CycleStart(config, first) && CycleStart(config, first + n) <= to
    ensures Overlap(config, first, from, to) == config.cycleDuration
    ensures from <= CycleStart(config, first + 1)
  {
    StartMonotone(config, first, first + 1);
    StartMonotone(config, first + 1, first + n);
    hide CycleStart;
  }

  lemma {:induction false} WholeCyclesEarn(config: Config, first: nat, rewards: seq<nat>, from: nat, to: nat)
    requires ValidConfig(config) && to <= config.till
    requires from <= CycleStart(config, first) && CycleStart(config, first + |rewards|) <= to
    ensures ByCycle(config, first, rewards, from, to) == Total(rewards) * config.cycleDuration
    decreases |rewards|
  {
    hide Overlap, CycleStart;
    if rewards != [] {
      var d := config.cycleDuration;
      WholeCycle(config, first, |rewards|, from, to);
      assert first + |rewards| == first + 1 + |rewards[1..]|;
      WholeCyclesEarn(config, first + 1, rewards[1..], from, to);
      assert (rewards[0] + Total(rewards[1..])) * d == rewards[0] * d + Total(rewards[1..]) * d;
    }
  }

  /** Catching up over whole cycles pays their rewards in full, up to the roundings. */
  lemma WholeCyclesPaid(config: Config, state: State, now: nat, rewards: seq<nat>)
    requires Ready(config, state, now) && rewards != [] && now <= config.till
    requires rewards[0] == state.currentCycleRewards && Growing(rewards, config.rewardIncrease)
    requires state.lastDistributed == config.init + state.currentCycle * config.cycleDuration
    requires now == config.init + (state.currentCycle + |rewards|) * config.cycleDuration
    ensures var emitted, total := Emitted(config, state, now), Total(rewards);
            emitted <= total && total * ONE <= emitted * ONE + |rewards| * (config.cycleDuration + ONE)
  {
    var emitted, d, n := Emitted(config, state, now), config.cycleDuration, |rewards|;
    ScheduleBounds(config, state.currentCycle, rewards, state.lastDistributed, now);
    hide Schedule;
    WholeCyclesEarn(config, state.currentCycle, rewards, state.lastDistributed, now);
    EarnedByCycle(config, state.currentCycle, rewards, state.lastDistributed, now);
    assert now - state.lastDistributed == n * d;
    ProductMonotone(Seconds(config, state.currentCycle, rewards, state.lastDistributed, now), n * d, d, d);
    CancelDuration(emitted, Total(rewards), n, d);
  }

  lemma CancelDuration(emitted: nat, total: nat, n: nat, d: nat)
    requires d > 0 && emitted * d <= total * d
    requires total * d * ONE <= emitted * d * ONE + n * d * d + n * (d * ONE)
    ensures emitted <= total && total * ONE <= emitted * ONE + n * (d + ONE)
  {
    CancelFactor(emitted, total, d);
    assert total * ONE * d == total * d * ONE;
    assert (emitted * ONE + n * (d + ONE)) * d == emitted * d * ONE + n * d * d + n * (d * ONE);
    CancelFactor(total * ONE, emitted * ONE + n * (d + ONE), d);
  }

  /** Catching up leaves the time, the cycle it lies in, and that cycle's reward. */
  lemma CaughtUp(config: Config, state: State, now: nat, rewards: seq<nat>)
    requires Ready(config, state, now) && Reaching(config, state.currentCycle, rewards, now + 1)
    requires rewards[0] == state.currentCycleRewards && Growing(rewards, config.rewardIncrease)
    requires config.init <= now && state.lastDistributed < config.till
    ensures var s, d := Accrued(config, state, now), config.cycleDuration;
            && s.lastDistributed == Min(now, config.till)
            && (now < config.till ==>
                  && config.init + s.currentCycle * d <= now < config.init + s.currentCycle * d + d
                  && state.currentCycle <= s.currentCycle < state.currentCycle + |rewards|
                  && s.currentCycleRewards == rewards[s.currentCycle - state.currentCycle])
            && (now >= config.till ==> s.currentCycleRewards == 0)
  {
    hide Emitted, Growing, CyclesElapsed, Ready;
    AccruedParts(config, state, now);
    if now < config.till {
      var c := CyclesElapsed(config, now);
      CycleInRewards(config, state.currentCycle, rewards, now);
      RewardReached(rewards, config.rewardIncrease, c - state.currentCycle);
    }
  }

  lemma AccruedParts(config: Config, state: State, now: nat)
    requires Ready(config, state, now) && config.init <= now && state.lastDistributed < config.till
    ensures ValidConfig(config) && state.currentCycle <= CyclesElapsed(config, now)
    ensures var s := Accrued(config, state, now);
            && s.currentCycle == CyclesElapsed(config, now) && s.lastDistributed == Min(now, config.till)
            && s.currentCycleRewards
               == if now >= config.till then 0
                  else RewardAfter(state.currentCycleRewards, config.rewardIncrease,
                                   CyclesElapsed(config, now) - state.currentCycle)
  {
    hide Emitted, RewardAfter;
    ElapsedMonotone(config, state.lastDistributed, Max(now, config.init));
  }

  lemma CycleInRewards(config: Config, first: nat, rewards: seq<nat>, now: nat)
    requires ValidConfig(config) && config.init <= now < config.till && Reaching(config, first, rewards, now + 1)
    ensures var c, d := CyclesElapsed(config, now), config.cycleDuration;
            config.init + c * d <= now < config.init + c * d + d && c < first + |rewards|
  {
    var c := CyclesElapsed(config, now);
    ElapsedBounds(config, now);
    hide CyclesElapsed;
    StartMonotone(config, c, c);
    if c >= first + |rewards| {
      StartMonotone(config, first + |rewards|, c);
    }
  }

  /** Between the start and the end the index rises by what was emitted per token bonded, rounded down. */
  lemma IndexRises(config: Config, state: State, now: nat)
    requires Ready(config, state, now)
    ensures var growth := Accrued(config, state, now).globalRewardIndex - state.globalRewardIndex;
            if state.totalBondAmount == 0 || now < config.init || state.lastDistributed == config.till then growth == 0
            else growth * state.totalBondAmount <= Emitted(config, state, now) * ONE
                 < growth * state.totalBondAmount + state.totalBondAmount
  {
    hide Emitted, CyclesElapsed, RewardAfter;
  }

  lemma {:induction false} RewardReached(rewards: seq<nat>, increase: Decimal, k: nat)
    requires Growing(rewards, increase) && k < |rewards|
    ensures RewardAfter(rewards[0], increase, k) == rewards[k]
    decreases k
  {
    if k > 0 {
      assert Grows(rewards[0], rewards[1], increase);
      NextReward(rewards[0], rewards[1], increase);
      RewardReached(rewards[1..], increase, k - 1);
    }
  }

  /** There are such rewards, of any length: the theorems above speak about every state. */
  lemma {:induction false} RewardsExist(reward: nat, increase: Decimal, n: nat) returns (rewards: seq<nat>)
    ensures |rewards| == n + 1 && rewards[0] == reward && Growing(rewards, increase)
    decreases n
  {
    if n == 0 {
      rewards := [reward];
    } else {
      var rest := RewardsExist(NextCycleRewards(reward, increase, false), increase, n - 1);
      rewards := [reward] + rest;
      assert Grows(rewards[0], rewards[1], increase);
      forall i, j | 0 <= i && j == i + 1 && j < |rewards| ensures Grows(rewards[i], rewards[j], increase) {
        if i > 0 {
          assert rewards[i] == rest[i - 1] && rewards[j] == rest[j - 1];
        }
      }
    }
  }
}
