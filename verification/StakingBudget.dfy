/**
 The emission budget over whole runs of the LP staking contract: without `update_config`, what bond,
 unbond and claim calls put into the index is bounded cycle by cycle by the cycles' nominal rewards.
 */
module StakingBudget {
  import opened Sums
  import opened Emission
  import opened LpStaking
  import opened StakingAudit

  // ---------------------------------------------------------------- what one call emits

  /** States that agree on everything emission depends on: all but the bond and the index. */
  predicate SameCycle(s: State, t: State) {
    s.currentCycle == t.currentCycle && s.currentCycleRewards == t.currentCycleRewards
    && s.lastDistributed == t.lastDistributed
  }

  /** The call is accepted, and so catches up to `now`. */
  ghost predicate Accrues(w: World, now: nat, op: Operation)
    requires ValidAt(w.store, now)
  {
    match op
    case Bond(_, _) => true
    case Unbond(user, amount, withdraw) => AfterUnbond(w.store, now, user, amount, withdraw).Ok?
    case Claim(user) => AfterClaim(w.store, now, user).Ok?
    case Update(sender, change) => AfterUpdate(w.store, now, sender, change).Ok?
  }

  lemma StepEmits(w: World, now: nat, op: Operation)
    requires ValidAt(w.store, now) && !op.Update?
    ensures var r := Step(w, now, op);
            && r.store.config == w.store.config
            && SameCycle(if Accrues(w, now, op) then Accrued(w.store.config, w.store.state, now) else w.store.state,
                         r.store.state)
            && r.audit.indexed
               == w.audit.indexed + if Accrues(w, now, op) then Indexed(w.store.config, w.store.state, now) else 0
  {
    hide Ready, Valid, Schedule, RewardAfter, Indexed, Accrued;
  }

  lemma ReadyLater(config: Config, state: State, now: nat, later: nat)
    requires Ready(config, state, now) && now <= later
    ensures Ready(config, state, later)
  {
  }

  lemma SameCycleEmits(config: Config, s: State, t: State, now: nat)
    requires Ready(config, s, now) && SameCycle(s, t)
    ensures Ready(config, t, now) && Emitted(config, s, now) == Emitted(config, t, now)
    ensures forall cycle :: PaidFor(config, s, now, cycle) == PaidFor(config, t, now, cycle)
  {
    hide Schedule, CyclePay, RewardAfter;
  }

  // ---------------------------------------------------------------- the whole budget

  predicate WithoutUpdates(calls: seq<(nat, Operation)>, horizon: nat) {
    forall i :: 0 <= i < |calls| ==> !calls[i].1.Update? && calls[i].0 <= horizon
  }

  /** What is put into the index is no more than one call at the horizon would emit. */
  lemma {:induction false} IndexedWithin(w: World, calls: seq<(nat, Operation)>, horizon: nat)
    requires ValidAt(w.store, w.clock) && Timed(w.clock, calls) && WithoutUpdates(calls, horizon) && w.clock <= horizon
    ensures Ready(w.store.config, w.store.state, horizon)
    ensures Run(w, calls).audit.indexed <= w.audit.indexed + Emitted(w.store.config, w.store.state, horizon)
    decreases |calls|
  {
    hide Sum, Bonds, Behind, Synced, Emitted, Accrued, Accrues, Step, SameCycle;
    ReadyLater(w.store.config, w.store.state, w.clock, horizon);
    if calls != [] {
      var now, op := calls[0].0, calls[0].1;
      var config, state := w.store.config, w.store.state;
      var r := Step(w, now, op);
      StepEmits(w, now, op);
      IndexedWithin(r, calls[1..], horizon);
      if Accrues(w, now, op) {
        ReadyLater(config, Accrued(config, state, now), now, horizon);
        SameCycleEmits(config, Accrued(config, state, now), r.store.state, horizon);
      } else {
        SameCycleEmits(config, state, r.store.state, horizon);
      }
      hide Ready;
      PathIndependentEmission(config, state, now, horizon);
    }
  }

  ghost function LastTime(now: nat, calls: seq<(nat, Operation)>): nat {
    if calls == [] then now else calls[|calls| - 1].0
  }

  /**
   Without `update_config`, all stakers together never receive more than the cycles' nominal rewards,
   plus one unit per move.
   */
  lemma ReceivedWithinBudget(admin: Admin, config: Config, cycleRewards: nat, now: nat, calls: seq<(nat, Operation)>)
    requires ValidConfig(config) && Timed(now, calls)
    requires forall i :: 0 <= i < |calls| ==> !calls[i].1.Update?
    ensures var w := Run(Instantiated(admin, config, cycleRewards, now), calls);
            && w.audit.indexed <= Budget(config, 0, cycleRewards)
            && Sum(AllReceived(w)) <= Budget(config, 0, cycleRewards) + Sum(Moves(w))
  {
    var w := Instantiated(admin, config, cycleRewards, now);
    var horizon := LastTime(now, calls);
    InstantiatedBalanced(admin, config, cycleRewards, now);
    NeverOverpaid(admin, config, cycleRewards, now, calls);
    hide Run, AllReceived, Moves, Budget, Schedule;
    IndexedWithin(w, calls, horizon);
    ScheduleWithinBudget(config, 0, cycleRewards, config.init, horizon);
  }

  // ---------------------------------------------------------------- cycle by cycle

  /** The part of what a call puts into the index that it pays for `cycle`. */
  function IndexedFor(config: Config, state: State, now: nat, cycle: nat): nat
    requires ValidConfig(config)
  {
    if state.totalBondAmount == 0 || config.init > now then 0 else PaidFor(config, state, now, cycle)
  }

  /** What all calls of a run together put into the index for `cycle`. */
  ghost function RunIndexedFor(w: World, calls: seq<(nat, Operation)>, cycle: nat): nat
    requires ValidAt(w.store, w.clock) && Timed(w.clock, calls)
    decreases |calls|
  {
    if calls == [] then 0
    else
      (if Accrues(w, calls[0].0, calls[0].1) then IndexedFor(w.store.config, w.store.state, calls[0].0, cycle) else 0)
      + RunIndexedFor(Step(w, calls[0].0, calls[0].1), calls[1..], cycle)
  }

  lemma {:induction false} RunPaysAtMostOne(w: World, calls: seq<(nat, Operation)>, horizon: nat, cycle: nat)
    requires ValidAt(w.store, w.clock) && Timed(w.clock, calls) && WithoutUpdates(calls, horizon) && w.clock <= horizon
    ensures RunIndexedFor(w, calls, cycle) <= PaidFor(w.store.config, w.store.state, horizon, cycle)
    decreases |calls|
  {
    hide Sum, Bonds, Behind, Synced, PaidFor, Accrued, Accrues, Step, SameCycle;
    if calls != [] {
      var now, op := calls[0].0, calls[0].1;
      var config, state := w.store.config, w.store.state;
      var r := Step(w, now, op);
      ReadyLater(config, state, now, horizon);
      StepEmits(w, now, op);
      RunPaysAtMostOne(r, calls[1..], horizon, cycle);
      if Accrues(w, now, op) {
        ReadyLater(config, Accrued(config, state, now), now, horizon);
        SameCycleEmits(config, Accrued(config, state, now), r.store.state, horizon);
      } else {
        SameCycleEmits(config, state, r.store.state, horizon);
      }
      hide Ready;
      PaidForSplit(config, state, now, horizon, cycle);
    }
  }

  /** Without `update_config` all calls of a run together pay at most the reward of a cycle for it. */
  lemma CycleWithinRewardInRun(admin: Admin, config: Config, cycleRewards: nat, now: nat, calls: seq<(nat, Operation)>,
                               cycle: nat)
    requires ValidConfig(config) && Timed(now, calls)
    requires forall i :: 0 <= i < |calls| ==> !calls[i].1.Update?
    ensures ValidAt(Instantiated(admin, config, cycleRewards, now).store, now)
    ensures RunIndexedFor(Instantiated(admin, config, cycleRewards, now), calls, cycle)
         <= RewardAfter(cycleRewards, config.rewardIncrease, cycle)
  {
    var w := Instantiated(admin, config, cycleRewards, now);
    InstantiatedBalanced(admin, config, cycleRewards, now);
    hide RunIndexedFor, PaidFor, RewardAfter;
    RunPaysAtMostOne(w, calls, LastTime(now, calls), cycle);
    PaidForWithinReward(config, w.store.state, LastTime(now, calls), cycle);
  }

  ghost function RunIndexedFrom(w: World, calls: seq<(nat, Operation)>, cycle: nat): nat
    requires ValidAt(w.store, w.clock) && Timed(w.clock, calls)
    decreases MaxCycles(w.store.config) + 1 - cycle
  {
    if cycle > MaxCycles(w.store.config) then 0
    else RunIndexedFor(w, calls, cycle) + RunIndexedFrom(w, calls, cycle + 1)
  }

  function IndexedFrom(config: Config, state: State, now: nat, cycle: nat): nat
    requires ValidConfig(config)
  {
    if state.totalBondAmount == 0 || config.init > now then 0 else PaidFrom(config, state, now, cycle)
  }

  lemma {:induction false} FirstCallFrom(w: World, calls: seq<(nat, Operation)>, cycle: nat)
    requires ValidAt(w.store, w.clock) && Timed(w.clock, calls) && calls != [] && !calls[0].1.Update?
    ensures RunIndexedFrom(w, calls, cycle)
         == (if Accrues(w, calls[0].0, calls[0].1)
             then IndexedFrom(w.store.config, w.store.state, calls[0].0, cycle)
             else 0)
            + RunIndexedFrom(Step(w, calls[0].0, calls[0].1), calls[1..], cycle)
    decreases MaxCycles(w.store.config) + 1 - cycle
  {
    hide Sum, Bonds, Behind, Synced, Accrues, Step, PaidFor, SameCycle, Indexed, Accrued;
    StepEmits(w, calls[0].0, calls[0].1);
    if cycle <= MaxCycles(w.store.config) {
      FirstCallFrom(w, calls, cycle + 1);
    }
  }

  /** The pay for all cycles is exactly what is put into the index. */
  lemma {:induction false} IndexedByCycle(w: World, calls: seq<(nat, Operation)>)
    requires ValidAt(w.store, w.clock) && Timed(w.clock, calls)
    requires forall i :: 0 <= i < |calls| ==> !calls[i].1.Update?
    ensures Run(w, calls).audit.indexed == w.audit.indexed + RunIndexedFrom(w, calls, 0)
    decreases |calls|
  {
    hide Sum, Bonds, Behind, Synced, Accrues, Step, SameCycle, Accrued, PaidFrom;
    if calls != [] {
      StepEmits(w, calls[0].0, calls[0].1);
      FirstCallFrom(w, calls, 0);
      IndexedByCycle(Step(w, calls[0].0, calls[0].1), calls[1..]);
      EmittedByCycle(w.store.config, w.store.state, calls[0].0, 0);
    } else {
      hide Ready;
      NoCalls(w, 0);
    }
  }

  lemma {:induction false} NoCalls(w: World, cycle: nat)
    requires ValidAt(w.store, w.clock)
    ensures RunIndexedFrom(w, [], cycle) == 0
    decreases MaxCycles(w.store.config) + 1 - cycle
  {
    hide Sum, Bonds, Behind, Synced;
    if cycle <= MaxCycles(w.store.config) {
      NoCalls(w, cycle + 1);
    }
  }
}
