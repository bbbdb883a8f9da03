/**
 The lockdrop contract as it runs: handlers that load, change and save the storage items in place,
 loops over positions and users, and callbacks that learn from balance differences. Every
 transaction is proved to have the effect specified in module `Lockdrop`.
 */
module LockdropContract {
  import opened Decimals
  import opened Sums
  import opened Wrappers
  import opened Lockdrop
  import opened LockdropBook
  import opened LockdropSolvency
  import opened LockdropClaims
  import opened LockdropUnwind
  import opened LockdropRun
  import opened LockdropNuke

  // ---------------------------------------------------------------- lists of positions

  lemma {:induction false} IndexOfTail(ids: seq<LockupId>, id: LockupId, i: nat)
    requires i <= |ids| && forall k :: 0 <= k < i ==> ids[k] != id
    ensures IndexOf(ids, id) == i + IndexOf(ids[i..], id)
    decreases i
  {
    if i > 0 {
      IndexOfTail(ids, id, i - 1);
      assert ids[i - 1..][1..] == ids[i..];
    }
  }

  /** `remove_lockup_pos_from_user_info`: finds the position and removes it, or fails. */
  method RemoveLockupPos(ids: seq<LockupId>, id: LockupId) returns (r: Result<seq<LockupId>, Error>)
    ensures id in ids ==> r == Ok(Without(ids, id))
    ensures id !in ids ==> r == Err(NoLockup)
  {
    var i := 0;
    while i < |ids|
      invariant 0 <= i <= |ids|
      invariant forall k :: 0 <= k < i ==> ids[k] != id
    {
      if ids[i] == id {
        IndexOfTail(ids, id, i);
        return Ok(ids[..i] + ids[i + 1..]);
      }
      i := i + 1;
    }
    r := Err(NoLockup);
  }

  /** `calculate_weight`: the amount times the boost of the first option with this duration, or an error. */
  method CalculateWeight(config: Config, amount: nat, duration: nat) returns (r: Result<nat, Error>)
    ensures forall i: nat :: FirstOption(config.boosts, i, duration) ==> r == Ok(amount * config.boosts[i].boost)
    ensures r.Err? <==> forall b :: b in config.boosts ==> b.duration != duration
    ensures BoostFor(config.boosts, duration).Some? ==> r == Ok(Weight(config, duration, amount))
    ensures BoostFor(config.boosts, duration).None? ==> r == Err(UnknownDuration)
  {
    var i := 0;
    while i < |config.boosts|
      invariant 0 <= i <= |config.boosts|
      invariant forall j :: 0 <= j < i ==> config.boosts[j].duration != duration
      invariant BoostFor(config.boosts, duration) == BoostFor(config.boosts[i..], duration)
    {
      if config.boosts[i].duration == duration {
        assert FirstOption(config.boosts, i, duration);
        return Ok(amount * config.boosts[i].boost);
      }
      i := i + 1;
    }
    r := Err(UnknownDuration);
  }

  /** `retain`: the entries that are not in `removed`, in order. */
  method Retain(ids: seq<LockupId>, removed: seq<LockupId>) returns (kept: seq<LockupId>)
    ensures forall id :: id in kept <==> id in ids && id !in removed
    ensures (forall id :: id in ids ==> id in removed) ==> kept == []
  {
    kept := [];
    for i := 0 to |ids|
      invariant forall id :: id in kept <==> id in ids[..i] && id !in removed
      invariant (forall id :: id in ids ==> id in removed) ==> kept == []
    {
      if ids[i] !in removed {
        kept := kept + [ids[i]];
      }
    }
  }

  lemma SumSeqSnoc(ids: seq<LockupId>, i: nat, m: map<LockupId, nat>)
    requires i < |ids|
    ensures SumSeq(ids[..i + 1], m) == SumSeq(ids[..i], m) + Get(m, ids[i])
  {
    assert ids[..i + 1] == ids[..i] + [ids[i]];
    SumSeqConcat(ids[..i], [ids[i]], m);
    assert SumSeq([ids[i]], m) == Get(m, ids[i]) + SumSeq([], m);
  }

  lemma RewardedSnoc(config: Config, totalWeight: nat, lockups: Lockups, ids: seq<LockupId>, i: nat)
    requires i < |ids| && ids[i] in lockups
    ensures var before := Rewarded(config, totalWeight, lockups, ids[..i]);
            var id := ids[i];
            && id in before && before[id].ust == lockups[id].ust && before[id].duration == lockups[id].duration
            && Rewarded(config, totalWeight, lockups, ids[..i + 1])
               == before[id := before[id].(reward := Get(Rewards(config, totalWeight, lockups), id))]
  {
    hide Reward, Weight;
    assert ids[..i + 1] == ids[..i] + [ids[i]];
  }

  /** `UpdateStateOnRedBankDeposit`: the maUST balance before the Red Bank was called. */
  datatype RedBankCallback = RedBankCallback(prevMaUst: nat)

  /**
   The messages of a claim, in order: perhaps one that claims xMARS from the incentives contract,
   `UpdateStateOnClaim` with the xMARS balance before it, and perhaps `DissolvePosition`.
   */
  datatype ClaimMessages = ClaimMessages(user: Addr, claimXMars: bool, prevXMars: nat, dissolve: Option<nat>)

  /** `UpdateStateOnClaim`: the xMARS that came in is counted and paid, then the MARS. */
  function Rewarding(w: World, user: Addr, accrued: nat): Result<World, Error>
    requires user in w.users
  {
    match PayXMars(w, user, accrued)
    case Err(e) => Err(e)
    case Ok(x) => PayMars(x, user)
  }

  /** The world before `accrued` xMARS came in. */
  function BeforeXMars(w: World, prev: nat): World {
    w.(ledger := w.ledger.(xmars := prev))
  }

  class Contract {
    var config: Config
    var state: State
    var users: Users
    var lockups: Lockups
    var ledger: Ledger
    ghost var marsOut: map<Addr, nat>
    ghost var maUstPaid: map<Addr, nat>
    ghost var xmarsPaid: map<Addr, nat>
    ghost var xmarsReceived: nat
    ghost var clock: nat

    ghost function Value(): World
      reads this
    {
      World(config, state, users, lockups, ledger, marsOut, maUstPaid, xmarsPaid, xmarsReceived, clock)
    }

    constructor (config: Config, ghost now: nat)
      ensures Value() == Instantiated(config, now)
    {
      this.config := config;
      state := State(0, 0, 0, 0, 0, false, 0, 0);
      users, lockups := map[], map[];
      ledger := Ledger(0, 0, 0, 0);
      marsOut, maUstPaid, xmarsPaid, xmarsReceived, clock := map[], map[], map[], 0, now;
    }

    // ------------------------------------------------------------ deposits and withdrawals

    method TryDepositUst(now: nat, sender: Addr, duration: nat, amount: nat) returns (r: Result<(), Error>)
      modifies this
      ensures Value() == Step(old(Value()), now, OpDepositUst(sender, duration, amount))
      ensures r.Ok? <==> DepositUst(old(Value()), now, sender, duration, amount).Ok?
      ensures forall i: nat :: r.Ok? && FirstOption(config.boosts, i, duration) ==>
                state.totalWeight == old(state).totalWeight + amount * config.boosts[i].boost
    {
      hide Weight, Step, Attempt, BoostFor, FirstOption;
      ghost var w := Value();
      DepositTaken(w, now, sender, duration, amount);
      clock := now;
      if !IsDepositOpen(config, now) { return Err(WindowClosed); }
      if amount == 0 { return Err(ZeroAmount); }
      var weighed := CalculateWeight(config, amount, duration);
      match weighed {
        case Err(e) => return Err(e);
        case Ok(weight) =>
          var id := LockupId(sender, duration);
          var lockup := LockupOf(lockups, id);
          lockup := lockup.(ust := lockup.ust + amount);
          var info := Lookup(users, sender);
          info := info.(totalUst := info.totalUst + amount);
          if lockup.duration == 0 {
            lockup := lockup.(duration := duration);
            info := info.(positions := info.positions + [id]);
          }
          var total := state.(totalUst := state.totalUst + amount, totalWeight := state.totalWeight + weight);
          assert Ok(World(config, total, users[sender := info], lockups[id := lockup],
                          ledger.(ust := ledger.ust + amount), marsOut, maUstPaid, xmarsPaid, xmarsReceived, now))
              == DepositUst(w, now, sender, duration, amount);
          SaveDeposit(id, lockup, info, total, amount);
          r := Ok(());
      }
    }

    /** The end of `try_deposit_ust`. */
    method SaveDeposit(id: LockupId, lockup: Lockup, info: User, total: State, amount: nat)
      modifies this`lockups, this`users, this`state, this`ledger
      ensures state == total && lockups == old(lockups)[id := lockup] && users == old(users)[id.owner := info]
      ensures ledger == old(ledger).(ust := old(ledger).ust + amount)
    {
      state, lockups, users := total, lockups[id := lockup], users[id.owner := info];
      ledger := ledger.(ust := ledger.ust + amount);
    }

    method TryWithdrawUst(now: nat, sender: Addr, duration: nat, amount: nat) returns (r: Result<(), Error>)
      requires Sound(Value()) && clock <= now
      modifies this
      ensures Value() == Step(old(Value()), now, OpWithdrawUst(sender, duration, amount)) && Sound(Value())
      ensures r.Ok? <==> WithdrawUst(old(Value()), now, sender, duration, amount).Ok?
    {
      hide Sound, Step, Attempt, AllowedWithdrawalPercent, Mul, FromRatio;
      hide Weight, Without, Locked, Weights, BoostFor, Owned;
      ghost var w := Value();
      StepSound(w, now, OpWithdrawUst(sender, duration, amount));
      WithdrawTaken(w, now, sender, duration, amount);
      WithdrawFunded(w, now, sender, duration, amount);
      clock := now;
      var id := LockupId(sender, duration);
      var lockup := LockupOf(lockups, id);
      if !IsWithdrawOpen(config, now) { return Err(WindowClosed); }
      if lockup.ust == 0 { return Err(NoLockup); }
      LockupFacts(w, id);
      if amount > Mul(lockup.ust, AllowedWithdrawalPercent(config, now)) { return Err(ExceedsLimit); }
      if now >= DepositEnd(config) {
        if lockup.withdrawn { return Err(AlreadyWithdrawn); }
        lockup := lockup.(withdrawn := true);
      }
      assert WithdrawUst(w, now, sender, duration, amount).Ok?;
      WithdrawnParts(w, now, sender, duration, amount, WithdrawUst(w, now, sender, duration, amount).value);
      BoostKnown(w, id);
      hide WithdrawUst, Sound;
      TakeUst(id, lockup, amount);
      r := Ok(());
    }

    /** The second half of `try_withdraw_ust`: takes `amount` out of the position, the user's total and the totals. */
    method TakeUst(id: LockupId, checked: Lockup, amount: nat)
      requires id.owner in users && id in users[id.owner].positions
      requires amount <= checked.ust && amount <= users[id.owner].totalUst
      requires BoostFor(config.boosts, id.duration).Some?
      requires amount <= state.totalUst
      requires Weight(config, id.duration, amount) <= state.totalWeight && amount <= ledger.ust
      modifies this`lockups, this`users, this`state, this`ledger
      ensures lockups == if amount == checked.ust then old(lockups) - {id}
                         else old(lockups)[id := checked.(ust := checked.ust - amount)]
      ensures users == old(users)[id.owner := old(users)[id.owner].(
                         totalUst := old(users)[id.owner].totalUst - amount,
                         positions := if amount == checked.ust then Without(old(users)[id.owner].positions, id)
                                      else old(users)[id.owner].positions)]
      ensures state == old(state).(totalUst := old(state).totalUst - amount,
                                   totalWeight := old(state).totalWeight - Weight(config, id.duration, amount))
      ensures ledger == old(ledger).(ust := old(ledger).ust - amount)
    {
      hide Weight, Without;
      var lockup := checked.(ust := checked.ust - amount);
      var info := users[id.owner];
      info := info.(totalUst := info.totalUst - amount);
      if lockup.ust == 0 {
        var removed := RemoveLockupPos(info.positions, id);
        info := info.(positions := removed.value);
        lockups := lockups - {id};
      } else {
        lockups := lockups[id := lockup];
      }
      users := users[id.owner := info];
      var weighed := CalculateWeight(config, amount, id.duration);
      state := state.(totalUst := state.totalUst - amount, totalWeight := state.totalWeight - weighed.value);
      ledger := ledger.(ust := ledger.ust - amount);
    }

    // ------------------------------------------------------------ administration

    method HandleIncreaseMarsIncentives(now: nat, amount: nat) returns (r: Result<(), Error>)
      modifies this
      ensures Value() == Step(old(Value()), now, OpIncreaseIncentives(amount))
      ensures r.Ok? <==> IncreaseIncentives(old(Value()), now, amount).Ok?
    {
      clock := now;
      if amount == 0 { return Err(ZeroAmount); }
      if !config.providerSet { return Err(NotSet); }
      if now >= config.init + config.depositWindow + config.withdrawalWindow { return Err(AlreadyDistributed); }
      config := config.(incentives := config.incentives + amount);
      ledger := ledger.(mars := ledger.mars + amount);
      r := Ok(());
    }

    method UpdateConfig(now: nat, sender: Addr, owner: Option<Addr>, auction: Option<Addr>, setProvider: bool,
                        setMaUst: bool)
      returns (r: Result<(), Error>)
      modifies this
      ensures Value() == Step(old(Value()), now, OpUpdateConfig(sender, owner, auction, setProvider, setMaUst))
      ensures r.Ok? <==> sender == old(config).owner
    {
      clock := now;
      if sender != config.owner { return Err(Unauthorized); }
      if setProvider { config := config.(providerSet := true); }
      if setMaUst { config := config.(maUstSet := true); }
      if auction.Some? { config := config.(auction := auction); }
      if owner.Some? { config := config.(owner := owner.value); }
      r := Ok(());
    }

    method HandleEnableClaims(now: nat, sender: Addr) returns (r: Result<(), Error>)
      modifies this
      ensures Value() == Step(old(Value()), now, OpEnableClaims(sender))
      ensures r.Ok? <==> EnableClaims(old(Value()), now, sender).Ok?
    {
      clock := now;
      if config.auction.None? { return Err(NotSet); }
      if sender != config.auction.value { return Err(Unauthorized); }
      if IsWithdrawOpen(config, now) { return Err(WindowOpen); }
      if state.claimsAllowed { return Err(AlreadyAllowed); }
      state := state.(claimsAllowed := true);
      r := Ok(());
    }

    method TryDepositInRedBank(now: nat, sender: Addr) returns (r: Result<RedBankCallback, Error>)
      ensures match r
              case Err(e) => forall minted :: DepositInRedBank(Value(), now, sender, minted) == Err(e)
              case Ok(callback) =>
                && callback.prevMaUst == ledger.maUst
                && sender == config.owner && config.providerSet && config.maUstSet && state.finalMaUst == 0
                && now >= config.init && !IsWithdrawOpen(config, now)
    {
      if sender != config.owner { return Err(Unauthorized); }
      if !config.providerSet { return Err(NotSet); }
      if !config.maUstSet { return Err(NotSet); }
      if now < config.init || IsWithdrawOpen(config, now) { return Err(WindowOpen); }
      if state.finalMaUst > 0 { return Err(AlreadyDeposited); }
      r := Ok(RedBankCallback(ledger.maUst));
    }

    method UpdateStateOnRedBankDeposit(callback: RedBankCallback)
      requires callback.prevMaUst <= ledger.maUst
      modifies this`state
      ensures var minted := ledger.maUst - callback.prevMaUst;
              state == old(state).(finalUst := old(state).totalUst, finalMaUst := minted, totalUst := 0,
                                   totalMaUst := minted)
    {
      var minted := ledger.maUst - callback.prevMaUst;
      state := state.(finalUst := state.totalUst, finalMaUst := minted);
      state := state.(totalUst := 0, totalMaUst := minted);
    }

    /** The owner sends all UST to the Red Bank, which mints `minted` maUST for it. */
    method DepositUstInRedBank(now: nat, sender: Addr, minted: nat) returns (r: Result<(), Error>)
      requires Sound(Value()) && clock <= now
      modifies this
      ensures Value() == Step(old(Value()), now, OpDepositInRedBank(sender, minted)) && Sound(Value())
      ensures r.Ok? <==> DepositInRedBank(old(Value()), now, sender, minted).Ok?
    {
      hide Sound;
      ghost var w := Value();
      StepSound(w, now, OpDepositInRedBank(sender, minted));
      var handled := TryDepositInRedBank(now, sender);
      assert w == Value() && (handled.Err? ==> DepositInRedBank(w, now, sender, minted) == Err(handled.error));
      clock := now;
      match handled {
        case Err(e) => return Err(e);
        case Ok(callback) =>
          // the Red Bank rejects a deposit of nothing
          if minted == 0 || state.totalUst == 0 { return Err(NothingMinted); }
          ledger := ledger.(ust := ledger.ust - state.totalUst, maUst := ledger.maUst + minted);
          UpdateStateOnRedBankDeposit(callback);
          r := Ok(());
      }
    }

    // ------------------------------------------------------------ MARS

    /** `update_mars_rewards_allocated_to_lockup_positions`: stores each position's reward and adds them up. */
    method UpdateMarsRewards(ids: seq<LockupId>) returns (total: nat)
      requires forall id :: id in ids ==> id in lockups
      modifies this`lockups
      ensures total == SumSeq(ids, Rewards(config, state.totalWeight, old(lockups)))
      ensures lockups == Rewarded(config, state.totalWeight, old(lockups), ids)
    {
      hide Weight, Reward, Rewards, Rewarded;
      total := 0;
      ghost var before := lockups;
      NothingRewarded(config, state.totalWeight, lockups);
      for i := 0 to |ids|
        invariant total == SumSeq(ids[..i], Rewards(config, state.totalWeight, before))
        invariant lockups == Rewarded(config, state.totalWeight, before, ids[..i])
      {
        assert ids[i] in ids;
        RewardedSnoc(config, state.totalWeight, before, ids, i);
        SumSeqSnoc(ids, i, Rewards(config, state.totalWeight, before));
        RewardOf(config, state.totalWeight, before, ids[i]);
        var lockup := lockups[ids[i]];
        var reward := Reward(config, state.totalWeight, Weight(config, lockup.duration, lockup.ust));
        total := total + reward;
        lockups := lockups[ids[i] := lockup.(reward := reward)];
      }
      assert ids[..|ids|] == ids;
    }

    /** What both claims and delegations do first: the user's record with its maUST share and MARS incentives. */
    method Materialise(user: Addr) returns (info: User)
      requires forall id :: id in Lookup(users, user).positions ==> id in lockups
      modifies this`lockups
      ensures var m := Materialised(old(Value()), user);
              user in m.users && info == m.users[user] && lockups == m.lockups
    {
      hide MaUstShare, Rewards, Rewarded;
      info := Lookup(users, user);
      if info.maUstShare == 0 {
        info := info.(maUstShare := MaUstShare(state, info.totalUst));
      }
      if info.incentives == 0 {
        var total := UpdateMarsRewards(info.positions);
        info := info.(incentives := total);
      }
    }

    method HandleDepositMarsToAuction(now: nat, sender: Addr, amount: nat) returns (r: Result<(), Error>)
      requires Sound(Value()) && clock <= now
      modifies this
      ensures Value() == Step(old(Value()), now, OpDelegateMars(sender, amount)) && Sound(Value())
      ensures r.Ok? <==> DelegateMars(old(Value()), now, sender, amount).Ok?
    {
      hide Sound, Materialised, Step, Attempt, DelegateMars;
      ghost var w := Value();
      StepSound(w, now, OpDelegateMars(sender, amount));
      DelegateTaken(w, now, sender, amount);
      DelegateRefused(w, now, sender, amount);
      UserLists(w, sender);
      MaterialisedParts(w, sender);
      var savedLockups := lockups;
      clock := now;
      var checked := CheckDelegation(now, sender);
      if checked.Err? { return checked; }
      DelegateForm(w, now, sender, amount);
      MaterialisedClock(w, now, sender);
      var info := Materialise(sender);
      // a cw20 transfer of zero is rejected
      if amount > info.incentives - info.delegated || amount == 0 {
        lockups := savedLockups;
        return Err(if amount == 0 then ZeroTransfer else ExceedsLimit);
      }
      assert Ok(World(config, state.(totalMarsDelegated := state.totalMarsDelegated + amount),
                      users[sender := info.(delegated := info.delegated + amount)], lockups,
                      ledger.(mars := ledger.mars - amount), marsOut[sender := Get(marsOut, sender) + amount],
                      maUstPaid, xmarsPaid, xmarsReceived, clock))
          == DelegateMars(w, now, sender, amount);
      hide Materialised;
      SendDelegation(sender, info, amount);
      r := Ok(());
    }

    /** The checks at the start of `handle_deposit_mars_to_auction`. */
    method CheckDelegation(now: nat, sender: Addr) returns (r: Result<(), Error>)
      ensures r.Ok? <==>
                && now >= WithdrawEnd(config) && !state.claimsAllowed && config.providerSet && config.auction.Some?
                && Lookup(users, sender).positions != []
    {
      if now < config.init + config.depositWindow + config.withdrawalWindow { return Err(WindowOpen); }
      if state.claimsAllowed { return Err(NotAllowed); }
      if !config.providerSet { return Err(NotSet); }
      if config.auction.None? { return Err(NotSet); }
      if Lookup(users, sender).positions == [] { return Err(NoPositions); }
      r := Ok(());
    }

    /** The end of `handle_deposit_mars_to_auction`: records the delegation and sends the MARS. */
    method SendDelegation(user: Addr, info: User, amount: nat)
      requires amount <= ledger.mars
      modifies this`users, this`state, this`ledger, this`marsOut
      ensures state == old(state).(totalMarsDelegated := old(state).totalMarsDelegated + amount)
      ensures users == old(users)[user := info.(delegated := info.delegated + amount)]
      ensures ledger == old(ledger).(mars := old(ledger).mars - amount)
      ensures marsOut == old(marsOut)[user := Get(old(marsOut), user) + amount]
    {
      state := state.(totalMarsDelegated := state.totalMarsDelegated + amount);
      users := users[user := info.(delegated := info.delegated + amount)];
      ledger := ledger.(mars := ledger.mars - amount);
      marsOut := marsOut[user := Get(marsOut, user) + amount];
    }

    // ------------------------------------------------------------ claims

    /** `unclaimed` is the xMARS the incentives contract reports for the lockdrop. */
    method HandleClaimRewards(now: nat, sender: Addr, unlockFor: Option<Addr>, unlock: Option<nat>, unclaimed: nat)
      returns (r: Result<ClaimMessages, Error>)
      requires forall id :: id in Lookup(users, unlockFor.GetOr(sender)).positions ==> id in lockups
      modifies this`users, this`lockups
      ensures match r
              case Err(e) =>
                && Value() == old(Value())
                && forall accrued :: Claim(old(Value()), now, unlockFor.GetOr(sender), unlock, accrued) == Err(e)
              case Ok(messages) =>
                var user := unlockFor.GetOr(sender);
                && messages == ClaimMessages(user, unclaimed > 0, ledger.xmars, unlock)
                && Value() == Materialised(old(Value()), user) && user in users
                && config.providerSet && state.claimsAllowed && Lookup(old(users), user).totalUst > 0
                && (unlock.Some? ==> LockupOf(old(lockups), LockupId(user, unlock.value)).ust > 0)
    {
      hide Materialised;
      if !config.providerSet { return Err(NotSet); }
      var user := unlockFor.GetOr(sender);
      if unlock.Some? && LockupOf(lockups, LockupId(user, unlock.value)).ust == 0 { return Err(NoLockup); }
      if Lookup(users, user).totalUst == 0 { return Err(NoPositions); }
      if !state.claimsAllowed { return Err(NotAllowed); }
      MaterialisedParts(Value(), user);
      var info := Materialise(user);
      users := users[user := info];
      r := Ok(ClaimMessages(user, unclaimed > 0, ledger.xmars, unlock));
    }

    method UpdateXMarsRewardsIndex(s: State, accrued: nat) returns (t: State)
      ensures t == s.(xmarsIndex := IndexAfter(s, accrued))
    {
      t := s;
      if accrued > 0 {
        if t.totalMaUst == 0 { return; }
        var increment := FromRatio(accrued, t.totalMaUst);
        t := t.(xmarsIndex := t.xmarsIndex + increment);
      }
    }

    method ComputeUserAccruedReward(s: State, info: User) returns (r: Result<(User, nat), Error>)
      ensures XMarsDue(s, info, s.xmarsIndex) < 0 ==> r == Err(Underflow)
      ensures XMarsDue(s, info, s.xmarsIndex) >= 0 ==>
                r == Ok((info.(rewardIndex := if s.finalUst == 0 then info.rewardIndex else s.xmarsIndex),
                         XMarsDue(s, info, s.xmarsIndex) as nat))
    {
      if s.finalUst == 0 { return Ok((info, 0)); }
      var total, before := Mul(info.maUstShare, s.xmarsIndex), Mul(info.maUstShare, info.rewardIndex);
      if total < before { return Err(Underflow); }
      r := Ok((info.(rewardIndex := s.xmarsIndex), total - before));
    }

    method UpdateStateOnClaim(user: Addr, prevXMars: nat) returns (r: Result<(), Error>)
      requires user in users && prevXMars <= ledger.xmars
      modifies this`users, this`state, this`ledger, this`marsOut, this`xmarsPaid, this`xmarsReceived
      ensures var rewarded := Rewarding(BeforeXMars(old(Value()), prevXMars), user, old(ledger).xmars - prevXMars);
              if r.Ok? then rewarded == Ok(Value()) else rewarded.Err?
    {
      hide Mul, IndexAfter, XMarsDue, PayMars;
      ghost var w := BeforeXMars(Value(), prevXMars);
      var accrued := ledger.xmars - prevXMars;
      state := UpdateXMarsRewardsIndex(state, accrued);
      SameDue(w.state, users[user], state.xmarsIndex);
      var computed := ComputeUserAccruedReward(state, users[user]);
      if computed.Err? { return Err(computed.error); }
      var info, pending := computed.value.0, computed.value.1;
      info := info.(xmarsClaimed := info.xmarsClaimed + pending);
      if ledger.xmars < pending { return Err(XMarsUnfunded); }
      ledger := ledger.(xmars := ledger.xmars - pending);
      users := users[user := info];
      xmarsPaid := Credit(xmarsPaid, user, pending);
      xmarsReceived := xmarsReceived + accrued;
      assert PayXMars(w, user, accrued) == Ok(Value());
      hide PayXMars;
      r := SendMars(user);
    }

    /** The MARS part of `update_state_on_claim`. */
    method SendMars(user: Addr) returns (r: Result<(), Error>)
      requires user in users
      modifies this`users, this`ledger, this`marsOut
      ensures if r.Ok? then PayMars(old(Value()), user) == Ok(Value()) else PayMars(old(Value()), user).Err?
    {
      var info := users[user];
      if info.incentives < info.delegated { return Err(Underflow); }
      var amount := info.incentives - info.delegated;
      if !info.claimed && amount > 0 {
        if ledger.mars < amount { return Err(Unfunded); }
        info := info.(claimed := true);
        ledger := ledger.(mars := ledger.mars - amount);
        marsOut := marsOut[user := Get(marsOut, user) + amount];
      }
      assert users == users[user := users[user]];
      users := users[user := info];
      r := Ok(());
    }

    method TryDissolvePosition(user: Addr, duration: nat) returns (r: Result<(), Error>)
      modifies this`users, this`lockups, this`state, this`ledger, this`maUstPaid
      ensures r.Ok? <==> Dissolve(old(Value()), user, duration).Ok? && config.maUstSet
      ensures r.Ok? ==> Value() == Dissolve(old(Value()), user, duration).value
      ensures r.Err? ==> Value() == old(Value())
    {
      hide MaUstShare, Without;
      var info := Lookup(users, user);
      var id := LockupId(user, duration);
      var amount := MaUstShare(state, LockupOf(lockups, id).ust);
      if state.totalMaUst < amount || info.maUstShare < amount { return Err(Underflow); }
      var removed := RemoveLockupPos(info.positions, id);
      if removed.Err? { return Err(NoLockup); }
      if !config.maUstSet { return Err(NotSet); }
      // the transfer of maUST: cw20 rejects zero, and more than is held
      if amount == 0 { return Err(ZeroTransfer); }
      if ledger.maUst < amount { return Err(Unfunded); }
      info := info.(maUstShare := info.maUstShare - amount, positions := removed.value);
      hide Credit;
      users, lockups := users[user := info], lockups - {id};
      state, ledger := state.(totalMaUst := state.totalMaUst - amount), ledger.(maUst := ledger.maUst - amount);
      maUstPaid := Credit(maUstPaid, user, amount);
      r := Ok(());
    }

    /** The callbacks of a claim, in order, after the xMARS has come in. */
    method DeliverCallbacks(messages: ClaimMessages) returns (r: Result<(), Error>)
      requires messages.user in users && messages.prevXMars <= ledger.xmars
      modifies this`users, this`lockups, this`state, this`ledger
      modifies this`marsOut, this`maUstPaid, this`xmarsPaid, this`xmarsReceived
      ensures var called := Callbacks(BeforeXMars(old(Value()), messages.prevXMars), messages.user,
                                      old(ledger).xmars - messages.prevXMars, messages.dissolve);
              if r.Ok? then called == Ok(Value()) else called.Err?
    {
      hide PayXMars, PayMars, Dissolve;
      r := UpdateStateOnClaim(messages.user, messages.prevXMars);
      if r.Ok? && messages.dissolve.Some? {
        r := TryDissolvePosition(messages.user, messages.dissolve.value);
      }
    }

    /** The messages of a claim, from the handler to the last callback, up to the first failure. */
    method AttemptClaim(now: nat, sender: Addr, unlockFor: Option<Addr>, unlock: Option<nat>, unclaimed: nat, paid: nat)
      returns (r: Result<(), Error>)
      requires forall id :: id in Lookup(users, unlockFor.GetOr(sender)).positions ==> id in lockups
      modifies this
      ensures config == old(config)
      ensures var c := Claim(old(Value()), now, unlockFor.GetOr(sender), unlock, if unclaimed > 0 then paid else 0);
              if r.Ok? then c == Ok(Value().(clock := now)) else c.Err?
    {
      hide Materialised, Callbacks, Claim;
      ghost var w, user, accrued := Value(), unlockFor.GetOr(sender), if unclaimed > 0 then paid else 0;
      ClaimTaken(w, now, user, unlock, accrued);
      MaterialisedParts(w, user);
      var handled := HandleClaimRewards(now, sender, unlockFor, unlock, unclaimed);
      if handled.Err? {
        assert Claim(w, now, user, unlock, accrued) == Err(handled.error);
        return Err(handled.error);
      }
      if handled.value.claimXMars {
        ledger := ledger.(xmars := ledger.xmars + paid);
      }
      r := DeliverCallbacks(handled.value);
    }

    /** A claim, with the xMARS `paid` by the incentives contract; if any message fails nothing has happened. */
    method ClaimRewardsAndUnlock(now: nat, sender: Addr, unlockFor: Option<Addr>, unlock: Option<nat>, unclaimed: nat,
                                 paid: nat)
      returns (r: Result<(), Error>)
      requires Sound(Value()) && clock <= now
      modifies this
      ensures var op := OpClaim(unlockFor.GetOr(sender), unlock, if unclaimed > 0 then paid else 0);
              && Value() == Step(old(Value()), now, op) && Sound(Value())
              && (r.Ok? <==> Attempt(old(Value()), now, op).Ok?)
    {
      hide Sound, Step, Attempt, Claim;
      ghost var w, user, accrued := Value(), unlockFor.GetOr(sender), if unclaimed > 0 then paid else 0;
      StepSound(w, now, OpClaim(user, unlock, accrued));
      ClaimTaken(w, now, user, unlock, accrued);
      UserLists(w, user);
      var saved := (users, lockups, state, ledger);
      r := AttemptClaim(now, sender, unlockFor, unlock, unclaimed, paid);
      clock := now;
      if r.Err? {
        users, lockups, state, ledger := saved.0, saved.1, saved.2, saved.3;
        marsOut, maUstPaid, xmarsPaid, xmarsReceived := w.marsOut, w.maUstPaid, w.xmarsPaid, w.xmarsReceived;
      }
    }

    // ------------------------------------------------------------ unwinding in batches

    /**
     The inner loop of `handle_nuke_lockdrop`: pays out and removes the positions of one user, adding up
     as it goes.
     */
    method ReleasePositions(user: Addr) returns (r: Result<(), Error>, unlocked: nat, withdrawn: nat,
                                                 released: seq<LockupId>)
      requires Unwindable(Value(), user) && user in users
      modifies this`lockups, this`state, this`ledger, this`maUstPaid
      ensures var ids, shares := users[user].positions, Shares(old(state), old(lockups));
              var amount := SumSeq(ids, shares);
              && (r.Ok? <==> amount <= old(state).totalMaUst && amount <= old(ledger).maUst)
              && (r.Ok? ==>
                    && released == ids && withdrawn == amount && unlocked == SumSeq(ids, Locked(old(lockups)))
                    && state == old(state).(totalMaUst := old(state).totalMaUst - amount)
                    && ledger == old(ledger).(maUst := old(ledger).maUst - amount)
                    && lockups == old(lockups) - (set id | id in ids)
                    && maUstPaid == Credit(old(maUstPaid), user, amount))
    {
      hide MaUstShare, Shares, Locked, Unwindable;
      ghost var w := Value();
      var ids := users[user].positions;
      ghost var shares, locked := Shares(state, lockups), Locked(lockups);
      var total: nat, held: nat, remaining := state.totalMaUst, ledger.maUst, lockups;
      unlocked, withdrawn, released := 0, 0, [];
      for i := 0 to |ids|
        invariant released == ids[..i] && remaining == lockups - (set id | id in ids[..i])
        invariant withdrawn == SumSeq(ids[..i], shares) && unlocked == SumSeq(ids[..i], locked)
        invariant total + withdrawn == state.totalMaUst && held + withdrawn == ledger.maUst
        invariant Value() == w
      {
        var id := ids[i];
        NextPosition(w, user, i);
        PrefixWithin(ids, i + 1, shares);
        var lockup := LockupOf(remaining, id);
        var amount := MaUstShare(state, lockup.ust);
        if total < amount || held < amount {
          r := Err(if total < amount then Underflow else Unfunded);
          return;
        }
        total, held := total - amount, held - amount;
        unlocked, withdrawn := unlocked + lockup.ust, withdrawn + amount;
        released := released + [id];
        remaining := remaining - {id};
      }
      assert ids[..|ids|] == ids;
      state, lockups, ledger := state.(totalMaUst := total), remaining, ledger.(maUst := held);
      maUstPaid := Credit(maUstPaid, user, withdrawn);
      r := Ok(());
    }

    /** The body of the outer loop of `handle_nuke_lockdrop`: unwinds every position of one user. */
    method NukeOne(user: Addr) returns (r: Result<(), Error>)
      requires Unwindable(Value(), user)
      modifies this`users, this`lockups, this`state, this`ledger, this`maUstPaid
      ensures r.Ok? ==> NukeUser(old(Value()), user) == Ok(Value())
      ensures r.Err? ==> NukeUser(old(Value()), user).Err?
    {
      hide MaUstShare, Shares, Locked, Listed, Without, Credit;
      ghost var w := Value();
      var info := Lookup(users, user);
      if info.totalUst == 0 {
        users := users - {user};
        return Ok(());
      }
      NukeUserForm(w, user);
      hide NukeUser, Unwindable;
      var unlocked, withdrawn, released;
      r, unlocked, withdrawn, released := ReleasePositions(user);
      if r.Err? { return; }
      if info.totalUst < unlocked || info.maUstShare < withdrawn { return Err(Underflow); }
      var kept := Retain(info.positions, released);
      info := info.(totalUst := info.totalUst - unlocked, maUstShare := info.maUstShare - withdrawn, positions := kept);
      users := if info.totalUst == 0 then users - {user} else users[user := info];
    }

    /** The outer loop of `handle_nuke_lockdrop`, up to the first failure. */
    method NukePage(page: seq<Addr>) returns (r: Result<(), Error>)
      requires Distinct(page) && forall u :: u in page ==> Unwindable(Value(), u)
      modifies this`users, this`lockups, this`state, this`ledger, this`maUstPaid
      ensures if r.Ok? then Nuke(old(Value()), page) == Ok(Value()) else Nuke(old(Value()), page).Err?
    {
      hide NukeUser, Unwindable;
      ghost var w := Value();
      for i := 0 to |page|
        invariant Nuke(w, page) == Nuke(Value(), page[i..])
        invariant forall u :: u in page[i..] ==> Unwindable(Value(), u)
      {
        ghost var before := Value();
        assert page[i..] == [page[i]] + page[i + 1..] && page[i] in page[i..];
        r := NukeOne(page[i]);
        if r.Err? { return; }
        NextUnwindable(before, page, i);
      }
      r := Ok(());
    }

    /** `handle_nuke_lockdrop` over the first users; `page` lists them in the order of their keys. */
    method HandleNukeLockdrop(now: nat, page: seq<Addr>) returns (r: Result<(), Error>)
      requires Sound(Value()) && clock <= now && Distinct(page)
      modifies this
      ensures Value() == Step(old(Value()), now, OpNuke(page))
      ensures old(state).finalMaUst > 0 || NothingListed(old(Value()), page) ==> Sound(Value())
      ensures r.Ok? <==> Nuke(old(Value()), page).Ok?
    {
      hide Sound, Nuke, Unwindable, NothingListed;
      ghost var w := Value();
      if state.finalMaUst > 0 || NothingListed(w, page) {
        StepSound(w, now, OpNuke(page));
      }
      forall u | u in page ensures Unwindable(w, u) {
        SoundUnwindable(w, u);
      }
      var saved := (users, lockups, state, ledger);
      r := NukePage(page);
      clock := now;
      if r.Err? {
        users, lockups, state, ledger := saved.0, saved.1, saved.2, saved.3;
        maUstPaid := w.maUstPaid;
      }
    }
  }

  lemma DepositTaken(w: World, now: nat, user: Addr, duration: nat, amount: nat)
    ensures Step(w, now, OpDepositUst(user, duration, amount))
         == match DepositUst(w, now, user, duration, amount) case Ok(r) => r case Err(_) => w.(clock := now)
  {
    hide DepositUst;
  }

  lemma WithdrawTaken(w: World, now: nat, user: Addr, duration: nat, amount: nat)
    ensures Step(w, now, OpWithdrawUst(user, duration, amount))
         == match WithdrawUst(w, now, user, duration, amount) case Ok(r) => r case Err(_) => w.(clock := now)
  {
    hide WithdrawUst;
  }

  lemma WithdrawnParts(w: World, now: nat, user: Addr, duration: nat, amount: nat, r: World)
    requires WithdrawUst(w, now, user, duration, amount) == Ok(r)
    ensures var id, late := LockupId(user, duration), now >= DepositEnd(w.config);
            var lockup, info := LockupOf(w.lockups, id), Lookup(w.users, user);
            var weight := Weight(w.config, duration, amount);
            && amount <= lockup.ust && amount <= info.totalUst && amount <= w.state.totalUst
            && weight <= w.state.totalWeight && amount <= w.ledger.ust
            && !(late && lockup.withdrawn) && (amount == lockup.ust ==> id in info.positions)
            && r.lockups == (if amount == lockup.ust then w.lockups - {id}
                             else w.lockups[id := lockup.(ust := lockup.ust - amount,
                                                          withdrawn := lockup.withdrawn || late)])
            && r.users == w.users[user := info.(totalUst := info.totalUst - amount,
                                                positions := if amount == lockup.ust then Without(info.positions, id)
                                                             else info.positions)]
            && r.state == w.state.(totalUst := w.state.totalUst - amount, totalWeight := w.state.totalWeight - weight)
            && r.ledger == w.ledger.(ust := w.ledger.ust - amount)
            && r == w.(clock := now, lockups := r.lockups, users := r.users, state := r.state, ledger := r.ledger)
  {
    hide Weight, AllowedWithdrawalPercent, Mul, FromRatio, Without;
  }

  lemma DelegateRefused(w: World, now: nat, user: Addr, amount: nat)
    ensures DelegateMars(w, now, user, amount).Ok? ==>
              && now >= WithdrawEnd(w.config) && !w.state.claimsAllowed
              && w.config.providerSet && w.config.auction.Some?
              && Lookup(w.users, user).positions != []
  {
    hide Materialised;
  }

  /** A delegation that has passed the checks on time and addresses. */
  lemma DelegateForm(w: World, now: nat, user: Addr, amount: nat)
    requires now >= WithdrawEnd(w.config) && !w.state.claimsAllowed && w.config.providerSet && w.config.auction.Some?
    requires Lookup(w.users, user).positions != []
    requires DelegateMars(w, now, user, amount) != Err(Underflow) && DelegateMars(w, now, user, amount) != Err(Unfunded)
    ensures var m, d := Materialised(w, user), DelegateMars(w, now, user, amount);
            user in m.users &&
            var info := m.users[user];
            && info.delegated <= info.incentives
            && (d.Ok? <==> 0 < amount <= info.incentives - info.delegated)
            && (d.Ok? ==>
                  && amount <= w.ledger.mars
                  && d.value == w.(clock := now, lockups := m.lockups,
                                   users := w.users[user := info.(delegated := info.delegated + amount)],
                                   state := w.state.(totalMarsDelegated := w.state.totalMarsDelegated + amount),
                                   ledger := w.ledger.(mars := w.ledger.mars - amount),
                                   marsOut := w.marsOut[user := Get(w.marsOut, user) + amount]))
  {
    MaterialisedParts(w, user);
    hide Materialised;
  }

  lemma ClaimTaken(w: World, now: nat, user: Addr, unlock: Option<nat>, accrued: nat)
    ensures var c, op := Claim(w, now, user, unlock, accrued), OpClaim(user, unlock, accrued);
            && Attempt(w, now, op) == c
            && Step(w, now, op) == (match c case Ok(r) => r case Err(_) => w.(clock := now))
    ensures user in Materialised(w, user).users
    ensures w.config.providerSet && w.state.claimsAllowed && Lookup(w.users, user).totalUst > 0
            && (unlock.Some? ==> LockupOf(w.lockups, LockupId(user, unlock.value)).ust > 0) ==>
              Claim(w, now, user, unlock, accrued)
              == match Callbacks(Materialised(w, user), user, accrued, unlock)
                 case Err(e) => Err(e)
                 case Ok(called) => Ok(called.(clock := now))
  {
    MaterialisedParts(w, user);
    hide Materialised, Callbacks;
  }

  lemma DelegateTaken(w: World, now: nat, user: Addr, amount: nat)
    ensures var d, op := DelegateMars(w, now, user, amount), OpDelegateMars(user, amount);
            && Attempt(w, now, op) == d
            && Step(w, now, op) == (match d case Ok(r) => r case Err(_) => w.(clock := now))
  {
    hide DelegateMars;
  }

  lemma SameDue(s: State, info: User, index: Decimal)
    ensures XMarsDue(s, info, index) == XMarsDue(s.(xmarsIndex := index), info, index)
  {
  }

  /** The next position of a user being unwound is still there, and adds its part to the sums. */
  lemma NextPosition(w: World, user: Addr, i: nat)
    requires Unwindable(w, user) && user in w.users && i < |w.users[user].positions|
    ensures var ids := w.users[user].positions;
            var done, id, more := (set j | j in ids[..i]), ids[i], ids[..i + 1];
            && id in w.lockups && id !in done
            && LockupOf(w.lockups - done, id) == w.lockups[id]
            && (w.lockups - done) - {id} == w.lockups - (set j | j in more)
            && id in Shares(w.state, w.lockups)
            && Shares(w.state, w.lockups)[id] == MaUstShare(w.state, w.lockups[id].ust)
            && SumSeq(ids[..i + 1], Shares(w.state, w.lockups))
               == SumSeq(ids[..i], Shares(w.state, w.lockups)) + Shares(w.state, w.lockups)[id]
            && SumSeq(ids[..i + 1], Locked(w.lockups)) == SumSeq(ids[..i], Locked(w.lockups)) + w.lockups[id].ust
  {
    hide MaUstShare;
    var ids := w.users[user].positions;
    assert ids[i] in ids;
    assert ids[..i + 1] == ids[..i] + [ids[i]];
    SumSeqSnoc(ids, i, Shares(w.state, w.lockups));
    SumSeqSnoc(ids, i, Locked(w.lockups));
  }

  lemma PrefixWithin(ids: seq<LockupId>, i: nat, m: map<LockupId, nat>)
    requires i <= |ids|
    ensures SumSeq(ids[..i], m) <= SumSeq(ids, m)
  {
    assert ids == ids[..i] + ids[i..];
    SumSeqConcat(ids[..i], ids[i..], m);
  }

  lemma NextUnwindable(w: World, page: seq<Addr>, i: nat)
    requires i < |page| && Distinct(page) && NukeUser(w, page[i]).Ok?
    requires forall u :: u in page[i..] ==> Unwindable(w, u)
    ensures forall u :: u in page[i + 1..] ==> Unwindable(NukeUser(w, page[i]).value, u)
  {
    hide NukeUser, Unwindable;
    assert page[i] in page[i..];
    forall u | u in page[i + 1..] ensures Unwindable(NukeUser(w, page[i]).value, u) {
      assert u in page[i..];
      OthersUnwindable(w, page[i], u);
    }
  }

  lemma BoostKnown(w: World, id: LockupId)
    requires Sound(w) && id in w.lockups
    ensures BoostFor(w.config.boosts, id.duration).Some?
  {
    assert Registered(w.config, w.users, id, w.lockups[id]);
  }

  lemma NothingRewarded(config: Config, totalWeight: nat, lockups: Lockups)
    ensures Rewarded(config, totalWeight, lockups, []) == lockups
  {
    hide Weight, Reward;
  }

  lemma RewardOf(config: Config, totalWeight: nat, lockups: Lockups, id: LockupId)
    requires id in lockups
    ensures Get(Rewards(config, totalWeight, lockups), id)
         == Reward(config, totalWeight, Weight(config, lockups[id].duration, lockups[id].ust))
  {
    hide Weight, Reward;
  }

  lemma UserLists(w: World, user: Addr)
    requires Sound(w)
    ensures forall id :: id in Lookup(w.users, user).positions ==> id in w.lockups
  {
  }

  lemma MaterialisedParts(w: World, user: Addr)
    ensures var m := Materialised(w, user);
            user in m.users && m == w.(users := w.users[user := m.users[user]], lockups := m.lockups)
  {
    hide MaUstShare, Rewards, Rewarded;
  }
}
