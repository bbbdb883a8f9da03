/**
 What the lockdrop allots, in plain arithmetic and from both sides: weights by the boost of the position's
 duration, MARS by weight, maUST by UST and xMARS by maUST.
 */
module LockdropShares {
  import opened Decimals
  import opened Sums
  import opened Portions
  import opened Wrappers
  import opened Lockdrop
  import opened LockdropBook
  import opened LockdropSolvency
  import opened LockdropUnwind
  import opened LockdropRun
  import opened LockdropResults

  // ---------------------------------------------------------------- weights

  /** A duration is accepted if some option has it, and then weighs by the boost of the first. */
  lemma {:induction false} WeightIsBoosted(boosts: seq<Boost>, duration: nat, i: nat)
    ensures BoostFor(boosts, duration).Some? <==> exists b :: b in boosts && b.duration == duration
    ensures FirstOption(boosts, i, duration) ==> BoostFor(boosts, duration) == Some(boosts[i].boost)
    decreases |boosts|
  {
    if boosts != [] {
      assert boosts[0] in boosts;
      WeightIsBoosted(boosts[1..], duration, if i > 0 then i - 1 else 0);
      if i > 0 && FirstOption(boosts, i, duration) {
        assert FirstOption(boosts[1..], i - 1, duration);
      }
    }
  }

  /** A deposit raises the total weight by the amount times the boost, and a withdrawal lowers it likewise. */
  lemma WeightMoves(w: World, now: nat, user: Addr, duration: nat, amount: nat, i: nat)
    requires FirstOption(w.config.boosts, i, duration)
    ensures var r := DepositUst(w, now, user, duration, amount);
            r.Ok? ==> r.value.state.totalWeight == w.state.totalWeight + amount * w.config.boosts[i].boost
    ensures var r := WithdrawUst(w, now, user, duration, amount);
            r.Ok? ==> r.value.state.totalWeight == w.state.totalWeight - amount * w.config.boosts[i].boost
  {
    hide AllowedWithdrawalPercent, Mul, BoostFor, Without;
    WeightIsBoosted(w.config.boosts, duration, i);
  }

  // ---------------------------------------------------------------- MARS by weight, maUST by UST

  lemma RewardByWeight(config: Config, totalWeight: nat, weight: nat)
    requires totalWeight > 0
    ensures Portion(Reward(config, totalWeight, weight), config.incentives, weight, totalWeight, 1)
  {
    hide Portion;
    RatioOf(config.incentives, weight, totalWeight);
  }

  lemma ShareByUst(state: State, ust: nat)
    requires state.finalUst > 0
    ensures Portion(MaUstShare(state, ust), state.finalMaUst, ust, state.finalUst, 1)
  {
    hide Portion;
    RatioOf(state.finalMaUst, ust, state.finalUst);
  }

  /** The MARS of a position is the part of the incentives that its UST times its boost is of the total weight. */
  lemma RewardByBoost(config: Config, totalWeight: nat, lockups: Lockups, id: LockupId, i: nat)
    requires id in lockups && FirstOption(config.boosts, i, lockups[id].duration) && totalWeight > 0
    ensures Portion(Rewards(config, totalWeight, lockups)[id], config.incentives,
                    lockups[id].ust * config.boosts[i].boost, totalWeight, 1)
  {
    hide Portion, BoostFor, Reward;
    WeightIsBoosted(config.boosts, lockups[id].duration, i);
    RewardByWeight(config, totalWeight, lockups[id].ust * config.boosts[i].boost);
  }

  lemma RewardsReach(config: Config, totalWeight: nat, lockups: Lockups)
    requires Sum(Weights(config, lockups)) == totalWeight > 0
    ensures config.incentives * ONE
         <= Sum(Rewards(config, totalWeight, lockups)) * ONE + |lockups| * (ONE + config.incentives)
  {
    hide Portion, Reward, Weight, Sum;
    var rewards, weights := Rewards(config, totalWeight, lockups), Weights(config, lockups);
    forall id | id in rewards ensures Portion(rewards[id], config.incentives, weights[id], totalWeight, 1) {
      RewardByWeight(config, totalWeight, weights[id]);
    }
    SamePlaces(rewards, lockups);
    PartsReach(rewards, weights, config.incentives, totalWeight, 1);
  }

  /** Until positions are unwound the MARS of all of them reaches the incentives, up to the rounding of each. */
  lemma RewardsReachIncentives(w: World)
    requires Sound(w) && w.state.finalMaUst == 0 && w.state.totalWeight > 0
    ensures w.config.incentives * ONE
         <= Sum(Rewards(w.config, w.state.totalWeight, w.lockups)) * ONE + |w.lockups| * (ONE + w.config.incentives)
  {
    hide Sound, Rewards, Weights, Sum;
    WeightsCovered(w);
    RewardsReach(w.config, w.state.totalWeight, w.lockups);
  }

  lemma SamePlaces<V, W>(a: map<LockupId, V>, b: map<LockupId, W>)
    requires a.Keys == b.Keys
    ensures |a| == |b|
  {
    assert |a.Keys| == |a| && |b.Keys| == |b|;
  }

  lemma SharesReach(state: State, lockups: Lockups)
    requires Sum(Locked(lockups)) == state.finalUst > 0
    ensures state.finalMaUst * ONE <= Sum(Shares(state, lockups)) * ONE + |lockups| * (ONE + state.finalMaUst)
  {
    hide Portion, MaUstShare, Sum;
    var shares, locked := Shares(state, lockups), Locked(lockups);
    forall id | id in shares ensures Portion(shares[id], state.finalMaUst, locked[id], state.finalUst, 1) {
      ShareByUst(state, locked[id]);
    }
    SamePlaces(shares, lockups);
    PartsReach(shares, locked, state.finalMaUst, state.finalUst, 1);
  }

  /** The Red Bank deposit shares out what is minted over all positions by their UST, up to the rounding of each. */
  lemma SharesReachMinted(w: World, now: nat, sender: Addr, minted: nat)
    requires Sound(w) && w.clock <= now && DepositInRedBank(w, now, sender, minted).Ok?
    ensures var r := DepositInRedBank(w, now, sender, minted).value;
            && r.lockups == w.lockups && r.state.finalUst == Sum(Locked(w.lockups)) > 0
            && r.state.finalMaUst == minted
            && minted * ONE <= Sum(Shares(r.state, r.lockups)) * ONE + |r.lockups| * (ONE + minted)
  {
    hide Sound, Shares, Locked, Sum;
    OpenTotals(w);
    var r := DepositInRedBank(w, now, sender, minted).value;
    SharesReach(r.state, r.lockups);
  }

  /**
   An unlocked position pays the part of the maUST minted that its UST was of the final total; a share not yet
   on record is calculated from all of the user's UST.
   */
  lemma UnlockPaysProRata(w: World, now: nat, user: Addr, duration: nat, accrued: nat)
    requires Sound(w) && w.clock <= now && Claim(w, now, user, Some(duration), accrued).Ok?
    ensures var r := Claim(w, now, user, Some(duration), accrued).value;
            && LockupId(user, duration) in w.lockups && w.state.finalUst > 0
            && Get(r.maUstPaid, user) >= Get(w.maUstPaid, user)
            && Portion(Get(r.maUstPaid, user) - Get(w.maUstPaid, user), w.state.finalMaUst,
                       w.lockups[LockupId(user, duration)].ust, w.state.finalUst, 1)
  {
    hide Sound, Claim, Portion;
    ClaimPaysInFull(w, now, user, Some(duration), accrued);
    ClaimSound(w, now, user, Some(duration), accrued);
    ShareByUst(w.state, w.lockups[LockupId(user, duration)].ust);
  }

  /** A maUST share is calculated once, from all of the user's UST, and then stays as it is recorded. */
  lemma ShareOnRecord(w: World, user: Addr)
    requires w.state.finalUst > 0
    ensures var info, m := Lookup(w.users, user), Materialised(w, user);
            && user in m.users
            && (if info.maUstShare > 0 then m.users[user].maUstShare == info.maUstShare
                else Portion(m.users[user].maUstShare, w.state.finalMaUst, info.totalUst, w.state.finalUst, 1))
  {
    hide Portion, MaUstShare, Rewards, Rewarded;
    ShareByUst(w.state, Lookup(w.users, user).totalUst);
  }

  ghost function StoredRewards(lockups: Lockups): map<LockupId, nat> {
    map id | id in lockups :: lockups[id].reward
  }

  /**
   Calculating a user's incentives stores the reward of each of its positions, and no other, and these add up
   to the incentives on record; incentives on record are not calculated again.
   */
  lemma RewardsOnRecord(w: World, user: Addr, id: LockupId)
    requires Owned(user, Lookup(w.users, user), w.lockups)
    ensures var info, m := Lookup(w.users, user), Materialised(w, user);
            var first := info.incentives == 0;
            && user in m.users
            && m.users[user].incentives
               == (if first then SumSeq(info.positions, StoredRewards(m.lockups)) else info.incentives)
            && LockupOf(m.lockups, id).reward
               == (if first && id in info.positions then Get(Rewards(w.config, w.state.totalWeight, w.lockups), id)
                   else LockupOf(w.lockups, id).reward)
  {
    hide MaUstShare, Reward, Weight;
    var info, m := Lookup(w.users, user), Materialised(w, user);
    if info.incentives == 0 {
      SumSeqSame(info.positions, StoredRewards(m.lockups), Rewards(w.config, w.state.totalWeight, w.lockups));
    }
  }

  // ---------------------------------------------------------------- xMARS

  /** How far the index and the user's record move when `accrued` comes in and `due` is sent. */
  predicate XMarsSent(w: World, r: World, user: Addr, accrued: nat, due: int) {
    var growth, total := r.state.xmarsIndex - w.state.xmarsIndex, w.state.totalMaUst;
    && (if total == 0 then growth == 0 else growth * total <= accrued * ONE < growth * total + total)
    && Get(r.xmarsPaid, user) == Get(w.xmarsPaid, user) + due
    && user in r.users && r.users[user].rewardIndex == r.state.xmarsIndex
    && r.users[user].xmarsClaimed == Lookup(w.users, user).xmarsClaimed + due
    && r.ledger.xmars == w.ledger.xmars + accrued - due
  }

  lemma PaySendsXMars(w: World, user: Addr, accrued: nat)
    requires user in w.users && w.state.finalUst > 0 && PayXMars(w, user, accrued).Ok?
    ensures var r, info := PayXMars(w, user, accrued).value, w.users[user];
            XMarsSent(w, r, user, accrued,
                      Mul(info.maUstShare, r.state.xmarsIndex) - Mul(info.maUstShare, info.rewardIndex))
  {
    hide Mul;
    if w.state.totalMaUst > 0 && accrued == 0 {
      assert 0 * w.state.totalMaUst == 0;
    }
  }

  lemma RestKeepsXMars(w: World, user: Addr, accrued: nat, unlock: Option<nat>)
    requires user in w.users && Callbacks(w, user, accrued, unlock).Ok?
    ensures PayXMars(w, user, accrued).Ok?
    ensures var p, r := PayXMars(w, user, accrued).value, Callbacks(w, user, accrued, unlock).value;
            && r.state.xmarsIndex == p.state.xmarsIndex && r.xmarsPaid == p.xmarsPaid
            && r.ledger.xmars == p.ledger.xmars
            && user in r.users && r.users[user].rewardIndex == p.users[user].rewardIndex
            && r.users[user].xmarsClaimed == p.users[user].xmarsClaimed
  {
    hide XMarsDue, IndexAfter, Without, MaUstShare;
  }

  /**
   A claim raises the xMARS index by what came in per maUST still locked, rounded down, and sends the user the
   growth of its share times the index, each product rounded down.
   */
  lemma ClaimSendsXMars(w: World, now: nat, user: Addr, unlock: Option<nat>, accrued: nat)
    requires Sound(w) && w.clock <= now && Claim(w, now, user, unlock, accrued).Ok? && w.state.finalUst > 0
    ensures var r, info := Claim(w, now, user, unlock, accrued).value, Materialised(w, user).users[user];
            XMarsSent(w, r, user, accrued,
                      Mul(info.maUstShare, r.state.xmarsIndex) - Mul(info.maUstShare, info.rewardIndex))
  {
    hide Sound, Callbacks, PayXMars, MaUstShare, Rewards, Rewarded, Mul;
    var m := Materialised(w, user);
    RestKeepsXMars(m, user, accrued, unlock);
    PaySendsXMars(m, user, accrued);
  }
}
