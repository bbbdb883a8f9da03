/**
 The books of the lockdrop: positions, users and totals agree; maUST shares of live positions never
 exceed what is left; MARS committed to users never exceeds the incentives.
 */
module LockdropBook {
  import opened Decimals
  import opened Sums
  import opened Wrappers
  import opened Lockdrop

  // ---------------------------------------------------------------- positions

  predicate Owned(user: Addr, info: User, lockups: Lockups) {
    forall id :: id in info.positions ==> id.owner == user && id in lockups
  }

  predicate Registered(config: Config, users: Users, id: LockupId, lockup: Lockup) {
    && id.owner in users && id in users[id.owner].positions
    && lockup.duration == id.duration && lockup.ust > 0
    && BoostFor(config.boosts, id.duration).Some?
  }

  /** Every position is listed once, by its owner, and every listed position exists and is not empty. */
  ghost predicate Placed(config: Config, users: Users, lockups: Lockups) {
    && (forall u :: u in users ==> Distinct(users[u].positions) && Owned(u, users[u], lockups))
    && (forall id :: id in lockups ==> Registered(config, users, id, lockups[id]))
  }

  // ---------------------------------------------------------------- amounts

  ghost function UserWeights(config: Config, users: Users, lockups: Lockups): map<Addr, nat> {
    map u | u in users :: SumSeq(users[u].positions, Weights(config, lockups))
  }

  /** A user's totals cover its live positions; they are equal until positions are unwound. */
  ghost predicate UserAmounts(state: State, lockups: Lockups, info: User) {
    && SumSeq(info.positions, Locked(lockups)) <= info.totalUst
    && (state.finalMaUst == 0 ==>
          && SumSeq(info.positions, Locked(lockups)) == info.totalUst && info.maUstShare == 0
          && (info.positions == [] ==> info.incentives == 0))
    && (info.maUstShare == 0 || SumSeq(info.positions, Shares(state, lockups)) <= info.maUstShare)
  }

  ghost predicate Amounts(w: World) {
    && (forall u :: u in w.users ==> UserAmounts(w.state, w.lockups, w.users[u]))
    && (if w.state.finalMaUst == 0
        then w.state.finalUst == 0 && w.state.totalMaUst == 0
             && Sum(Locked(w.lockups)) == w.state.totalUst
             && Sum(UserWeights(w.config, w.users, w.lockups)) == w.state.totalWeight
             && w.ledger.ust >= w.state.totalUst
        else w.state.finalUst > 0 && w.clock > WithdrawEnd(w.config)
             && Sum(Locked(w.lockups)) <= w.state.finalUst)
    && Sum(Shares(w.state, w.lockups)) <= w.state.totalMaUst
    && Sum(w.maUstPaid) + w.state.totalMaUst == w.state.finalMaUst
    && w.ledger.maUst >= w.state.totalMaUst
  }

  // ---------------------------------------------------------------- MARS

  /** The MARS set aside for a user: its incentives, or what its positions would give. */
  function Entitled(config: Config, totalWeight: nat, lockups: Lockups, info: User): nat {
    if info.incentives > 0 then info.incentives
    else SumSeq(info.positions, Rewards(config, totalWeight, lockups))
  }

  /** The MARS committed to each user; for a user whose record is gone, the MARS it was sent. */
  ghost function Committed(w: World): map<Addr, nat> {
    map u | u in w.users.Keys + w.marsOut.Keys ::
      if u in w.users then Entitled(w.config, w.state.totalWeight, w.lockups, w.users[u]) else w.marsOut[u]
  }

  /** A user is sent its delegated MARS, and once the rest; never more than its incentives. */
  predicate UserMars(config: Config, state: State, info: User, out: nat, clock: nat) {
    && (info.incentives > 0 ==> clock >= WithdrawEnd(config))
    && info.delegated <= info.incentives
    && (info.claimed ==> state.claimsAllowed && info.incentives > 0)
    && out == (if info.claimed then info.incentives else info.delegated)
    && info.rewardIndex <= state.xmarsIndex
    && (info.rewardIndex > 0 ==> clock >= WithdrawEnd(config))
  }

  ghost predicate Mars(w: World) {
    && (w.state.claimsAllowed ==> w.clock > WithdrawEnd(w.config))
    && (w.clock < WithdrawEnd(w.config) ==> w.marsOut == map[] && w.state.finalMaUst == 0)
    && (forall u :: u in w.users ==> UserMars(w.config, w.state, w.users[u], Get(w.marsOut, u), w.clock))
    && Sum(Committed(w)) <= w.config.incentives
    && w.ledger.mars + Sum(w.marsOut) >= w.config.incentives
    && w.ledger.xmars + Sum(w.xmarsPaid) == w.xmarsReceived
  }

  ghost predicate Sound(w: World) {
    && ValidConfig(w.config)
    && Placed(w.config, w.users, w.lockups)
    && Amounts(w)
    && Mars(w)
  }

  lemma InstantiatedSound(config: Config, now: nat)
    requires ValidConfig(config) && config.incentives == 0
    ensures Sound(Instantiated(config, now))
  {
  }

  // ---------------------------------------------------------------- shares of maUST

  /** maUST shares of amounts add up to at most the share of the sum. */
  lemma ShareSplit(state: State, a: nat, b: nat)
    ensures MaUstShare(state, a) + MaUstShare(state, b) <= MaUstShare(state, a + b)
  {
    if state.finalUst > 0 {
      var ra, rb, rc := FromRatio(a, state.finalUst), FromRatio(b, state.finalUst), FromRatio(a + b, state.finalUst);
      RatioSplit(a, b, state.finalUst);
      MulSplitDecimal(state.finalMaUst, ra, rb);
      MulMonotone(state.finalMaUst, state.finalMaUst, ra + rb, rc);
    }
  }

  lemma ShareMonotone(state: State, a: nat, b: nat)
    requires a <= b
    ensures MaUstShare(state, a) <= MaUstShare(state, b)
  {
    ShareSplit(state, a, b - a);
  }

  lemma ShareOfAll(state: State)
    ensures MaUstShare(state, 0) == 0
    ensures MaUstShare(state, state.finalUst) <= state.finalMaUst
  {
    if state.finalUst > 0 {
      RatioAtMostOne(state.finalUst, state.finalUst);
      MulAtMostOne(state.finalMaUst, FromRatio(state.finalUst, state.finalUst));
      ShareSplit(state, 0, 0);
    }
  }

  /** The shares along a list of positions are at most the share of the UST along it. */
  lemma {:induction false} ListShare(state: State, lockups: Lockups, ids: seq<LockupId>)
    requires forall id :: id in ids ==> id in lockups
    ensures SumSeq(ids, Shares(state, lockups)) <= MaUstShare(state, SumSeq(ids, Locked(lockups)))
    decreases |ids|
  {
    hide MaUstShare;
    if ids != [] {
      assert ids[0] in ids;
      ListShare(state, lockups, ids[1..]);
      ShareSplit(state, lockups[ids[0]].ust, SumSeq(ids[1..], Locked(lockups)));
    }
  }

  /** The shares of all positions are at most the share of all their UST. */
  lemma {:induction false} AllShares(state: State, lockups: Lockups)
    ensures Sum(Shares(state, lockups)) <= MaUstShare(state, Sum(Locked(lockups)))
    decreases |lockups|
  {
    hide MaUstShare;
    if lockups == map[] {
      assert Shares(state, lockups) == map[];
    } else {
      var id :| id in lockups;
      var rest := lockups - {id};
      assert rest.Keys == lockups.Keys - {id};
      assert |rest.Keys| < |lockups.Keys|;
      AllShares(state, rest);
      hide Sum;
      assert Shares(state, rest) == Shares(state, lockups) - {id} && Locked(rest) == Locked(lockups) - {id};
      SumRemove(Shares(state, lockups), id);
      SumRemove(Locked(lockups), id);
      ShareSplit(state, lockups[id].ust, Sum(Locked(rest)));
    }
  }

  // ---------------------------------------------------------------- MARS by weight

  lemma {:induction false} ListReward(config: Config, totalWeight: nat, lockups: Lockups, ids: seq<LockupId>)
    requires totalWeight > 0 && forall id :: id in ids ==> id in lockups
    ensures SumSeq(ids, Rewards(config, totalWeight, lockups))
         <= Mul(config.incentives, FromRatio(SumSeq(ids, Weights(config, lockups)), totalWeight))
    decreases |ids|
  {
    hide Weight, Mul, FromRatio;
    if ids != [] {
      assert ids[0] in ids;
      ListReward(config, totalWeight, lockups, ids[1..]);
      RewardSplit(config, totalWeight, Weights(config, lockups)[ids[0]], SumSeq(ids[1..], Weights(config, lockups)));
    }
  }

  lemma RewardSplit(config: Config, totalWeight: nat, a: nat, b: nat)
    requires totalWeight > 0
    ensures Mul(config.incentives, FromRatio(a, totalWeight)) + Mul(config.incentives, FromRatio(b, totalWeight))
         <= Mul(config.incentives, FromRatio(a + b, totalWeight))
  {
    RatioSplit(a, b, totalWeight);
    MulSplitDecimal(config.incentives, FromRatio(a, totalWeight), FromRatio(b, totalWeight));
    MulMonotone(config.incentives, config.incentives,
                FromRatio(a, totalWeight) + FromRatio(b, totalWeight), FromRatio(a + b, totalWeight));
  }

  ghost function UserRewards(config: Config, totalWeight: nat, users: Users, lockups: Lockups): map<Addr, nat> {
    map u | u in users :: SumSeq(users[u].positions, Rewards(config, totalWeight, lockups))
  }

  lemma UserRewardBound(config: Config, totalWeight: nat, lockups: Lockups, ids: seq<LockupId>)
    requires forall id :: id in ids ==> id in lockups
    ensures Below(SumSeq(ids, Rewards(config, totalWeight, lockups)), totalWeight,
                  SumSeq(ids, Weights(config, lockups)), config.incentives)
  {
    var reward, weight := SumSeq(ids, Rewards(config, totalWeight, lockups)), SumSeq(ids, Weights(config, lockups));
    if totalWeight > 0 {
      ListReward(config, totalWeight, lockups, ids);
      ShareOfWeight(config.incentives, weight, totalWeight);
      ProductMonotone(reward, Mul(config.incentives, FromRatio(weight, totalWeight)), totalWeight, totalWeight);
    }
  }

  lemma ShareOfWeight(whole: nat, part: nat, total: nat)
    requires total > 0
    ensures Mul(whole, FromRatio(part, total)) * total <= part * whole
  {
    var r := FromRatio(part, total);
    ProductMonotone(Mul(whole, r) * ONE, whole * r, total, total);
    ProductMonotone(whole, whole, r * total, part * ONE);
    assert Mul(whole, r) * ONE * total == Mul(whole, r) * total * ONE;
    assert whole * r * total == whole * (r * total);
    assert whole * (part * ONE) == part * whole * ONE;
  }

  lemma NoWeightNoReward(config: Config, lockups: Lockups, ids: seq<LockupId>)
    ensures SumSeq(ids, Rewards(config, 0, lockups)) == 0
  {
  }

  /** The rewards of all users' positions never exceed the incentives. */
  lemma AllRewards(config: Config, totalWeight: nat, users: Users, lockups: Lockups)
    requires forall u :: u in users ==> Owned(u, users[u], lockups)
    requires Sum(UserWeights(config, users, lockups)) <= totalWeight
    ensures Sum(UserRewards(config, totalWeight, users, lockups)) <= config.incentives
  {
    hide Rewards, Weights;
    var rewards, weights := UserRewards(config, totalWeight, users, lockups), UserWeights(config, users, lockups);
    if totalWeight == 0 {
      forall u | u in users ensures Below(rewards[u], 1, Get(weights, u), 0) {
        NoWeightNoReward(config, lockups, users[u].positions);
      }
      SumBound(rewards, weights, 1, 0);
    } else {
      forall u | u in users ensures Below(rewards[u], totalWeight, Get(weights, u), config.incentives) {
        UserRewardBound(config, totalWeight, lockups, users[u].positions);
      }
      SumBound(rewards, weights, totalWeight, config.incentives);
      ProductMonotone(Sum(weights), totalWeight, config.incentives, config.incentives);
      CancelFactor(Sum(rewards), config.incentives, totalWeight);
    }
  }

  // ---------------------------------------------------------------- while the windows are open

  lemma NoShares(state: State, lockups: Lockups)
    requires state.finalUst == 0
    ensures Sum(Shares(state, lockups)) == 0
  {
    AllShares(state, lockups);
  }

  lemma NoSharesAlong(state: State, lockups: Lockups, ids: seq<LockupId>)
    requires state.finalUst == 0
    ensures SumSeq(ids, Shares(state, lockups)) == 0
  {
  }

  /** A user who has neither been given incentives nor been sent anything. */
  predicate Untouched(info: User) {
    info.incentives == 0 && info.delegated == 0 && !info.claimed && info.maUstShare == 0 && info.rewardIndex == 0
  }

  lemma BeforeClose(w: World)
    requires Sound(w) && w.clock < WithdrawEnd(w.config)
    ensures w.state.finalMaUst == 0 && w.marsOut == map[] && !w.state.claimsAllowed
    ensures forall u :: u in w.users ==> Untouched(w.users[u])
  {
    hide Placed;
    forall u | u in w.users ensures Untouched(w.users[u]) {
      assert UserMars(w.config, w.state, w.users[u], Get(w.marsOut, u), w.clock);
      assert UserAmounts(w.state, w.lockups, w.users[u]);
    }
  }

  /** Before the windows close, agreement of positions, users and totals is all there is to keep. */
  lemma OpenSound(w: World)
    requires ValidConfig(w.config) && Placed(w.config, w.users, w.lockups)
    requires w.clock < WithdrawEnd(w.config)
    requires w.state.finalMaUst == 0 && w.state.finalUst == 0 && w.state.totalMaUst == 0
    requires w.marsOut == map[] && !w.state.claimsAllowed
    requires forall u :: u in w.users ==>
               Untouched(w.users[u]) && SumSeq(w.users[u].positions, Locked(w.lockups)) == w.users[u].totalUst
    requires Sum(Locked(w.lockups)) == w.state.totalUst
    requires Sum(UserWeights(w.config, w.users, w.lockups)) == w.state.totalWeight
    requires w.ledger.ust >= w.state.totalUst && w.ledger.mars >= w.config.incentives
    requires Sum(w.maUstPaid) == 0 && w.ledger.xmars + Sum(w.xmarsPaid) == w.xmarsReceived
    ensures Sound(w)
  {
    hide Rewards, Shares, Weights, Locked, UserWeights, UserAmounts, UserMars;
    assert forall u :: u in w.users ==> Owned(u, w.users[u], w.lockups);
    hide Placed, Owned;
    NoShares(w.state, w.lockups);
    OpenCommitted(w);
    hide Committed;
    forall u | u in w.users
      ensures UserAmounts(w.state, w.lockups, w.users[u]) && UserMars(w.config, w.state, w.users[u], 0, w.clock)
    {
      UntouchedSound(w, w.users[u]);
    }
  }

  lemma OpenCommitted(w: World)
    requires forall u :: u in w.users ==> Untouched(w.users[u]) && Owned(u, w.users[u], w.lockups)
    requires w.marsOut == map[] && Sum(UserWeights(w.config, w.users, w.lockups)) == w.state.totalWeight
    ensures Sum(Committed(w)) <= w.config.incentives
  {
    hide Rewards, Weights, Owned;
    AllRewards(w.config, w.state.totalWeight, w.users, w.lockups);
    assert Committed(w) == UserRewards(w.config, w.state.totalWeight, w.users, w.lockups);
  }

  lemma UntouchedSound(w: World, info: User)
    requires w.state.finalUst == 0 && Untouched(info) && SumSeq(info.positions, Locked(w.lockups)) == info.totalUst
    ensures UserAmounts(w.state, w.lockups, info) && UserMars(w.config, w.state, info, 0, w.clock)
  {
    hide Locked, Shares;
    NoSharesAlong(w.state, w.lockups, info.positions);
  }

  lemma {:induction false} BoostNonZero(boosts: seq<Boost>, duration: nat)
    requires forall b :: b in boosts ==> b.duration != 0
    requires BoostFor(boosts, duration).Some?
    ensures duration != 0
    decreases |boosts|
  {
    if boosts[0].duration != duration {
      BoostNonZero(boosts[1..], duration);
    }
  }

  /** The effect on the sum along a user's list of changing, or adding, one position. */
  lemma ListAfterPut(ids: seq<LockupId>, after: seq<LockupId>, m: map<LockupId, nat>, id: LockupId, v: nat)
    requires Distinct(ids)
    requires if id in ids then after == ids else after == ids + [id] && id !in m
    ensures SumSeq(after, m[id := v]) + Get(m, id) == SumSeq(ids, m) + v
  {
    if id in ids {
      SumSeqUpdate(ids, m, id, v);
    } else {
      SumSeqConcat(ids, [id], m[id := v]);
      SumSeqSame(ids, m, m[id := v]);
      assert SumSeq([id], m[id := v]) == v + SumSeq([], m[id := v]);
    }
  }

  lemma WeightSplit(config: Config, duration: nat, a: nat, b: nat)
    ensures Weight(config, duration, a + b) == Weight(config, duration, a) + Weight(config, duration, b)
  {
    var boost := BoostFor(config.boosts, duration).GetOr(0);
    assert (a + b) * boost == a * boost + b * boost;
  }

  lemma DepositPlaced(w: World, now: nat, user: Addr, duration: nat, amount: nat)
    requires ValidConfig(w.config) && Placed(w.config, w.users, w.lockups)
    requires DepositUst(w, now, user, duration, amount).Ok?
    ensures var r := DepositUst(w, now, user, duration, amount).value;
            var id, info := LockupId(user, duration), Lookup(w.users, user);
            && Placed(r.config, r.users, r.lockups)
            && Distinct(info.positions)
            && Lookup(r.users, user).positions
               == (if id in info.positions then info.positions else info.positions + [id])
            && (id in info.positions <==> id in w.lockups)
  {
    hide Weight, BoostFor;
    var r := DepositUst(w, now, user, duration, amount).value;
    var id, info := LockupId(user, duration), Lookup(w.users, user);
    BoostNonZero(w.config.boosts, duration);
    DurationKept(w, id);
    ListedExactly(w, user, id);
    hide Placed, Distinct;
    if id in w.lockups {
      KeepPlaced(w.config, w.users, w.lockups, id, r.users[user], r.lockups[id]);
    } else {
      AddPlaced(w.config, w.users, w.lockups, id, r.users[user], r.lockups[id]);
    }
  }

  lemma ListedExactly(w: World, user: Addr, id: LockupId)
    requires Placed(w.config, w.users, w.lockups) && id.owner == user
    ensures Distinct(Lookup(w.users, user).positions)
    ensures id in Lookup(w.users, user).positions <==> id in w.lockups
  {
  }

  lemma AddPlaced(config: Config, users: Users, lockups: Lockups, id: LockupId, info: User, lockup: Lockup)
    requires Placed(config, users, lockups) && id !in lockups
    requires info.positions == Lookup(users, id.owner).positions + [id]
    requires lockup.duration == id.duration && lockup.ust > 0 && BoostFor(config.boosts, id.duration).Some?
    ensures Placed(config, users[id.owner := info], lockups[id := lockup])
  {
  }

  /** Other users' lists do not mention a position of `user`. */
  lemma OthersUnaffected(users: Users, lockups: Lockups, id: LockupId, m: map<LockupId, nat>, n: map<LockupId, nat>)
    requires forall u :: u in users ==> Owned(u, users[u], lockups)
    requires forall j :: j != id ==> Get(m, j) == Get(n, j)
    ensures forall u :: u in users && u != id.owner ==> SumSeq(users[u].positions, m) == SumSeq(users[u].positions, n)
  {
    forall u | u in users && u != id.owner ensures SumSeq(users[u].positions, m) == SumSeq(users[u].positions, n) {
      SumSeqSame(users[u].positions, m, n);
    }
  }

  ghost predicate Kept(users: Users, user: Addr, m: map<LockupId, nat>, n: map<LockupId, nat>) {
    forall u :: u in users && u != user ==> SumSeq(users[u].positions, m) == SumSeq(users[u].positions, n)
  }

  /** One position of `user` changed: the sums over all positions, and over the user's, moved by `ust` and `weight`. */
  ghost predicate Moved(w: World, r: World, user: Addr, ust: int, weight: int) {
    && user in r.users
    && Sum(Locked(r.lockups)) == Sum(Locked(w.lockups)) + ust
    && SumSeq(r.users[user].positions, Locked(r.lockups))
       == SumSeq(Lookup(w.users, user).positions, Locked(w.lockups)) + ust
    && SumSeq(r.users[user].positions, Weights(r.config, r.lockups))
       == SumSeq(Lookup(w.users, user).positions, Weights(w.config, w.lockups)) + weight
    && Kept(w.users, user, Locked(w.lockups), Locked(r.lockups))
    && Kept(w.users, user, Weights(w.config, w.lockups), Weights(r.config, r.lockups))
  }

  lemma PutMoves(w: World, r: World, id: LockupId, ust: nat, weight: nat)
    requires id.owner in r.users && forall u :: u in w.users ==> Owned(u, w.users[u], w.lockups)
    requires var before, after := Lookup(w.users, id.owner).positions, r.users[id.owner].positions;
             Distinct(before) && if id in before then after == before else after == before + [id] && id !in w.lockups
    requires Locked(r.lockups) == Locked(w.lockups)[id := ust]
    requires Weights(r.config, r.lockups) == Weights(w.config, w.lockups)[id := weight]
    ensures Moved(w, r, id.owner, ust - Get(Locked(w.lockups), id), weight - Get(Weights(w.config, w.lockups), id))
  {
    hide Weight, Owned, SumSeq, Sum, Distinct;
    var locked, weights := Locked(w.lockups), Weights(w.config, w.lockups);
    var before, after := Lookup(w.users, id.owner).positions, r.users[id.owner].positions;
    assert id in w.lockups || (id !in locked && id !in weights);
    hide Locked, Weights;
    SumUpdate(locked, id, ust);
    ListAfterPut(before, after, locked, id, ust);
    ListAfterPut(before, after, weights, id, weight);
    OthersUnaffected(w.users, w.lockups, id, locked, Locked(r.lockups));
    OthersUnaffected(w.users, w.lockups, id, weights, Weights(r.config, r.lockups));
  }

  /** The maps of amounts and weights after storing one position. */
  lemma StoredMaps(config: Config, lockups: Lockups, id: LockupId, lockup: Lockup)
    ensures Locked(lockups[id := lockup]) == Locked(lockups)[id := lockup.ust]
    ensures Weights(config, lockups[id := lockup])
         == Weights(config, lockups)[id := Weight(config, lockup.duration, lockup.ust)]
  {
    hide Weight;
  }

  lemma DepositMoves(w: World, now: nat, user: Addr, duration: nat, amount: nat)
    requires ValidConfig(w.config) && Placed(w.config, w.users, w.lockups)
    requires DepositUst(w, now, user, duration, amount).Ok?
    ensures Moved(w, DepositUst(w, now, user, duration, amount).value, user, amount, Weight(w.config, duration, amount))
  {
    hide Weight, Registered, Moved, Owned;
    var r, id := DepositUst(w, now, user, duration, amount).value, LockupId(user, duration);
    var lockup := LockupOf(w.lockups, id);
    DepositPlaced(w, now, user, duration, amount);
    DurationKept(w, id);
    WeightSplit(w.config, duration, lockup.ust, amount);
    NoWeight(w.config, duration);
    BoostNonZero(w.config.boosts, duration);
    StoredMaps(w.config, w.lockups, id, r.lockups[id]);
    PutMoves(w, r, id, lockup.ust + amount, Weight(w.config, duration, lockup.ust + amount));
  }

  lemma NoWeight(config: Config, duration: nat)
    ensures Weight(config, duration, 0) == 0
  {
  }

  lemma DepositSound(w: World, now: nat, user: Addr, duration: nat, amount: nat)
    requires Sound(w) && w.clock <= now && DepositUst(w, now, user, duration, amount).Ok?
    ensures Sound(DepositUst(w, now, user, duration, amount).value)
  {
    hide Weight, Placed, Mars, Locked, Weights, UserWeights, Shares;
    var r := DepositUst(w, now, user, duration, amount).value;
    BeforeClose(w);
    DepositPlaced(w, now, user, duration, amount);
    DepositMoves(w, now, user, duration, amount);
    UserWeightsUpdate(w, r, user);
    if user in w.users {
      assert UserAmounts(w.state, w.lockups, w.users[user]);
    }
    AfterOpenChange(w, r, user);
  }

  lemma DurationKept(w: World, id: LockupId)
    requires Placed(w.config, w.users, w.lockups)
    ensures id in w.lockups ==> w.lockups[id].duration == id.duration && w.lockups[id].ust > 0
    ensures LockupOf(w.lockups, id).duration == (if id in w.lockups then id.duration else 0)
    ensures Get(Weights(w.config, w.lockups), id)
         == (if id in w.lockups then Weight(w.config, id.duration, w.lockups[id].ust) else 0)
  {
    hide Weight;
    if id in w.lockups {
      assert Registered(w.config, w.users, id, w.lockups[id]);
    }
  }

  lemma UserWeightsUpdate(w: World, r: World, user: Addr)
    requires r.config == w.config && user in r.users && r.users == w.users[user := r.users[user]]
    requires Kept(w.users, user, Weights(w.config, w.lockups), Weights(r.config, r.lockups))
    ensures Sum(UserWeights(r.config, r.users, r.lockups))
            + SumSeq(Lookup(w.users, user).positions, Weights(w.config, w.lockups))
         == Sum(UserWeights(w.config, w.users, w.lockups))
            + SumSeq(r.users[user].positions, Weights(r.config, r.lockups))
  {
    hide Weights;
    var before := UserWeights(w.config, w.users, w.lockups);
    var v := SumSeq(r.users[user].positions, Weights(r.config, r.lockups));
    assert UserWeights(r.config, r.users, r.lockups) == before[user := v];
    SumUpdate(before, user, v);
  }

  lemma AfterOpenChange(w: World, r: World, user: Addr)
    requires Sound(w) && r.clock < WithdrawEnd(w.config) && w.clock <= r.clock
    requires r.config == w.config && Placed(r.config, r.users, r.lockups)
    requires user in r.users && r.users == w.users[user := r.users[user]]
    requires Untouched(Lookup(w.users, user)) ==> Untouched(r.users[user])
    requires r.state == w.state.(totalUst := r.state.totalUst, totalWeight := r.state.totalWeight)
    requires r.marsOut == w.marsOut && r.maUstPaid == w.maUstPaid && r.ledger == w.ledger.(ust := r.ledger.ust)
    requires r.xmarsPaid == w.xmarsPaid && r.xmarsReceived == w.xmarsReceived
    requires Kept(w.users, user, Locked(w.lockups), Locked(r.lockups))
    requires SumSeq(r.users[user].positions, Locked(r.lockups)) == r.users[user].totalUst
    requires Sum(Locked(r.lockups)) == r.state.totalUst
    requires Sum(UserWeights(r.config, r.users, r.lockups)) == r.state.totalWeight
    requires r.ledger.ust >= r.state.totalUst
    ensures Sound(r)
  {
    hide Locked, Placed, UserWeights;
    BeforeClose(w);
    forall u | u in r.users
      ensures Untouched(r.users[u]) && SumSeq(r.users[u].positions, Locked(r.lockups)) == r.users[u].totalUst {
      if u != user {
        assert UserAmounts(w.state, w.lockups, w.users[u]);
      }
    }
    OpenSound(r);
  }

  // ---------------------------------------------------------------- withdrawals

  lemma {:induction false} IndexOfDistinct(ids: seq<LockupId>, id: LockupId)
    requires Distinct(ids) && id in ids
    ensures var rest := Without(ids, id);
            Distinct(rest) && id !in rest && (forall j :: j in ids ==> j == id || j in rest)
    ensures forall j :: j in Without(ids, id) ==> j in ids
  {
  }

  lemma TakeOut(ids: seq<LockupId>, id: LockupId, m: map<LockupId, nat>)
    requires Distinct(ids) && id in ids
    ensures SumSeq(Without(ids, id), m - {id}) + Get(m, id) == SumSeq(ids, m)
  {
    IndexOfDistinct(ids, id);
    SumSeqTakeOut(ids, IndexOf(ids, id), m);
    SumSeqSame(Without(ids, id), m, m - {id});
  }

  lemma TakeMoves(w: World, r: World, id: LockupId)
    requires id.owner in w.users && forall u :: u in w.users ==> Owned(u, w.users[u], w.lockups)
    requires id.owner in r.users && Distinct(w.users[id.owner].positions) && id in w.users[id.owner].positions
    requires r.users[id.owner].positions == Without(w.users[id.owner].positions, id)
    requires r.config == w.config && r.lockups == w.lockups - {id}
    ensures Moved(w, r, id.owner, -(Get(Locked(w.lockups), id) as int), -(Get(Weights(w.config, w.lockups), id) as int))
  {
    var locked, weights := Locked(w.lockups), Weights(w.config, w.lockups);
    TakenMaps(w.config, w.lockups, id);
    hide Locked, Weights;
    SumDrop(locked, id);
    TakeOut(w.users[id.owner].positions, id, locked);
    TakeOut(w.users[id.owner].positions, id, weights);
    OthersUnaffected(w.users, w.lockups, id, locked, Locked(r.lockups));
    OthersUnaffected(w.users, w.lockups, id, weights, Weights(r.config, r.lockups));
  }

  /** The maps of amounts and weights after removing one position. */
  lemma TakenMaps(config: Config, lockups: Lockups, id: LockupId)
    ensures Locked(lockups - {id}) == Locked(lockups) - {id}
    ensures Weights(config, lockups - {id}) == Weights(config, lockups) - {id}
  {
    hide Weight;
  }

  lemma TakePlaced(config: Config, users: Users, lockups: Lockups, id: LockupId, info: User)
    requires Placed(config, users, lockups) && id.owner in users && id in users[id.owner].positions
    requires info.positions == Without(users[id.owner].positions, id)
    ensures Placed(config, users[id.owner := info], lockups - {id})
  {
  }

  lemma KeepPlaced(config: Config, users: Users, lockups: Lockups, id: LockupId, info: User, lockup: Lockup)
    requires Placed(config, users, lockups) && id in lockups
    requires info.positions == users[id.owner].positions && lockup.duration == lockups[id].duration && lockup.ust > 0
    ensures Placed(config, users[id.owner := info], lockups[id := lockup])
  {
  }
}
