/** Every transaction of the lockdrop keeps its books, and no payment it owes can fail for lack of tokens. */
module LockdropSolvency {
  import opened Decimals
  import opened Sums
  import opened Wrappers
  import opened Lockdrop
  import opened LockdropBook

  // ---------------------------------------------------------------- changes that touch no amount

  /** The same positions, up to the stored reward and the withdrawal flag. */
  predicate SamePositions(a: Lockups, b: Lockups) {
    && a.Keys == b.Keys
    && forall id :: id in a ==> a[id].ust == b[id].ust && a[id].duration == b[id].duration
  }

  lemma SameMaps(config: Config, state: State, a: Lockups, b: Lockups, other: Config)
    requires SamePositions(a, b) && other.boosts == config.boosts && other.incentives == config.incentives
    ensures Locked(a) == Locked(b) && Weights(config, a) == Weights(other, b) && Shares(state, a) == Shares(state, b)
    ensures Rewards(config, state.totalWeight, a) == Rewards(other, state.totalWeight, b)
  {
  }

  predicate SameTerms(a: Config, b: Config) {
    b == a.(owner := b.owner, auction := b.auction, providerSet := b.providerSet, maUstSet := b.maUstSet)
  }

  lemma SamePlaced(config: Config, other: Config, users: Users, a: Lockups, b: Lockups)
    requires Placed(config, users, a) && SamePositions(a, b) && other.boosts == config.boosts
    ensures Placed(other, users, b)
  {
  }

  /** Time passing, wiring, enabling claims and marking a withdrawal keep the books. */
  lemma UnchangedSound(w: World, r: World)
    requires Sound(w) && w.clock <= r.clock
    requires SameTerms(w.config, r.config) && SamePositions(w.lockups, r.lockups)
    requires r == w.(clock := r.clock, config := r.config, lockups := r.lockups,
                     state := w.state.(claimsAllowed := r.state.claimsAllowed))
    requires w.state.claimsAllowed ==> r.state.claimsAllowed
    requires r.state.claimsAllowed ==> r.clock > WithdrawEnd(w.config)
    ensures Sound(r)
  {
    hide Shares, Locked, Weights, Rewards;
    SamePlaced(w.config, r.config, w.users, w.lockups, r.lockups);
    SameMaps(w.config, w.state, w.lockups, r.lockups, r.config);
    hide Placed, SamePositions;
    SameShares(w, r);
    UnchangedAmounts(w, r);
    hide Amounts, UserWeights;
    UnchangedMars(w, r);
    hide Mars;
  }

  lemma UnchangedMars(w: World, r: World)
    requires Mars(w) && w.clock <= r.clock && SameTerms(w.config, r.config)
    requires r == w.(clock := r.clock, config := r.config, lockups := r.lockups,
                     state := w.state.(claimsAllowed := r.state.claimsAllowed))
    requires Rewards(w.config, w.state.totalWeight, w.lockups) == Rewards(r.config, w.state.totalWeight, r.lockups)
    requires w.state.claimsAllowed ==> r.state.claimsAllowed
    requires r.state.claimsAllowed ==> r.clock > WithdrawEnd(w.config)
    ensures Mars(r)
  {
    hide Rewards;
    assert Committed(w) == Committed(r) by {
      hide UserMars;
    }
    hide Committed;
    forall u | u in r.users ensures UserMars(r.config, r.state, r.users[u], Get(r.marsOut, u), r.clock) {
      assert UserMars(w.config, w.state, w.users[u], Get(w.marsOut, u), w.clock);
    }
  }

  lemma SameShares(w: World, r: World)
    requires r.state == w.state.(claimsAllowed := r.state.claimsAllowed)
    ensures Shares(r.state, r.lockups) == Shares(w.state, r.lockups)
  {
    hide Mul, FromRatio;
  }

  lemma UnchangedAmounts(w: World, r: World)
    requires Amounts(w) && w.clock <= r.clock && SameTerms(w.config, r.config)
    requires r == w.(clock := r.clock, config := r.config, lockups := r.lockups,
                     state := w.state.(claimsAllowed := r.state.claimsAllowed))
    requires Locked(w.lockups) == Locked(r.lockups) && Weights(w.config, w.lockups) == Weights(r.config, r.lockups)
    requires Shares(w.state, w.lockups) == Shares(r.state, r.lockups)
    ensures Amounts(r)
  {
  }

  lemma WaitSound(w: World, now: nat)
    requires Sound(w) && w.clock <= now
    ensures Sound(w.(clock := now))
  {
  }

  lemma ClaimsAfterClose(w: World)
    requires Sound(w)
    ensures w.state.claimsAllowed ==> w.clock > WithdrawEnd(w.config)
  {
  }

  lemma UpdateConfigSound(w: World, now: nat, sender: Addr, owner: Option<Addr>, auction: Option<Addr>,
                          setProvider: bool, setMaUst: bool)
    requires Sound(w) && w.clock <= now && UpdateConfig(w, now, sender, owner, auction, setProvider, setMaUst).Ok?
    ensures Sound(UpdateConfig(w, now, sender, owner, auction, setProvider, setMaUst).value)
  {
    ClaimsAfterClose(w);
    hide Sound;
    UnchangedSound(w, UpdateConfig(w, now, sender, owner, auction, setProvider, setMaUst).value);
  }

  lemma EnableClaimsSound(w: World, now: nat, sender: Addr)
    requires Sound(w) && w.clock <= now && w.config.init <= now && EnableClaims(w, now, sender).Ok?
    ensures Sound(EnableClaims(w, now, sender).value)
  {
    ClaimsAfterClose(w);
    hide Sound;
    UnchangedSound(w, EnableClaims(w, now, sender).value);
  }

  // ---------------------------------------------------------------- before the windows close

  lemma IncreaseIncentivesSound(w: World, now: nat, amount: nat)
    requires Sound(w) && w.clock <= now && IncreaseIncentives(w, now, amount).Ok?
    ensures Sound(IncreaseIncentives(w, now, amount).value)
  {
    hide Shares, Locked, Weights;
    var r := IncreaseIncentives(w, now, amount).value;
    BeforeClose(w);
    assert Weights(r.config, r.lockups) == Weights(w.config, w.lockups) by {
      SameWeights(w.config, r.config, w.lockups);
    }
    assert UserWeights(r.config, r.users, r.lockups) == UserWeights(w.config, w.users, w.lockups);
    SamePlaced(w.config, r.config, w.users, w.lockups, r.lockups);
    hide Placed, UserWeights, Committed;
    forall u | u in r.users ensures SumSeq(r.users[u].positions, Locked(r.lockups)) == r.users[u].totalUst {
      assert UserAmounts(w.state, w.lockups, w.users[u]);
    }
    OpenSound(r);
  }

  lemma SameWeights(config: Config, other: Config, lockups: Lockups)
    requires other.boosts == config.boosts
    ensures Weights(config, lockups) == Weights(other, lockups)
  {
  }

  /** A live position of a sound lockdrop is listed by its owner, and covered by every total. */
  lemma LockupFacts(w: World, id: LockupId)
    requires Sound(w) && id in w.lockups
    ensures id.owner in w.users && id in w.users[id.owner].positions && Distinct(w.users[id.owner].positions)
    ensures w.lockups[id].duration == id.duration && w.lockups[id].ust > 0
    ensures w.lockups[id].ust <= w.users[id.owner].totalUst
    ensures w.lockups[id].ust <= Sum(Locked(w.lockups))
    ensures Weights(w.config, w.lockups)[id] == Weight(w.config, id.duration, w.lockups[id].ust)
    ensures Weight(w.config, id.duration, w.lockups[id].ust)
         <= SumSeq(w.users[id.owner].positions, Weights(w.config, w.lockups))
  {
    hide Mars, Weight;
    assert Registered(w.config, w.users, id, w.lockups[id]);
    var ids := w.users[id.owner].positions;
    TakeOut(ids, id, Locked(w.lockups));
    TakeOut(ids, id, Weights(w.config, w.lockups));
    SumContains(Locked(w.lockups), id);
    assert UserAmounts(w.state, w.lockups, w.users[id.owner]);
  }

  lemma UserWeightWithin(w: World, user: Addr)
    requires Sound(w) && user in w.users && w.state.finalMaUst == 0
    ensures SumSeq(w.users[user].positions, Weights(w.config, w.lockups)) <= w.state.totalWeight
  {
    hide Weights;
    SumContains(UserWeights(w.config, w.users, w.lockups), user);
  }

  /** While the windows are open the totals cover every part of a position. */
  lemma PartCovered(w: World, id: LockupId, amount: nat)
    requires Sound(w) && w.state.finalMaUst == 0 && id in w.lockups && amount <= w.lockups[id].ust
    ensures id.owner in w.users && id in w.users[id.owner].positions
    ensures amount <= w.users[id.owner].totalUst && amount <= w.state.totalUst && amount <= w.ledger.ust
    ensures Weight(w.config, id.duration, amount) <= w.state.totalWeight
  {
    LockupFacts(w, id);
    UserWeightWithin(w, id.owner);
    OpenTotals(w);
    WeightSplit(w.config, id.duration, amount, w.lockups[id].ust - amount);
  }

  /** No withdrawal underflows or lacks UST. */
  lemma WithdrawFunded(w: World, now: nat, user: Addr, duration: nat, amount: nat)
    requires Sound(w) && w.clock <= now
    ensures WithdrawUst(w, now, user, duration, amount) != Err(Underflow)
    ensures WithdrawUst(w, now, user, duration, amount) != Err(Unfunded)
    ensures WithdrawUst(w, now, user, duration, amount).Ok? ==>
              && LockupId(user, duration) in w.lockups && user in w.users
              && w.state.finalMaUst == 0
              && amount <= w.lockups[LockupId(user, duration)].ust
              && (now >= WithdrawEnd(w.config) ==> amount == 0)
  {
    var id := LockupId(user, duration);
    hide Mul, FromRatio, AllowedWithdrawalPercent, Weight, Sound;
    BeforeCloseAt(w, now);
    PlacedOf(w);
    WithdrawalLimit(w.config, now, LockupOf(w.lockups, id).ust);
    if id in w.lockups && IsWithdrawOpen(w.config, now) && amount <= w.lockups[id].ust {
      PartCovered(w, id, amount);
    }
  }

  lemma BeforeCloseAt(w: World, now: nat)
    requires Sound(w) && w.clock <= now
    ensures IsWithdrawOpen(w.config, now) ==> w.state.finalMaUst == 0
  {
  }

  lemma OpenTotals(w: World)
    requires Sound(w) && w.state.finalMaUst == 0
    ensures Sum(Locked(w.lockups)) == w.state.totalUst && w.ledger.ust >= w.state.totalUst
  {
  }

  lemma WithdrawalLimit(config: Config, now: nat, ust: nat)
    requires ValidConfig(config)
    ensures Mul(ust, AllowedWithdrawalPercent(config, now)) <= ust
    ensures now >= WithdrawEnd(config) ==> Mul(ust, AllowedWithdrawalPercent(config, now)) == 0
  {
    hide AllowedWithdrawalPercent, Mul, FromRatio;
    PercentAtMostOne(config, now);
    MulAtMostOne(ust, AllowedWithdrawalPercent(config, now));
    MulZero(ust);
  }

  lemma MulZero(x: nat)
    ensures Mul(x, 0) == 0
  {
  }

  lemma PercentAtMostOne(config: Config, now: nat)
    requires ValidConfig(config)
    ensures AllowedWithdrawalPercent(config, now) <= ONE
    ensures now >= DepositEnd(config) ==> AllowedWithdrawalPercent(config, now) <= Half(ONE)
    ensures now >= WithdrawEnd(config) ==> AllowedWithdrawalPercent(config, now) == 0
  {
    var cutoff := DepositEnd(config);
    var second := cutoff + config.withdrawalWindow / 2;
    var final := cutoff + config.withdrawalWindow;
    if second < now < final {
      HalfRatio(final - now, final - second);
    }
  }

  lemma HalfRatio(part: nat, whole: nat)
    requires 0 < whole && part <= whole
    ensures 100 * whole > 0 && FromRatio(50 * part, 100 * whole) <= Half(ONE)
  {
    var r := FromRatio(50 * part, 100 * whole);
    hide FromRatio, Half;
    assert 50 * part * ONE <= 50 * whole * ONE == 50 * ONE * whole;
    assert 2 * 50 * ONE == 100 * ONE;
    HalfOfOne();
    assert 50 * whole * ONE == Half(ONE) * (100 * whole);
    CancelFactor(r, Half(ONE), 100 * whole);
  }

  lemma HalfOfOne()
    ensures 2 * Half(ONE) == ONE
  {
  }

  lemma WithdrawPlaced(w: World, now: nat, user: Addr, duration: nat, amount: nat, r: World)
    requires Sound(w) && w.clock <= now && WithdrawUst(w, now, user, duration, amount) == Ok(r)
    ensures Placed(r.config, r.users, r.lockups)
  {
    hide Weight, Mul, FromRatio, AllowedWithdrawalPercent, Amounts, Mars;
    WithdrawFunded(w, now, user, duration, amount);
    var id := LockupId(user, duration);
    LockupFacts(w, id);
    PlacedOf(w);
    hide Sound, Placed, Owned;
    if amount == w.lockups[id].ust {
      TakePlaced(w.config, w.users, w.lockups, id, r.users[user]);
    } else {
      KeepPlaced(w.config, w.users, w.lockups, id, r.users[user], r.lockups[id]);
    }
  }

  lemma PlacedOf(w: World)
    requires Sound(w)
    ensures ValidConfig(w.config) && Placed(w.config, w.users, w.lockups)
    ensures forall u :: u in w.users ==> Owned(u, w.users[u], w.lockups)
  {
  }

  /** A withdrawal moves every sum by its amount or its weight. */
  lemma WithdrawMoves(w: World, now: nat, user: Addr, duration: nat, amount: nat, r: World)
    requires Sound(w) && w.clock <= now && WithdrawUst(w, now, user, duration, amount) == Ok(r)
    ensures Moved(w, r, user, -(amount as int), -(Weight(w.config, duration, amount) as int))
  {
    hide Mul, FromRatio, AllowedWithdrawalPercent, Weight, Sound, Moved, Owned, Without;
    WithdrawFunded(w, now, user, duration, amount);
    var id := LockupId(user, duration);
    LockupFacts(w, id);
    PlacedOf(w);
    WeightSplit(w.config, duration, amount, w.lockups[id].ust - amount);
    hide Placed, Locked, Weights;
    assert r.config == w.config && user in r.users;
    assert r.users[user].positions
         == (if amount == w.lockups[id].ust then Without(w.users[user].positions, id) else w.users[user].positions);
    assert r.lockups == if amount == w.lockups[id].ust then w.lockups - {id} else w.lockups[id := r.lockups[id]];
    assert amount != w.lockups[id].ust ==>
             r.lockups[id].ust == w.lockups[id].ust - amount && r.lockups[id].duration == duration;
    hide WithdrawUst;
    assert Get(Locked(w.lockups), id) == w.lockups[id].ust;
    if amount == w.lockups[id].ust {
      TakeMoves(w, r, id);
    } else {
      StoredMaps(w.config, w.lockups, id, r.lockups[id]);
      PutMoves(w, r, id, r.lockups[id].ust, Weight(w.config, duration, r.lockups[id].ust));
    }
  }

  lemma EarlyWithdrawSound(w: World, now: nat, user: Addr, duration: nat, amount: nat, r: World)
    requires Sound(w) && w.clock <= now < WithdrawEnd(w.config) && WithdrawUst(w, now, user, duration, amount) == Ok(r)
    ensures Sound(r)
  {
    hide Weight, Placed, Mars, Locked, Weights, UserWeights, Shares, AllowedWithdrawalPercent, Mul, FromRatio;
    BeforeClose(w);
    WithdrawFunded(w, now, user, duration, amount);
    WithdrawPlaced(w, now, user, duration, amount, r);
    WithdrawMoves(w, now, user, duration, amount, r);
    UserWeightsUpdate(w, r, user);
    assert UserAmounts(w.state, w.lockups, w.users[user]);
    AfterOpenChange(w, r, user);
  }

  /** At the very end of the window only zero can be withdrawn: the flag is all that changes. */
  lemma LastWithdrawSound(w: World, now: nat, user: Addr, duration: nat, amount: nat, r: World)
    requires Sound(w) && w.clock <= now == WithdrawEnd(w.config) && WithdrawUst(w, now, user, duration, amount) == Ok(r)
    ensures Sound(r)
  {
    hide Weight, Sound, AllowedWithdrawalPercent, Mul, FromRatio;
    WithdrawFunded(w, now, user, duration, amount);
    ClaimsAfterClose(w);
    NoWeight(w.config, duration);
    LockupFacts(w, LockupId(user, duration));
    assert r.users == w.users;
    UnchangedSound(w, r);
  }

  lemma WithdrawSound(w: World, now: nat, user: Addr, duration: nat, amount: nat, r: World)
    requires Sound(w) && w.clock <= now && WithdrawUst(w, now, user, duration, amount) == Ok(r)
    ensures Sound(r)
  {
    hide Sound, Weight, AllowedWithdrawalPercent, Mul, FromRatio;
    if now < WithdrawEnd(w.config) {
      EarlyWithdrawSound(w, now, user, duration, amount, r);
    } else {
      LastWithdrawSound(w, now, user, duration, amount, r);
    }
  }
}
