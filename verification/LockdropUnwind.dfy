/** Unwinding positions, one by one or a user at a time, keeps the books. */
module LockdropUnwind {
  import opened Sums
  import opened Wrappers
  import opened Lockdrop
  import opened LockdropBook
  import opened LockdropSolvency
  import opened LockdropClaims

  /** Positions `ids` of `user` are gone, `amount` of maUST was paid for them, and the user's record is now `info`. */
  function Released(w: World, user: Addr, info: Option<User>, ids: set<LockupId>, amount: nat): World
    requires amount <= w.state.totalMaUst && amount <= w.ledger.maUst
  {
    w.(state := w.state.(totalMaUst := w.state.totalMaUst - amount),
       lockups := w.lockups - ids,
       users := if info.Some? then w.users[user := info.value] else w.users - {user},
       ledger := w.ledger.(maUst := w.ledger.maUst - amount),
       maUstPaid := Credit(w.maUstPaid, user, amount))
  }

  function Remaining(info: Option<User>): seq<LockupId> {
    if info.Some? then info.value.positions else []
  }

  /** `rest` is what is left of `positions` without `ids`. */
  ghost predicate Splits(positions: seq<LockupId>, rest: seq<LockupId>, ids: set<LockupId>) {
    && Distinct(rest)
    && (forall id :: id in ids ==> id in positions)
    && (forall id :: id in positions ==> id in ids || id in rest)
    && (forall id :: id in rest ==> id in positions && id !in ids)
  }

  ghost predicate Lighter(w: World, user: Addr, info: Option<User>, ids: set<LockupId>)
    requires user in w.users
  {
    var rewards := Rewards(w.config, w.state.totalWeight, w.lockups);
    SumSeq(Remaining(info), rewards - ids) <= SumSeq(w.users[user].positions, rewards)
  }

  lemma SplitPlaced(config: Config, users: Users, lockups: Lockups, user: Addr, info: Option<User>, ids: set<LockupId>)
    requires Placed(config, users, lockups) && user in users && Splits(users[user].positions, Remaining(info), ids)
    ensures Placed(config, if info.Some? then users[user := info.value] else users - {user}, lockups - ids)
  {
  }

  lemma RemovedMaps(config: Config, state: State, lockups: Lockups, ids: set<LockupId>)
    ensures Locked(lockups - ids) == Locked(lockups) - ids
    ensures Shares(state, lockups - ids) == Shares(state, lockups) - ids
    ensures Rewards(config, state.totalWeight, lockups - ids) == Rewards(config, state.totalWeight, lockups) - ids
  {
    hide Weight, Reward, MaUstShare;
  }

  lemma OthersKept(users: Users, lockups: Lockups, user: Addr, ids: set<LockupId>, m: map<LockupId, nat>)
    requires forall u :: u in users ==> Owned(u, users[u], lockups)
    requires forall id :: id in ids ==> id.owner == user
    ensures Kept(users, user, m, m - ids)
  {
    forall u | u in users && u != user ensures SumSeq(users[u].positions, m) == SumSeq(users[u].positions, m - ids) {
      SumSeqSame(users[u].positions, m, m - ids);
    }
  }

  lemma SumWithout<K>(m: map<K, nat>, ids: set<K>)
    ensures Sum(m - ids) <= Sum(m)
  {
    SumMonotone(m - ids, m);
  }

  /** Releasing positions keeps the books when maUST paid is no more than the released shares. */
  lemma ReleaseSound(w: World, user: Addr, info: Option<User>, ids: set<LockupId>, amount: nat)
    requires Sound(w) && w.state.finalMaUst > 0 && user in w.users
    requires Splits(w.users[user].positions, Remaining(info), ids)
    requires amount <= w.state.totalMaUst && amount <= w.ledger.maUst
    requires Sum(Shares(w.state, w.lockups) - ids) + amount <= Sum(Shares(w.state, w.lockups))
    requires Lighter(w, user, info, ids)
    requires info.Some? ==> && UserAmounts(w.state, w.lockups - ids, info.value)
                            && info.value == w.users[user].(totalUst := info.value.totalUst,
                                                            maUstShare := info.value.maUstShare,
                                                            positions := info.value.positions)
    ensures Sound(Released(w, user, info, ids, amount))
  {
    var r := Released(w, user, info, ids, amount);
    UserIsOk(w, user);
    PlacedOf(w);
    SplitPlaced(w.config, w.users, w.lockups, user, info, ids);
    RemovedMaps(w.config, w.state, w.lockups, ids);
    SharesByMint(w.state, r.state, r.lockups);
    hide Splits, Placed, Owned, Locked, Shares, Rewards, UserAmounts;
    ReleaseAmounts(w, user, info, ids, amount);
    hide Amounts;
    ReleaseMars(w, user, info, ids, amount);
  }

  lemma ReleaseMars(w: World, user: Addr, info: Option<User>, ids: set<LockupId>, amount: nat)
    requires Mars(w) && user in w.users && Lighter(w, user, info, ids)
    requires forall u :: u in w.users ==> Owned(u, w.users[u], w.lockups)
    requires forall id :: id in ids ==> id.owner == user
    requires amount <= w.state.totalMaUst && amount <= w.ledger.maUst
    requires info.Some? ==>
               info.value == w.users[user].(totalUst := info.value.totalUst, maUstShare := info.value.maUstShare,
                                                         positions := info.value.positions)
    ensures Mars(Released(w, user, info, ids, amount))
  {
    hide Lighter, Rewards, Owned;
    var r := Released(w, user, info, ids, amount);
    ReleaseCommitted(w, user, info, ids, amount);
    hide Committed;
    forall u | u in r.users ensures UserMars(r.config, r.state, r.users[u], Get(r.marsOut, u), r.clock) {
      assert UserMars(w.config, w.state, w.users[u], Get(w.marsOut, u), w.clock);
    }
  }

  lemma ReleaseAmounts(w: World, user: Addr, info: Option<User>, ids: set<LockupId>, amount: nat)
    requires Amounts(w) && w.state.finalMaUst > 0 && user in w.users
    requires forall u :: u in w.users ==> Owned(u, w.users[u], w.lockups)
    requires forall id :: id in ids ==> id.owner == user
    requires amount <= w.state.totalMaUst && amount <= w.ledger.maUst
    requires Sum(Shares(w.state, w.lockups) - ids) + amount <= Sum(Shares(w.state, w.lockups))
    requires info.Some? ==> UserAmounts(w.state, w.lockups - ids, info.value)
    ensures Amounts(Released(w, user, info, ids, amount))
  {
    var r := Released(w, user, info, ids, amount);
    ReleaseUsers(w, user, info, ids, r);
    RemovedMaps(w.config, w.state, w.lockups, ids);
    SharesByMint(w.state, r.state, r.lockups);
    SumWithout(Locked(w.lockups), ids);
    CreditSum(w.maUstPaid, user, amount);
    hide Locked, Shares, Owned, UserAmounts, Credit;
    assert Sum(r.maUstPaid) + r.state.totalMaUst == r.state.finalMaUst;
    hide Released;
    DepositedAmounts(r);
  }

  lemma DepositedAmounts(w: World)
    requires w.state.finalMaUst > 0 && w.state.finalUst > 0 && w.clock > WithdrawEnd(w.config)
    requires forall u :: u in w.users ==> UserAmounts(w.state, w.lockups, w.users[u])
    requires Sum(Locked(w.lockups)) <= w.state.finalUst
    requires Sum(Shares(w.state, w.lockups)) <= w.state.totalMaUst <= w.ledger.maUst
    requires Sum(w.maUstPaid) + w.state.totalMaUst == w.state.finalMaUst
    ensures Amounts(w)
  {
    hide Locked, Shares, UserAmounts;
  }

  lemma ReleaseUsers(w: World, user: Addr, info: Option<User>, ids: set<LockupId>, r: World)
    requires forall u :: u in w.users ==> Owned(u, w.users[u], w.lockups) && UserAmounts(w.state, w.lockups, w.users[u])
    requires forall id :: id in ids ==> id.owner == user
    requires info.Some? ==> UserAmounts(w.state, w.lockups - ids, info.value)
    requires r.lockups == w.lockups - ids && r.state == w.state.(totalMaUst := r.state.totalMaUst)
    requires r.users == if info.Some? then w.users[user := info.value] else w.users - {user}
    requires w.state.finalMaUst > 0
    ensures forall u :: u in r.users ==> UserAmounts(r.state, r.lockups, r.users[u])
  {
    RemovedMaps(w.config, w.state, w.lockups, ids);
    SharesByMint(w.state, r.state, r.lockups);
    OthersKept(w.users, w.lockups, user, ids, Locked(w.lockups));
    OthersKept(w.users, w.lockups, user, ids, Shares(w.state, w.lockups));
    hide Locked, Shares, Owned;
    forall u | u in r.users ensures UserAmounts(r.state, r.lockups, r.users[u]) {
      if u != user {
        assert UserAmounts(w.state, w.lockups, w.users[u]);
      }
    }
  }

  lemma ReleaseCommitted(w: World, user: Addr, info: Option<User>, ids: set<LockupId>, amount: nat)
    requires user in w.users && Lighter(w, user, info, ids)
    requires forall u :: u in w.users ==> Owned(u, w.users[u], w.lockups)
    requires forall u :: u in w.users ==> UserMars(w.config, w.state, w.users[u], Get(w.marsOut, u), w.clock)
    requires forall id :: id in ids ==> id.owner == user
    requires info.Some? ==> info.value.incentives == w.users[user].incentives
    requires amount <= w.state.totalMaUst && amount <= w.ledger.maUst
    ensures Sum(Committed(Released(w, user, info, ids, amount))) <= Sum(Committed(w))
  {
    var r := Released(w, user, info, ids, amount);
    RemovedMaps(w.config, w.state, w.lockups, ids);
    OthersKept(w.users, w.lockups, user, ids, Rewards(w.config, w.state.totalWeight, w.lockups));
    hide Rewards, Owned;
    assert UserMars(w.config, w.state, w.users[user], Get(w.marsOut, user), w.clock);
    hide UserMars;
    forall u | u in Committed(r) ensures Committed(r)[u] <= Get(Committed(w), u) {
      if u == user && info.Some? {
        assert Committed(r)[u] == Entitled(r.config, r.state.totalWeight, r.lockups, info.value);
      }
    }
    hide Committed;
    SumMonotone(Committed(r), Committed(w));
  }

  // ---------------------------------------------------------------- one position

  lemma DissolveIsReleased(w: World, user: Addr, duration: nat)
    requires Dissolve(w, user, duration).Ok?
    ensures var id, info := LockupId(user, duration), Lookup(w.users, user);
            var amount := MaUstShare(w.state, LockupOf(w.lockups, id).ust);
            && amount <= w.state.totalMaUst && amount <= w.ledger.maUst
            && id in info.positions && amount <= info.maUstShare
            && Dissolve(w, user, duration).value
               == Released(w, user, Some(info.(maUstShare := info.maUstShare - amount,
                                               positions := Without(info.positions, id))), {id}, amount)
  {
    hide MaUstShare, Without;
  }

  /** Taking one position off a user's list takes its part out of every sum. */
  lemma OnePosition(w: World, info: User, id: LockupId)
    requires Distinct(info.positions) && id in info.positions && id in w.lockups
    ensures var rest := Without(info.positions, id);
            && SumSeq(rest, Shares(w.state, w.lockups - {id})) + MaUstShare(w.state, w.lockups[id].ust)
               == SumSeq(info.positions, Shares(w.state, w.lockups))
            && SumSeq(rest, Locked(w.lockups - {id})) <= SumSeq(info.positions, Locked(w.lockups))
            && SumSeq(rest, Rewards(w.config, w.state.totalWeight, w.lockups) - {id})
               <= SumSeq(info.positions, Rewards(w.config, w.state.totalWeight, w.lockups))
            && Sum(Shares(w.state, w.lockups) - {id}) + MaUstShare(w.state, w.lockups[id].ust)
               == Sum(Shares(w.state, w.lockups))
  {
    hide MaUstShare, Reward, Weight, Without;
    var shares, locked := Shares(w.state, w.lockups), Locked(w.lockups);
    var rewards := Rewards(w.config, w.state.totalWeight, w.lockups);
    assert Get(shares, id) == MaUstShare(w.state, w.lockups[id].ust);
    RemovedMaps(w.config, w.state, w.lockups, {id});
    hide Shares, Locked, Rewards;
    TakeOut(info.positions, id, shares);
    TakeOut(info.positions, id, locked);
    TakeOut(info.positions, id, rewards);
    SumDrop(shares, id);
  }

  /**
   With a share that covers its positions, dissolving any one with a share of its own succeeds and keeps
   the books.
   */
  lemma DissolveSound(w: World, user: Addr, duration: nat)
    requires Sound(w) && w.state.finalMaUst > 0 && LockupId(user, duration) in w.lockups
    requires SumSeq(Lookup(w.users, user).positions, Shares(w.state, w.lockups)) <= Lookup(w.users, user).maUstShare
    ensures if MaUstShare(w.state, w.lockups[LockupId(user, duration)].ust) == 0
            then Dissolve(w, user, duration) == Err(ZeroTransfer)
            else Dissolve(w, user, duration).Ok? && Sound(Dissolve(w, user, duration).value)
  {
    hide MaUstShare, Without, Sound, Shares, Locked, Rewards;
    var id := LockupId(user, duration);
    LockupFacts(w, id);
    var info := w.users[user];
    var amount := MaUstShare(w.state, LockupOf(w.lockups, id).ust);
    SharesWithin(w);
    OnePosition(w, info, id);
    if amount > 0 {
      DissolveIsReleased(w, user, duration);
      hide Dissolve;
      var after := info.(maUstShare := info.maUstShare - amount, positions := Without(info.positions, id));
      DissolveParts(w, user, id, after);
      ReleaseSound(w, user, Some(after), {id}, amount);
    }
  }

  lemma DissolveParts(w: World, user: Addr, id: LockupId, after: User)
    requires Sound(w) && w.state.finalMaUst > 0 && user in w.users && id in w.lockups && id in w.users[user].positions
    requires var info, amount := w.users[user], MaUstShare(w.state, w.lockups[id].ust);
             && SumSeq(info.positions, Shares(w.state, w.lockups)) <= info.maUstShare && amount <= info.maUstShare
             && after == info.(maUstShare := info.maUstShare - amount, positions := Without(info.positions, id))
    ensures Splits(w.users[user].positions, after.positions, {id})
    ensures UserAmounts(w.state, w.lockups - {id}, after)
    ensures Lighter(w, user, Some(after), {id})
  {
    hide MaUstShare, Without, Shares, Locked, Rewards;
    UserIsOk(w, user);
    hide Sound, UserMars;
    OnePosition(w, w.users[user], id);
    IndexOfDistinct(w.users[user].positions, id);
  }

  lemma SharesWithin(w: World)
    requires Sound(w)
    ensures Sum(Shares(w.state, w.lockups)) <= w.state.totalMaUst <= w.ledger.maUst
    ensures w.state.finalMaUst == 0 ==> w.state.finalUst == 0
  {
  }

  // ---------------------------------------------------------------- claims

  /** The position asked for is live and its share of the maUST is not zero. */
  predicate Unlockable(w: World, user: Addr, duration: nat) {
    var id := LockupId(user, duration);
    id in w.lockups && w.config.maUstSet && MaUstShare(w.state, w.lockups[id].ust) > 0
  }

  /** The xMARS that a claim by `user` sends when `accrued` comes in with it. */
  function DueInClaim(w: World, user: Addr, accrued: nat): int {
    XMarsDue(w.state, Materialised(w, user).users[user], IndexAfter(w.state, accrued))
  }

  /**
   Claiming, with or without unlocking a position, never underflows, never lacks MARS or maUST, and
   keeps the books. It succeeds exactly when claims are allowed, the user has UST on record, the
   position to unlock can be, and the xMARS due is held or comes in.
   */
  lemma ClaimSound(w: World, now: nat, user: Addr, unlock: Option<nat>, accrued: nat)
    requires Sound(w) && w.clock <= now
    ensures Claim(w, now, user, unlock, accrued).Ok? <==>
              && w.config.providerSet && w.state.claimsAllowed && Lookup(w.users, user).totalUst > 0
              && (unlock.Some? ==> Unlockable(w, user, unlock.value))
              && DueInClaim(w, user, accrued) <= w.ledger.xmars + accrued
    ensures var c := Claim(w, now, user, unlock, accrued);
            c != Err(Underflow) && c != Err(Unfunded) && (c.Ok? ==> user in w.users && Sound(c.value))
  {
    hide Sound, Materialised, Callbacks, XMarsDue, IndexAfter, Unlockable;
    if user in w.users && w.state.claimsAllowed {
      var t := w.(clock := now);
      WaitSound(w, now);
      ClaimsAfterClose(t);
      MaterialisedSound(t, user);
      MaterialisedShare(t, user);
      MaterialisedClock(w, now, user);
      var m := Materialised(t, user);
      assert DueInClaim(w, user, accrued) == XMarsDue(m.state, m.users[user], IndexAfter(m.state, accrued));
      UnlockableAlways(w, m, user, unlock);
      if unlock.None? || LockupId(user, unlock.value) in w.lockups {
        SameMaps(w.config, w.state, w.lockups, m.lockups, w.config);
        CallbacksSound(m, user, accrued, unlock);
        CallbacksClock(Materialised(w, user), now, user, accrued, unlock);
      }
    }
  }

  /** Materialising a user changes nothing about what can be unlocked. */
  lemma UnlockableAlways(w: World, m: World, user: Addr, unlock: Option<nat>)
    requires Sound(w) && SamePositions(w.lockups, m.lockups) && m.state == w.state && m.config == w.config
    ensures unlock.Some? ==> (Unlockable(w, user, unlock.value) <==> Unlockable(m, user, unlock.value))
    ensures unlock.Some? && Unlockable(w, user, unlock.value) ==>
              LockupId(user, unlock.value) in w.lockups && LockupOf(w.lockups, LockupId(user, unlock.value)).ust > 0
  {
    hide MaUstShare;
    if unlock.Some? && LockupId(user, unlock.value) in w.lockups {
      LockupFacts(w, LockupId(user, unlock.value));
    }
  }

  /** The callbacks of a claim on materialised storage. */
  lemma CallbacksSound(m: World, user: Addr, accrued: nat, unlock: Option<nat>)
    requires Sound(m) && user in m.users && m.state.claimsAllowed
    requires SumSeq(m.users[user].positions, Shares(m.state, m.lockups)) <= m.users[user].maUstShare
    requires unlock.Some? ==> LockupId(user, unlock.value) in m.lockups
    ensures var c := Callbacks(m, user, accrued, unlock);
            && (c.Ok? <==> XMarsDue(m.state, m.users[user], IndexAfter(m.state, accrued)) <= m.ledger.xmars + accrued
                           && (unlock.Some? ==> Unlockable(m, user, unlock.value)))
            && c != Err(Underflow) && c != Err(Unfunded) && (c.Ok? ==> Sound(c.value))
  {
    hide Sound, PayXMars, PayMars, Dissolve, MaUstShare, XMarsDue, IndexAfter, Shares;
    ClaimsAfterClose(m);
    PayXMarsSound(m, user, accrued);
    if PayXMars(m, user, accrued).Ok? {
      var x := PayXMars(m, user, accrued).value;
      PayMarsSound(x, user);
      var p := PayMars(x, user).value;
      if unlock.Some? {
        SharesByMint(m.state, p.state, m.lockups);
        SharesWithin(m);
        SameShare(m.state, p.state, m.lockups[LockupId(user, unlock.value)].ust);
        NoMaUst(m.state, m.lockups[LockupId(user, unlock.value)].ust);
        if m.state.finalMaUst > 0 {
          DissolveSound(p, user, unlock.value);
        } else {
          NothingToDissolve(p, user, unlock.value);
        }
      }
    }
  }

  lemma NothingToDissolve(w: World, user: Addr, duration: nat)
    requires MaUstShare(w.state, LockupOf(w.lockups, LockupId(user, duration)).ust) == 0
    ensures Dissolve(w, user, duration) in {Err(NoLockup), Err(ZeroTransfer)}
  {
    hide MaUstShare;
  }

  lemma SameShare(s: State, t: State, ust: nat)
    requires s.finalUst == t.finalUst && s.finalMaUst == t.finalMaUst
    ensures MaUstShare(s, ust) == MaUstShare(t, ust)
  {
  }

  lemma CallbacksClock(w: World, now: nat, user: Addr, accrued: nat, unlock: Option<nat>)
    requires user in w.users
    ensures Callbacks(w.(clock := now), user, accrued, unlock)
         == match Callbacks(w, user, accrued, unlock) case Ok(r) => Ok(r.(clock := now)) case Err(e) => Err(e)
  {
    hide PayXMars, PayMars, Dissolve;
    PayXMarsClock(w, now, user, accrued);
    if PayXMars(w, user, accrued).Ok? {
      var x := PayXMars(w, user, accrued).value;
      PayMarsClock(x, now, user);
      if PayMars(x, user).Ok? && unlock.Some? {
        DissolveClock(PayMars(x, user).value, now, user, unlock.value);
      }
    }
  }

  /** What the callbacks of a claim may change, and what they pay. */
  lemma CallbacksEffect(m: World, user: Addr, accrued: nat, unlock: Option<nat>)
    requires user in m.users && Callbacks(m, user, accrued, unlock).Ok?
    ensures var r, info := Callbacks(m, user, accrued, unlock).value, m.users[user];
            && r.config == m.config && r.clock == m.clock
            && r.state == m.state.(xmarsIndex := r.state.xmarsIndex, totalMaUst := r.state.totalMaUst)
            && user in r.users && r.users == m.users[user := r.users[user]]
            && r.users[user] == info.(rewardIndex := r.users[user].rewardIndex,
                                      xmarsClaimed := r.users[user].xmarsClaimed,
                                      claimed := r.users[user].claimed, maUstShare := r.users[user].maUstShare,
                                      positions := r.users[user].positions)
            && info.delegated <= info.incentives
            && r.marsOut == (if info.claimed || info.incentives == info.delegated then m.marsOut
                             else m.marsOut[user := Get(m.marsOut, user) + (info.incentives - info.delegated)])
            && (unlock.None? ==> r.maUstPaid == m.maUstPaid && r.lockups == m.lockups
                                 && r.users[user].positions == info.positions
                                 && r.users[user].maUstShare == info.maUstShare)
            && (unlock.Some? ==>
                  var id := LockupId(user, unlock.value);
                  var share := MaUstShare(m.state, LockupOf(m.lockups, id).ust);
                  && share > 0 && r.lockups == m.lockups - {id}
                  && r.maUstPaid == m.maUstPaid[user := Get(m.maUstPaid, user) + share])
  {
    hide XMarsDue, IndexAfter, Without, MaUstShare;
    if unlock.Some? {
      SameShare(m.state, PayXMars(m, user, accrued).value.state, LockupOf(m.lockups, LockupId(user, unlock.value)).ust);
    }
    assert m.users == m.users[user := m.users[user]];
  }

  lemma PayXMarsClock(w: World, now: nat, user: Addr, accrued: nat)
    requires user in w.users
    ensures PayXMars(w.(clock := now), user, accrued)
         == match PayXMars(w, user, accrued) case Ok(r) => Ok(r.(clock := now)) case Err(e) => Err(e)
    ensures PayXMars(w, user, accrued).Ok? ==> user in PayXMars(w, user, accrued).value.users
  {
    hide XMarsDue, IndexAfter, Credit;
  }

  lemma PayMarsClock(w: World, now: nat, user: Addr)
    requires user in w.users
    ensures PayMars(w.(clock := now), user)
         == match PayMars(w, user) case Ok(r) => Ok(r.(clock := now)) case Err(e) => Err(e)
  {
  }

  lemma DissolveClock(w: World, now: nat, user: Addr, duration: nat)
    ensures Dissolve(w.(clock := now), user, duration)
         == match Dissolve(w, user, duration) case Ok(r) => Ok(r.(clock := now)) case Err(e) => Err(e)
  {
    hide MaUstShare, Without, Credit;
  }

  // ---------------------------------------------------------------- a user at a time

  /**
   `handle_nuke_lockdrop` fails on a user with UST exactly when the user's maUST share was never
   materialised, or was used up, although its positions still have shares.
   */
  lemma NukeUserSound(w: World, user: Addr)
    requires Sound(w) && w.state.finalMaUst > 0
    ensures NukeUser(w, user).Ok? <==>
              || Lookup(w.users, user).totalUst == 0
              || Lookup(w.users, user).maUstShare > 0
              || SumSeq(Lookup(w.users, user).positions, Shares(w.state, w.lockups)) == 0
    ensures NukeUser(w, user).Ok? ==>
              Sound(NukeUser(w, user).value) && NukeUser(w, user).value.state.finalMaUst == w.state.finalMaUst
  {
    hide Sound;
    if user !in w.users {
      assert w.users - {user} == w.users;
    } else {
      NukeFacts(w, user);
      if NukeUser(w, user).Ok? {
        NukeReleases(w, user);
      }
    }
  }

  lemma UserPositions(w: World, user: Addr)
    requires Sound(w) && user in w.users
    ensures forall id :: id in w.users[user].positions ==> id in w.lockups && w.lockups[id].ust > 0
    ensures SumSeq(w.users[user].positions, Locked(w.lockups)) <= w.users[user].totalUst
    ensures w.users[user].maUstShare > 0 ==>
              SumSeq(w.users[user].positions, Shares(w.state, w.lockups)) <= w.users[user].maUstShare
    ensures w.users[user].totalUst == 0 ==> w.users[user].positions == []
  {
  }

  lemma NukeFacts(w: World, user: Addr)
    requires Sound(w) && user in w.users
    ensures NukeUser(w, user).Ok? <==>
              || w.users[user].totalUst == 0
              || w.users[user].maUstShare > 0
              || SumSeq(w.users[user].positions, Shares(w.state, w.lockups)) == 0
  {
    UserPositions(w, user);
    UserIsOk(w, user);
    SharesWithin(w);
    hide Sound, Shares, Locked;
    SumSeqWithin(w.users[user].positions, Shares(w.state, w.lockups));
  }

  /** Every listed position is released at once. */
  lemma NukeReleases(w: World, user: Addr)
    requires Sound(w) && w.state.finalMaUst > 0 && user in w.users && NukeUser(w, user).Ok?
    ensures Sound(NukeUser(w, user).value) && NukeUser(w, user).value.state.finalMaUst == w.state.finalMaUst
  {
    hide Sound, Shares, Locked, Rewards;
    UserPositions(w, user);
    var info := w.users[user];
    var ids := set id | id in info.positions;
    assert Splits(info.positions, [], ids);
    assert Lighter(w, user, None, ids);
    hide Splits, Lighter;
    if info.totalUst == 0 {
      assert w.lockups - ids == w.lockups && Shares(w.state, w.lockups) - ids == Shares(w.state, w.lockups);
      assert NukeUser(w, user).value == Released(w, user, None, ids, 0);
      ReleaseSound(w, user, None, ids, 0);
    } else {
      NukeReleasesAll(w, user, ids);
    }
  }

  lemma NukeReleasesAll(w: World, user: Addr, ids: set<LockupId>)
    requires Sound(w) && w.state.finalMaUst > 0 && user in w.users && NukeUser(w, user).Ok?
    requires w.users[user].totalUst > 0 && ids == set id | id in w.users[user].positions
    ensures Sound(NukeUser(w, user).value) && NukeUser(w, user).value.state.finalMaUst == w.state.finalMaUst
  {
    hide Sound, Shares, Locked, Rewards;
    var info := w.users[user];
    var shares, locked := Shares(w.state, w.lockups), Locked(w.lockups);
    var amount, unlocked := SumSeq(info.positions, shares), SumSeq(info.positions, locked);
    var after := info.(totalUst := info.totalUst - unlocked, maUstShare := info.maUstShare - amount, positions := []);
    var left := if after.totalUst == 0 then None else Some(after);
    assert NukeUser(w, user).value == Released(w, user, left, ids, amount);
    hide NukeUser;
    AllSplit(w, user, ids);
    SumDropSeq(info.positions, shares);
    NothingLeft(w.state, w.lockups - ids, after);
    assert Lighter(w, user, left, ids);
    hide Lighter, UserAmounts, Splits;
    ReleaseSound(w, user, left, ids, amount);
  }

  lemma AllSplit(w: World, user: Addr, ids: set<LockupId>)
    requires Sound(w) && user in w.users && ids == set id | id in w.users[user].positions
    ensures Distinct(w.users[user].positions) && Splits(w.users[user].positions, [], ids)
  {
    hide Sound, UserOk;
    UserIsOk(w, user);
  }

  lemma NothingLeft(state: State, lockups: Lockups, info: User)
    requires info.positions == [] && state.finalMaUst > 0
    ensures UserAmounts(state, lockups, info)
  {
  }

  /** Before the Red Bank deposit a batch keeps the books only of users without positions. */
  predicate NothingListed(w: World, page: seq<Addr>) {
    forall u :: u in page ==> Lookup(w.users, u).positions == []
  }

  /** Dropping the record of a user without positions keeps the books. */
  lemma EmptyDropSound(w: World, user: Addr)
    requires Sound(w) && w.state.finalMaUst == 0 && Lookup(w.users, user).positions == []
    ensures NukeUser(w, user) == Ok(w.(users := w.users - {user})) && Sound(w.(users := w.users - {user}))
  {
    var r := w.(users := w.users - {user});
    if user !in w.users {
      assert r.users == w.users && r == w;
    } else {
      hide Placed, Amounts, Mars;
      EmptyTotals(w, user);
      EmptyDropMars(w, user);
      EmptyDropAmounts(w, user);
    }
  }

  lemma EmptyTotals(w: World, user: Addr)
    requires Sound(w) && w.state.finalMaUst == 0 && user in w.users && w.users[user].positions == []
    ensures w.users[user].totalUst == 0
  {
    UserIsOk(w, user);
    hide Sound, Locked, Shares;
  }

  lemma EmptyDropMars(w: World, user: Addr)
    requires Sound(w) && user in w.users && w.users[user].positions == []
    ensures var r := w.(users := w.users - {user}); Placed(r.config, r.users, r.lockups) && Mars(r)
  {
    PlacedOf(w);
    hide Amounts, Mars, Owned, Lighter;
    assert Splits([], [], {});
    SplitPlaced(w.config, w.users, w.lockups, user, None, {});
    hide Placed;
    NothingDropped(w, user);
    hide Released;
    ReleaseMars(w, user, None, {}, 0);
  }

  lemma NothingDropped(w: World, user: Addr)
    requires user in w.users
    ensures w.lockups - {} == w.lockups && Released(w, user, None, {}, 0) == w.(users := w.users - {user})
    ensures Lighter(w, user, None, {})
  {
    hide Rewards;
    assert w.lockups - {} == w.lockups;
  }

  lemma EmptyDropAmounts(w: World, user: Addr)
    requires Amounts(w) && user in w.users && w.users[user].positions == []
    ensures Amounts(w.(users := w.users - {user}))
  {
    hide Shares, Locked, Weights;
    var r := w.(users := w.users - {user});
    assert UserWeights(r.config, r.users, r.lockups) == UserWeights(w.config, w.users, w.lockups) - {user};
    SumDrop(UserWeights(w.config, w.users, w.lockups), user);
    forall u | u in r.users ensures UserAmounts(r.state, r.lockups, r.users[u]) {
      assert UserAmounts(w.state, w.lockups, w.users[u]);
    }
  }

  lemma {:induction false} EmptyNukeSound(w: World, page: seq<Addr>)
    requires Sound(w) && w.state.finalMaUst == 0 && NothingListed(w, page)
    ensures Nuke(w, page).Ok? && Sound(Nuke(w, page).value)
    ensures var r := Nuke(w, page).value; r == w.(users := r.users)
    decreases |page|
  {
    hide Sound, NukeUser;
    if page != [] {
      EmptyDropSound(w, page[0]);
      assert forall u :: u in page[1..] ==> u in page;
      EmptyNukeSound(w.(users := w.users - {page[0]}), page[1..]);
    }
  }

  /** A batch keeps the books after the Red Bank deposit, and before it if nothing is listed. */
  lemma {:induction false} NukeSound(w: World, page: seq<Addr>)
    requires Sound(w) && (w.state.finalMaUst > 0 || NothingListed(w, page))
    ensures Nuke(w, page).Ok? ==> Sound(Nuke(w, page).value)
    decreases |page|
  {
    hide Sound, NukeUser;
    if w.state.finalMaUst == 0 {
      EmptyNukeSound(w, page);
    } else if page != [] {
      NukeUserSound(w, page[0]);
      if NukeUser(w, page[0]).Ok? {
        NukeSound(NukeUser(w, page[0]).value, page[1..]);
      }
    }
  }
}
