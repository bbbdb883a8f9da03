/** After the windows close: the Red Bank deposit, MARS payments and the release of maUST keep the books. */
module LockdropClaims {
  import opened Decimals
  import opened Sums
  import opened Wrappers
  import opened Lockdrop
  import opened LockdropBook
  import opened LockdropSolvency

  // ---------------------------------------------------------------- the deposit in the Red Bank

  /** However much maUST is minted, the shares of all positions never exceed it. */
  lemma RedBankSound(w: World, now: nat, sender: Addr, minted: nat)
    requires Sound(w) && w.clock <= now && DepositInRedBank(w, now, sender, minted).Ok?
    ensures Sound(DepositInRedBank(w, now, sender, minted).value)
  {
    hide Locked, Shares, Weights, Rewards;
    var r := DepositInRedBank(w, now, sender, minted).value;
    hide Placed;
    OpenTotals(w);
    AllShares(r.state, r.lockups);
    ShareOfAll(r.state);
    hide MaUstShare;
    assert Committed(r) == Committed(w);
    hide UserWeights, Committed;
    forall u | u in r.users
      ensures UserAmounts(r.state, r.lockups, r.users[u])
      ensures UserMars(r.config, r.state, r.users[u], Get(r.marsOut, u), r.clock)
    {
      assert UserAmounts(w.state, w.lockups, w.users[u]);
      assert UserMars(w.config, w.state, w.users[u], Get(w.marsOut, u), w.clock);
    }
  }

  lemma RedBankFunded(w: World, now: nat, sender: Addr, minted: nat)
    requires Sound(w)
    ensures DepositInRedBank(w, now, sender, minted) != Err(Unfunded)
  {
    hide Placed, Mars;
  }

  // ---------------------------------------------------------------- materialising a user

  lemma RewardedSame(config: Config, totalWeight: nat, lockups: Lockups, ids: seq<LockupId>)
    ensures SamePositions(lockups, Rewarded(config, totalWeight, lockups, ids))
  {
  }

  predicate Changed(w: World, r: World, user: Addr) {
    && user in w.users && user in r.users && r.users == w.users[user := r.users[user]]
    && r.config == w.config
  }

  /** What one user's record and positions contribute to the books, apart from the totals. */
  ghost predicate UserOk(w: World, info: User, out: nat) {
    && UserAmounts(w.state, w.lockups, info)
    && UserMars(w.config, w.state, info, out, w.clock)
  }

  lemma UserIsOk(w: World, user: Addr)
    requires Sound(w) && user in w.users
    ensures UserOk(w, w.users[user], Get(w.marsOut, user))
    ensures Distinct(w.users[user].positions) && Owned(user, w.users[user], w.lockups)
  {
  }

  /** Replacing one user's record by another that is in order keeps the books. */
  lemma RecordSound(w: World, r: World, user: Addr)
    requires Sound(w) && Changed(w, r, user)
    requires r == w.(users := r.users) && r.users[user].positions == w.users[user].positions
    requires UserOk(r, r.users[user], Get(w.marsOut, user))
    requires Entitled(w.config, w.state.totalWeight, w.lockups, r.users[user])
          == Entitled(w.config, w.state.totalWeight, w.lockups, w.users[user])
    ensures Sound(r)
  {
    hide UserAmounts, UserMars, Entitled, Placed, Committed, Amounts;
    RecordPlaced(w, r, user);
    RecordCommitted(w, r, user);
    RecordAmounts(w, r, user);
    forall u | u in r.users ensures UserMars(r.config, r.state, r.users[u], Get(r.marsOut, u), r.clock) {
      if u != user {
        assert UserMars(w.config, w.state, w.users[u], Get(w.marsOut, u), w.clock);
      }
    }
  }

  lemma RecordCommitted(w: World, r: World, user: Addr)
    requires Changed(w, r, user) && r.lockups == w.lockups && r.state.totalWeight == w.state.totalWeight
    requires r.marsOut.Keys <= w.marsOut.Keys + {user} && forall u :: u in w.marsOut && u != user ==>
               u in r.marsOut && r.marsOut[u] == w.marsOut[u]
    requires user in w.marsOut ==> user in r.marsOut
    requires Entitled(w.config, w.state.totalWeight, w.lockups, r.users[user])
          == Entitled(w.config, w.state.totalWeight, w.lockups, w.users[user])
    ensures Committed(r) == Committed(w)
  {
    hide Entitled;
  }

  lemma RecordAmounts(w: World, r: World, user: Addr)
    requires Amounts(w) && Changed(w, r, user) && r.users[user].positions == w.users[user].positions
    requires r.lockups == w.lockups && r.maUstPaid == w.maUstPaid && r.clock == w.clock
    requires r.state == w.state.(totalMarsDelegated := r.state.totalMarsDelegated, xmarsIndex := r.state.xmarsIndex)
    requires r.ledger == w.ledger.(mars := r.ledger.mars, xmars := r.ledger.xmars)
    requires UserAmounts(r.state, r.lockups, r.users[user])
    ensures Amounts(r)
  {
    hide Locked, Shares, Weights;
    SharesByMint(w.state, r.state, w.lockups);
    assert UserWeights(r.config, r.users, r.lockups) == UserWeights(w.config, w.users, w.lockups);
    hide UserWeights;
    forall u | u in r.users ensures UserAmounts(r.state, r.lockups, r.users[u]) {
      if u != user {
        assert UserAmounts(w.state, w.lockups, w.users[u]);
      }
    }
  }

  lemma SharesByMint(s: State, t: State, lockups: Lockups)
    requires s.finalUst == t.finalUst && s.finalMaUst == t.finalMaUst
    ensures Shares(s, lockups) == Shares(t, lockups)
  {
    hide Mul, FromRatio;
  }

  lemma RecordPlaced(w: World, r: World, user: Addr)
    requires Placed(w.config, w.users, w.lockups) && Changed(w, r, user)
    requires r.users[user].positions == w.users[user].positions && r.lockups == w.lockups
    ensures Placed(r.config, r.users, r.lockups)
  {
  }

  /** Once materialised, a user's maUST share covers the shares of its positions. */
  lemma MaterialisedShare(w: World, user: Addr)
    requires Sound(w) && user in w.users
    ensures var m := Materialised(w, user);
            && user in m.users && m == w.(users := w.users[user := m.users[user]], lockups := m.lockups)
            && SamePositions(w.lockups, m.lockups)
            && m.users[user] == w.users[user].(maUstShare := m.users[user].maUstShare,
                                               incentives := m.users[user].incentives)
            && SumSeq(w.users[user].positions, Shares(w.state, w.lockups)) <= m.users[user].maUstShare
            && (w.state.finalMaUst == 0 ==> m.users[user].maUstShare == 0)
            && m.users[user].incentives == Entitled(w.config, w.state.totalWeight, w.lockups, w.users[user])
  {
    hide Mars, Rewards, Rewarded, Mul, FromRatio;
    var info := w.users[user];
    assert Owned(user, info, w.lockups);
    hide Placed;
    ListShare(w.state, w.lockups, info.positions);
    assert UserAmounts(w.state, w.lockups, info);
    ShareMonotone(w.state, SumSeq(info.positions, Locked(w.lockups)), info.totalUst);
    hide MaUstShare, Shares, Locked;
    RewardedSame(w.config, w.state.totalWeight, w.lockups, info.positions);
    NoMaUst(w.state, info.totalUst);
  }

  lemma NoMaUst(state: State, ust: nat)
    ensures state.finalUst == 0 ==> MaUstShare(state, ust) == 0
  {
  }

  /** The materialised record is in order and entitles to the same MARS as before. */
  lemma MaterialisedOk(w: World, user: Addr)
    requires Sound(w) && user in w.users && w.clock >= WithdrawEnd(w.config)
    ensures var m := Materialised(w, user);
            && user in m.users && UserOk(w, m.users[user], Get(w.marsOut, user))
            && Entitled(w.config, w.state.totalWeight, w.lockups, m.users[user])
               == Entitled(w.config, w.state.totalWeight, w.lockups, w.users[user])
  {
    hide Sound, Locked, Shares, Weights, Rewards, MaUstShare, Rewarded, SamePositions, Owned, Materialised;
    MaterialisedShare(w, user);
    UserIsOk(w, user);
  }

  lemma MaterialisedSound(w: World, user: Addr)
    requires Sound(w) && user in w.users && w.clock >= WithdrawEnd(w.config)
    ensures Sound(Materialised(w, user))
  {
    hide Sound, Entitled, UserOk, Materialised, SamePositions;
    var m := Materialised(w, user);
    MaterialisedShare(w, user);
    MaterialisedOk(w, user);
    ClaimsAfterClose(w);
    var a := w.(users := m.users);
    SameUserOk(w, a, m.users[user], Get(w.marsOut, user));
    RecordSound(w, a, user);
    UnchangedSound(a, m);
  }

  lemma SameUserOk(w: World, r: World, info: User, out: nat)
    requires UserOk(w, info, out) && r == w.(users := r.users)
    ensures UserOk(r, info, out)
  {
    hide UserAmounts, UserMars;
  }

  // ---------------------------------------------------------------- MARS

  /** What a user has been sent never exceeds what is committed to it. */
  lemma OutWithinCommitted(w: World, user: Addr, amount: nat)
    requires Sound(w) && user in w.users
    requires Get(w.marsOut, user) + amount <= Entitled(w.config, w.state.totalWeight, w.lockups, w.users[user])
    ensures Sum(w.marsOut) + amount <= w.config.incentives
    ensures amount <= w.ledger.mars
  {
    hide Rewards, Placed, Amounts;
    var out := w.marsOut[user := Get(w.marsOut, user) + amount];
    forall u | u in out ensures out[u] <= Get(Committed(w), u) {
      if u in w.users {
        assert UserMars(w.config, w.state, w.users[u], Get(w.marsOut, u), w.clock);
      }
    }
    SumMonotone(out, Committed(w));
    SumUpdate(w.marsOut, user, Get(w.marsOut, user) + amount);
  }

  /** Sending a user MARS it is entitled to keeps the books. */
  lemma SendSound(w: World, r: World, user: Addr, amount: nat)
    requires Sound(w) && Changed(w, r, user) && amount <= w.ledger.mars
    requires r == w.(users := r.users, state := w.state.(totalMarsDelegated := r.state.totalMarsDelegated),
                     ledger := w.ledger.(mars := w.ledger.mars - amount),
                     marsOut := w.marsOut[user := Get(w.marsOut, user) + amount])
    requires r.users[user] == w.users[user].(delegated := r.users[user].delegated, claimed := r.users[user].claimed)
    requires UserMars(r.config, r.state, r.users[user], Get(r.marsOut, user), r.clock)
    requires w.clock >= WithdrawEnd(w.config)
    ensures Sound(r)
  {
    hide Placed, Committed, Amounts;
    RecordPlaced(w, r, user);
    RecordCommitted(w, r, user);
    assert UserAmounts(r.state, r.lockups, r.users[user]) by {
      UserIsOk(w, user);
      SharesByMint(w.state, r.state, w.lockups);
    }
    hide UserAmounts;
    RecordAmounts(w, r, user);
    hide UserMars;
    SumUpdate(w.marsOut, user, Get(w.marsOut, user) + amount);
    forall u | u in r.users ensures UserMars(r.config, r.state, r.users[u], Get(r.marsOut, u), r.clock) {
      if u != user {
        assert UserMars(w.config, w.state, w.users[u], Get(w.marsOut, u), w.clock);
        OtherStateMars(w, r, u);
      }
    }
  }

  lemma OtherStateMars(w: World, r: World, u: Addr)
    requires u in w.users && UserMars(w.config, w.state, w.users[u], Get(w.marsOut, u), w.clock)
    requires r.config == w.config && r.state.claimsAllowed == w.state.claimsAllowed && r.clock == w.clock
    requires r.state.xmarsIndex == w.state.xmarsIndex
    ensures UserMars(r.config, r.state, w.users[u], Get(w.marsOut, u), r.clock)
  {
  }

  /** Delegation never underflows and is always funded. */
  lemma DelegateSound(w: World, now: nat, user: Addr, amount: nat)
    requires Sound(w) && w.clock <= now
    ensures var d := DelegateMars(w, now, user, amount);
            && d != Err(Underflow) && d != Err(Unfunded)
            && (d.Ok? ==> user in w.users && Sound(d.value))
  {
    hide Sound, Materialised, UserAmounts, SamePositions, Shares, Owned, Distinct;
    if now >= WithdrawEnd(w.config) && user in w.users {
      var t := w.(clock := now);
      WaitSound(w, now);
      MaterialisedSound(t, user);
      MaterialisedShare(t, user);
      MaterialisedClock(w, now, user);
      var m := Materialised(t, user);
      UserIsOk(m, user);
      var info := m.users[user];
      assert info.delegated <= info.incentives;
      var d := DelegateMars(w, now, user, amount);
      if !w.state.claimsAllowed && 0 < amount <= info.incentives - info.delegated {
        OutWithinCommitted(m, user, amount);
        if d.Ok? {
          SendSound(m, d.value, user, amount);
        }
      }
    }
  }

  lemma MaterialisedClock(w: World, now: nat, user: Addr)
    ensures Materialised(w.(clock := now), user) == Materialised(w, user).(clock := now)
  {
    hide Rewards, Rewarded, MaUstShare;
  }

  // ---------------------------------------------------------------- xMARS

  lemma CreditSum(paid: map<Addr, nat>, user: Addr, amount: nat)
    ensures Sum(Credit(paid, user, amount)) == Sum(paid) + amount
  {
    SumUpdate(paid, user, Get(paid, user) + amount);
  }

  lemma DueNonNegative(state: State, info: User, index: Decimal)
    requires info.rewardIndex <= index
    ensures XMarsDue(state, info, index) >= 0
  {
    MulMonotone(info.maUstShare, info.maUstShare, info.rewardIndex, index);
    hide Mul;
  }

  lemma IndexGrows(state: State, accrued: nat)
    ensures IndexAfter(state, accrued) >= state.xmarsIndex
  {
  }

  /**
   The xMARS part of a claim never underflows; it goes through exactly when the xMARS due is held, and
   keeps the books.
   */
  lemma PayXMarsSound(w: World, user: Addr, accrued: nat)
    requires Sound(w) && user in w.users && w.clock >= WithdrawEnd(w.config)
    ensures var r := PayXMars(w, user, accrued);
            && (r.Ok? <==> XMarsDue(w.state, w.users[user], IndexAfter(w.state, accrued)) <= w.ledger.xmars + accrued)
            && (r.Err? ==> r == Err(XMarsUnfunded))
            && (r.Ok? ==> Sound(r.value) && XMarsPaid(w, r.value, user))
  {
    hide Sound, IndexAfter, XMarsDue;
    UserIsOk(w, user);
    IndexGrows(w.state, accrued);
    DueNonNegative(w.state, w.users[user], IndexAfter(w.state, accrued));
    if PayXMars(w, user, accrued).Ok? {
      XMarsBooks(w, PayXMars(w, user, accrued).value, user,
                 XMarsDue(w.state, w.users[user], IndexAfter(w.state, accrued)), accrued);
    }
  }

  /** What paying xMARS may change. */
  predicate XMarsPaid(w: World, r: World, user: Addr) {
    && Changed(w, r, user) && r.lockups == w.lockups && r.clock == w.clock
    && r.state == w.state.(xmarsIndex := r.state.xmarsIndex) && r.ledger == w.ledger.(xmars := r.ledger.xmars)
    && r.marsOut == w.marsOut && r.maUstPaid == w.maUstPaid
    && r.users[user] == w.users[user].(rewardIndex := r.users[user].rewardIndex,
                                       xmarsClaimed := r.users[user].xmarsClaimed)
  }

  lemma XMarsBooks(w: World, r: World, user: Addr, due: nat, accrued: nat)
    requires Sound(w) && XMarsPaid(w, r, user) && w.clock >= WithdrawEnd(w.config)
    requires w.state.xmarsIndex <= r.state.xmarsIndex && r.users[user].rewardIndex <= r.state.xmarsIndex
    requires w.ledger.xmars + accrued >= due && r.ledger.xmars == w.ledger.xmars + accrued - due
    requires r.xmarsPaid == Credit(w.xmarsPaid, user, due) && r.xmarsReceived == w.xmarsReceived + accrued
    ensures Sound(r)
  {
    hide Placed, Committed, Amounts, Credit;
    RecordPlaced(w, r, user);
    RecordCommitted(w, r, user);
    assert UserAmounts(r.state, r.lockups, r.users[user]) by {
      UserIsOk(w, user);
      SharesByMint(w.state, r.state, r.lockups);
    }
    hide UserAmounts;
    RecordAmounts(w, r, user);
    CreditSum(w.xmarsPaid, user, due);
    forall u | u in r.users ensures UserMars(r.config, r.state, r.users[u], Get(r.marsOut, u), r.clock) {
      assert UserMars(w.config, w.state, w.users[u], Get(w.marsOut, u), w.clock);
    }
  }

  /** The MARS part of a claim never underflows and is always funded. */
  lemma PayMarsSound(w: World, user: Addr)
    requires Sound(w) && user in w.users && w.state.claimsAllowed
    ensures PayMars(w, user).Ok? && Sound(PayMars(w, user).value)
    ensures var r := PayMars(w, user).value;
            && Changed(w, r, user) && r.lockups == w.lockups && r.state == w.state && r.clock == w.clock
            && r.users[user] == w.users[user].(claimed := r.users[user].claimed)
  {
    hide Sound;
    UserIsOk(w, user);
    ClaimsAfterClose(w);
    var info := w.users[user];
    var amount := info.incentives - info.delegated;
    if !info.claimed && amount > 0 {
      OutWithinCommitted(w, user, amount);
      var r := PayMars(w, user).value;
      SendSound(w, r, user, amount);
    } else {
      assert w.users == w.users[user := w.users[user]];
    }
  }
}
