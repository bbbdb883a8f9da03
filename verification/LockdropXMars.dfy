/**
 The xMARS rewards of the lockdrop. Until a position is unwound they are conserved: what users have
 been sent and are due never exceeds what came in, so no claim lacks xMARS. Afterwards they are not.
 */
module LockdropXMars {
  import opened Decimals
  import opened Sums
  import opened Wrappers
  import opened Lockdrop
  import opened LockdropBook
  import opened LockdropSolvency
  import opened LockdropClaims
  import opened LockdropUnwind
  import opened LockdropRun
  import opened LockdropResults

  // ---------------------------------------------------------------- the shares of users

  /** The maUST share of a user none of whose positions was unwound. */
  function FullShare(state: State, info: User): nat {
    MaUstShare(state, info.totalUst)
  }

  function FullShares(state: State, users: Users): map<Addr, nat> {
    map u | u in users :: FullShare(state, users[u])
  }

  function UstOf(users: Users): map<Addr, nat> {
    map u | u in users :: users[u].totalUst
  }

  lemma {:induction false} SharesOfUsers(state: State, users: Users)
    ensures Sum(FullShares(state, users)) <= MaUstShare(state, Sum(UstOf(users)))
    decreases |users|
  {
    hide MaUstShare;
    if users == map[] {
      assert FullShares(state, users) == map[];
    } else {
      var u :| u in users;
      var rest := users - {u};
      assert rest.Keys == users.Keys - {u} && |rest.Keys| < |users.Keys|;
      SharesOfUsers(state, rest);
      hide Sum;
      assert FullShares(state, rest) == FullShares(state, users) - {u} && UstOf(rest) == UstOf(users) - {u};
      SumRemove(FullShares(state, users), u);
      SumRemove(UstOf(users), u);
      ShareSplit(state, users[u].totalUst, Sum(UstOf(rest)));
    }
  }

  // ---------------------------------------------------------------- the invariant

  /** A user has been sent its share times the index it was last paid at, rounded down. */
  predicate PaidToIndex(state: State, lockups: Lockups, info: User, paid: nat) {
    && info.totalUst == SumSeq(info.positions, Locked(lockups))
    && (info.maUstShare == 0 || info.maUstShare == FullShare(state, info))
    && (info.maUstShare == 0 && FullShare(state, info) > 0 ==> info.rewardIndex == 0)
    && paid == Mul(FullShare(state, info), info.rewardIndex)
  }

  /** No position has been unwound since the Red Bank deposit; before it no xMARS is shared out. */
  ghost predicate Whole(w: World) {
    if w.state.finalMaUst == 0 then w.state.xmarsIndex == 0 && w.xmarsPaid == map[]
    else
      && w.state.totalMaUst == w.state.finalMaUst
      && w.xmarsPaid.Keys <= w.users.Keys
      && (forall u :: u in w.users ==> PaidToIndex(w.state, w.lockups, w.users[u], Get(w.xmarsPaid, u)))
      && Sum(FullShares(w.state, w.users)) * w.state.xmarsIndex <= w.xmarsReceived * ONE
  }

  lemma InstantiatedWhole(config: Config, now: nat)
    ensures Whole(Instantiated(config, now))
  {
  }

  /** The shares of all users fit in the maUST that was minted. */
  lemma FullSharesFit(w: World)
    requires Sound(w) && Whole(w) && w.state.finalMaUst > 0
    ensures Sum(FullShares(w.state, w.users)) <= w.state.totalMaUst
  {
    hide MaUstShare, FullShares, Mul;
    SharesOfUsers(w.state, w.users);
    UstCovered(w);
    UstWithin(w);
    ShareMonotone(w.state, Sum(UstOf(w.users)), w.state.finalUst);
    ShareOfAll(w.state);
  }

  lemma UstCovered(w: World)
    requires Sound(w) && Whole(w) && w.state.finalMaUst > 0
    ensures Sum(UstOf(w.users)) == Sum(Locked(w.lockups))
  {
    hide Amounts, Mars, Mul, MaUstShare;
    forall u | u in w.users
      ensures Distinct(w.users[u].positions) && forall id :: id in w.users[u].positions ==> id.owner == u
      ensures UstOf(w.users)[u] == SumSeq(w.users[u].positions, Locked(w.lockups))
    {
      assert Owned(u, w.users[u], w.lockups);
      assert PaidToIndex(w.state, w.lockups, w.users[u], Get(w.xmarsPaid, u));
    }
    forall id | id in w.lockups ensures id.owner in w.users && id in w.users[id.owner].positions {
      assert Registered(w.config, w.users, id, w.lockups[id]);
    }
    ListsCover(w.users, Locked(w.lockups));
    assert UstOf(w.users) == Along(w.users, Locked(w.lockups));
  }

  lemma UstWithin(w: World)
    requires Sound(w) && w.state.finalMaUst > 0
    ensures Sum(Locked(w.lockups)) <= w.state.finalUst
  {
  }

  // ---------------------------------------------------------------- no claim lacks xMARS

  /** A growth of the index promises no more than what came in. */
  lemma PromiseGrows(shares: nat, state: State, accrued: nat, received: nat)
    requires shares <= state.totalMaUst && shares * state.xmarsIndex <= received * ONE
    ensures shares * IndexAfter(state, accrued) <= (received + accrued) * ONE
  {
    assert (received + accrued) * ONE == received * ONE + accrued * ONE;
    if accrued > 0 && state.totalMaUst > 0 {
      var step := FromRatio(accrued, state.totalMaUst);
      ProductMonotone(shares, state.totalMaUst, step, step);
      assert shares * (state.xmarsIndex + step) == shares * state.xmarsIndex + shares * step;
      assert state.totalMaUst * step == step * state.totalMaUst;
    }
  }

  /** What users are sent and due at an index: the integer parts of their shares times it. */
  ghost function AtIndex(shares: map<Addr, nat>, index: Decimal): map<Addr, nat> {
    map u | u in shares :: Mul(shares[u], index)
  }

  lemma AtIndexWithin(shares: map<Addr, nat>, index: Decimal, received: nat)
    requires Sum(shares) * index <= received * ONE
    ensures Sum(AtIndex(shares, index)) <= received
  {
    hide Mul;
    forall u | u in shares ensures Below(AtIndex(shares, index)[u], ONE, Get(shares, u), index) {
      PartBelow(shares[u], index);
    }
    SumBound(AtIndex(shares, index), shares, ONE, index);
    CancelFactor(Sum(AtIndex(shares, index)), received, ONE);
  }

  lemma PartBelow(x: nat, d: Decimal)
    ensures Below(Mul(x, d), ONE, x, d)
  {
  }

  /** While nothing has been unwound, the xMARS due in any claim is held, or comes in with it. */
  lemma DueIsHeld(w: World, user: Addr, accrued: nat)
    requires Sound(w) && Whole(w) && user in w.users
    ensures DueInClaim(w, user, accrued) <= w.ledger.xmars + accrued
  {
    hide Sound;
    if w.state.finalMaUst == 0 {
      SharesWithin(w);
    } else {
      FullSharesFit(w);
      var index := IndexAfter(w.state, accrued);
      PromiseGrows(Sum(FullShares(w.state, w.users)), w.state, accrued, w.xmarsReceived);
      AtIndexWithin(FullShares(w.state, w.users), index, w.xmarsReceived + accrued);
      PaidAndDue(w, user, accrued, index);
      XMarsHeld(w);
    }
  }

  lemma XMarsHeld(w: World)
    requires Sound(w)
    ensures w.ledger.xmars + Sum(w.xmarsPaid) == w.xmarsReceived
  {
  }

  /** What everybody was sent, and `user` is due, is within what the index gives to all. */
  lemma PaidAndDue(w: World, user: Addr, accrued: nat, index: Decimal)
    requires Sound(w) && Whole(w) && w.state.finalMaUst > 0 && user in w.users && index == IndexAfter(w.state, accrued)
    ensures Sum(w.xmarsPaid) + DueInClaim(w, user, accrued) <= Sum(AtIndex(FullShares(w.state, w.users), index))
  {
    hide Sound, Mul, MaUstShare, IndexAfter;
    DueOfUser(w, user, accrued, index);
    IndexGrows(w.state, accrued);
    var due := DueInClaim(w, user, accrued);
    var at := AtIndex(FullShares(w.state, w.users), index);
    var after := w.xmarsPaid[user := at[user]];
    forall u | u in after ensures after[u] <= Get(at, u) {
      if u != user {
        PaidBelow(w, u, index);
      }
    }
    SumMonotone(after, at);
    SumUpdate(w.xmarsPaid, user, at[user]);
  }

  lemma PaidBelow(w: World, u: Addr, index: Decimal)
    requires Sound(w) && Whole(w) && w.state.finalMaUst > 0 && u in w.users && w.state.xmarsIndex <= index
    ensures Get(w.xmarsPaid, u) <= Mul(FullShare(w.state, w.users[u]), index)
  {
    UserIsOk(w, u);
    hide Sound, UserAmounts, MaUstShare, Locked;
    assert PaidToIndex(w.state, w.lockups, w.users[u], Get(w.xmarsPaid, u));
    MulMonotone(FullShare(w.state, w.users[u]), FullShare(w.state, w.users[u]), w.users[u].rewardIndex, index);
  }

  /** A claim brings a user exactly to the current index. */
  lemma DueOfUser(w: World, user: Addr, accrued: nat, index: Decimal)
    requires Sound(w) && Whole(w) && w.state.finalMaUst > 0 && user in w.users && index == IndexAfter(w.state, accrued)
    ensures Get(w.xmarsPaid, user) + DueInClaim(w, user, accrued) == Mul(FullShare(w.state, w.users[user]), index)
  {
    assert PaidToIndex(w.state, w.lockups, w.users[user], Get(w.xmarsPaid, user));
    SharesWithin(w);
    DepositedUst(w);
    NoShareNothing(index);
    NoShareNothing(w.users[user].rewardIndex);
    NothingAtStart(FullShare(w.state, w.users[user]));
    hide Sound, Mul, MaUstShare, IndexAfter, Rewards, Rewarded, Locked;
  }

  lemma DepositedUst(w: World)
    requires Sound(w) && w.state.finalMaUst > 0
    ensures w.state.finalUst > 0
  {
  }

  lemma NoShareNothing(index: Decimal)
    ensures Mul(0, index) == 0
  {
  }

  lemma NothingAtStart(share: nat)
    ensures Mul(share, 0) == 0
  {
  }

  // ---------------------------------------------------------------- runs without unwinding

  /** The transaction unwinds no position. */
  predicate KeepsPositions(op: Operation) {
    !op.OpNuke? && !(op.OpClaim? && op.unlock.Some?)
  }

  /** What a claim without unlocking does to the user's record and the xMARS. */
  lemma ClaimRecord(w: World, now: nat, user: Addr, accrued: nat)
    requires Claim(w, now, user, None, accrued).Ok? && user in w.users
    ensures var r := Claim(w, now, user, None, accrued).value;
            var m, index := Materialised(w, user), IndexAfter(w.state, accrued);
            var due := DueInClaim(w, user, accrued);
            && 0 <= due
            && r.config == w.config && r.state == w.state.(xmarsIndex := index) && r.lockups == m.lockups
            && user in r.users && r.users == w.users[user := r.users[user]]
            && r.users[user].totalUst == w.users[user].totalUst && r.users[user].positions == w.users[user].positions
            && r.users[user].maUstShare == m.users[user].maUstShare
            && r.users[user].rewardIndex == (if w.state.finalUst == 0 then w.users[user].rewardIndex else index)
            && r.xmarsPaid == Credit(w.xmarsPaid, user, due) && r.xmarsReceived == w.xmarsReceived + accrued
  {
    hide XMarsDue, IndexAfter, MaUstShare, Rewards, Rewarded, Credit, Dissolve;
  }

  lemma ClaimKeepsWhole(w: World, now: nat, user: Addr, accrued: nat)
    requires Sound(w) && Whole(w) && user in w.users && Claim(w, now, user, None, accrued).Ok?
    ensures Whole(Claim(w, now, user, None, accrued).value)
  {
    hide Sound, Claim, Mul, MaUstShare, IndexAfter, Materialised, DueInClaim, PaidToIndex, FullShares;
    ClaimRecord(w, now, user, accrued);
    var r := Claim(w, now, user, None, accrued).value;
    if w.state.finalMaUst == 0 {
      EarlyClaim(w, user, accrued);
    } else {
      DepositedUst(w);
      LateClaim(w, r, user, accrued);
    }
  }

  /** Before the deposit no xMARS is shared out. */
  lemma EarlyClaim(w: World, user: Addr, accrued: nat)
    requires Sound(w) && w.state.finalMaUst == 0
    ensures w.state.finalUst == 0 && DueInClaim(w, user, accrued) == 0
    ensures IndexAfter(w.state, accrued) == w.state.xmarsIndex
  {
    SharesWithin(w);
    NoTotal(w);
    hide Sound, Materialised;
  }

  lemma NoTotal(w: World)
    requires Sound(w) && w.state.finalMaUst == 0
    ensures w.state.totalMaUst == 0
  {
  }

  lemma LateClaim(w: World, r: World, user: Addr, accrued: nat)
    requires Sound(w) && Whole(w) && w.state.finalMaUst > 0 && user in w.users
    requires var m, index := Materialised(w, user), IndexAfter(w.state, accrued);
             var due := DueInClaim(w, user, accrued);
             && 0 <= due && r.state == w.state.(xmarsIndex := index) && r.lockups == m.lockups
             && user in r.users && r.users == w.users[user := r.users[user]]
             && r.users[user].totalUst == w.users[user].totalUst && r.users[user].positions == w.users[user].positions
             && r.users[user].maUstShare == m.users[user].maUstShare && r.users[user].rewardIndex == index
             && r.xmarsPaid == Credit(w.xmarsPaid, user, due) && r.xmarsReceived == w.xmarsReceived + accrued
    requires w.state.finalUst > 0
    ensures Whole(r)
  {
    hide Sound, Mul, MaUstShare, IndexAfter, FullShares, FullShare, Locked, DueInClaim, Materialised, PaidToIndex;
    FullSharesFit(w);
    DueOfUser(w, user, accrued, IndexAfter(w.state, accrued));
    MaterialisedMaps(w, user);
    SameFullShares(w, r);
    PromiseGrows(Sum(FullShares(w.state, w.users)), w.state, accrued, w.xmarsReceived);
    forall u | u in r.users ensures PaidToIndex(r.state, r.lockups, r.users[u], Get(r.xmarsPaid, u)) {
      if u == user {
        SettledToIndex(w, r, user);
      } else {
        OtherToIndex(w.state, r.state, w.lockups, r.lockups, w.users[u], r.users[u], Get(w.xmarsPaid, u));
      }
    }
  }

  lemma SettledToIndex(w: World, r: World, user: Addr)
    requires user in w.users && user in r.users
    requires PaidToIndex(w.state, w.lockups, w.users[user], Get(w.xmarsPaid, user))
    requires r.users[user].totalUst == w.users[user].totalUst && r.users[user].positions == w.users[user].positions
    requires r.state.finalUst == w.state.finalUst && r.state.finalMaUst == w.state.finalMaUst
    requires Locked(r.lockups) == Locked(w.lockups)
    requires r.users[user].maUstShare == FullShare(w.state, w.users[user])
    requires Get(r.xmarsPaid, user) == Mul(FullShare(w.state, w.users[user]), r.users[user].rewardIndex)
    ensures PaidToIndex(r.state, r.lockups, r.users[user], Get(r.xmarsPaid, user))
  {
    SameShare(w.state, r.state, w.users[user].totalUst);
    hide MaUstShare, Mul, Locked;
  }

  lemma OtherToIndex(s: State, t: State, a: Lockups, b: Lockups, info: User, after: User, paid: nat)
    requires PaidToIndex(s, a, info, paid) && Locked(a) == Locked(b)
    requires t.finalUst == s.finalUst && t.finalMaUst == s.finalMaUst
    requires after.totalUst == info.totalUst && after.positions == info.positions
    requires after.rewardIndex == info.rewardIndex
    requires after.maUstShare == info.maUstShare || after.maUstShare == FullShare(s, info)
    ensures PaidToIndex(t, b, after, paid)
  {
    SameShare(s, t, info.totalUst);
    hide MaUstShare, Mul, Locked;
  }

  lemma OfUser(w: World, user: Addr)
    requires Whole(w) && w.state.finalMaUst > 0 && user in w.users
    ensures PaidToIndex(w.state, w.lockups, w.users[user], Get(w.xmarsPaid, user))
  {
    hide PaidToIndex, FullShares;
  }

  /** The amounts, and the share of the user, after it has been materialised. */
  lemma MaterialisedMaps(w: World, user: Addr)
    requires Sound(w) && Whole(w) && w.state.finalMaUst > 0 && user in w.users
    ensures var m := Materialised(w, user);
            && Locked(m.lockups) == Locked(w.lockups)
            && m.users[user].maUstShare == FullShare(w.state, w.users[user])
  {
    hide Sound, Whole, Mul, MaUstShare, Rewards, Rewarded, Locked;
    OfUser(w, user);
    RewardedSame(w.config, w.state.totalWeight, w.lockups, w.users[user].positions);
    hide SamePositions;
    SameMaps(w.config, w.state, w.lockups, Materialised(w, user).lockups, w.config);
  }

  lemma SameFullShares(w: World, r: World)
    requires r.users.Keys == w.users.Keys && forall u :: u in w.users ==> r.users[u].totalUst == w.users[u].totalUst
    requires r.state.finalUst == w.state.finalUst && r.state.finalMaUst == w.state.finalMaUst
    ensures FullShares(r.state, r.users) == FullShares(w.state, w.users)
  {
    forall u | u in w.users ensures FullShare(r.state, r.users[u]) == FullShare(w.state, w.users[u]) {
      SameShare(w.state, r.state, w.users[u].totalUst);
    }
    hide MaUstShare;
  }

  /** Nobody has been paid when the maUST is minted: the index starts at zero. */
  lemma RedBankKeepsWhole(w: World, now: nat, sender: Addr, minted: nat)
    requires Sound(w) && Whole(w) && DepositInRedBank(w, now, sender, minted).Ok?
    ensures Whole(DepositInRedBank(w, now, sender, minted).value)
  {
    hide Mul, MaUstShare, Locked, Shares, FullShares, Placed;
    var r := DepositInRedBank(w, now, sender, minted).value;
    forall u | u in r.users ensures PaidToIndex(r.state, r.lockups, r.users[u], Get(r.xmarsPaid, u)) {
      assert UserAmounts(w.state, w.lockups, w.users[u]);
      assert UserMars(w.config, w.state, w.users[u], Get(w.marsOut, u), w.clock);
      NothingAtStart(FullShare(r.state, r.users[u]));
    }
  }

  lemma DelegateKeepsWhole(w: World, now: nat, user: Addr, amount: nat)
    requires Sound(w) && Whole(w) && DelegateMars(w, now, user, amount).Ok?
    ensures Whole(DelegateMars(w, now, user, amount).value)
  {
    hide Sound, Mul, MaUstShare, Materialised, Locked, FullShares, FullShare, PaidToIndex;
    var r := DelegateMars(w, now, user, amount).value;
    MaterialisedRecord(w, user);
    if w.state.finalMaUst > 0 {
      MaterialisedMaps(w, user);
      SameFullShares(w, r);
      forall u | u in r.users ensures PaidToIndex(r.state, r.lockups, r.users[u], Get(r.xmarsPaid, u)) {
        OtherToIndex(w.state, r.state, w.lockups, r.lockups, w.users[u], r.users[u], Get(w.xmarsPaid, u));
      }
    }
  }

  /** What materialising leaves alone. */
  lemma MaterialisedRecord(w: World, user: Addr)
    ensures var m := Materialised(w, user);
            && user in m.users && m == w.(users := w.users[user := m.users[user]], lockups := m.lockups)
            && m.users[user] == Lookup(w.users, user).(maUstShare := m.users[user].maUstShare,
                                                       incentives := m.users[user].incentives)
  {
    hide MaUstShare, Rewards, Rewarded;
  }

  lemma StepKeepsWhole(w: World, now: nat, op: Operation)
    requires Sound(w) && Whole(w) && Allowed(w, now, op) && KeepsPositions(op)
    ensures Whole(Step(w, now, op))
  {
    hide Sound, Whole, DepositUst, WithdrawUst, DelegateMars, Claim, DepositInRedBank;
    match op {
      case OpDepositUst(user, duration, amount) =>
        EarlyKeepsWhole(w, now, op);
      case OpWithdrawUst(user, duration, amount) =>
        EarlyKeepsWhole(w, now, op);
      case OpDepositInRedBank(sender, minted) =>
        if DepositInRedBank(w, now, sender, minted).Ok? {
          RedBankKeepsWhole(w, now, sender, minted);
        }
        ClockKeepsWhole(w, now);
      case OpDelegateMars(user, amount) =>
        if DelegateMars(w, now, user, amount).Ok? {
          DelegateKeepsWhole(w, now, user, amount);
        }
        ClockKeepsWhole(w, now);
      case OpClaim(user, unlock, accrued) =>
        ClaimSound(w, now, user, unlock, accrued);
        if Claim(w, now, user, unlock, accrued).Ok? {
          ClaimKeepsWhole(w, now, user, accrued);
        }
        ClockKeepsWhole(w, now);
      case _ =>
        AdminKeepsWhole(w, now, op);
    }
  }

  lemma AdminKeepsWhole(w: World, now: nat, op: Operation)
    requires Whole(w) && (op.OpIncreaseIncentives? || op.OpEnableClaims? || op.OpUpdateConfig?)
    ensures Whole(Step(w, now, op))
  {
    hide Whole, Step;
    var r := Step(w, now, op);
    AdminRecord(w, now, op);
    SameFullShares(w, r);
    AdminWhole(w, r);
  }

  lemma AdminRecord(w: World, now: nat, op: Operation)
    requires op.OpIncreaseIncentives? || op.OpEnableClaims? || op.OpUpdateConfig?
    ensures var r := Step(w, now, op);
            r == w.(clock := now, config := r.config, ledger := r.ledger,
                    state := w.state.(claimsAllowed := r.state.claimsAllowed))
  {
  }

  lemma AdminWhole(w: World, r: World)
    requires Whole(w) && FullShares(r.state, r.users) == FullShares(w.state, w.users)
    requires r == w.(clock := r.clock, config := r.config, ledger := r.ledger,
                     state := w.state.(claimsAllowed := r.state.claimsAllowed))
    ensures Whole(r)
  {
    hide FullShares, FullShare, PaidToIndex;
    if w.state.finalMaUst > 0 {
      forall u | u in r.users ensures PaidToIndex(r.state, r.lockups, r.users[u], Get(r.xmarsPaid, u)) {
        OtherToIndex(w.state, r.state, w.lockups, r.lockups, w.users[u], r.users[u], Get(w.xmarsPaid, u));
      }
    }
  }

  lemma ClockKeepsWhole(w: World, now: nat)
    requires Whole(w)
    ensures Whole(w.(clock := now))
  {
    hide PaidToIndex, FullShares;
  }

  /** Deposits and withdrawals happen before the Red Bank deposit, and move no xMARS. */
  lemma EarlyKeepsWhole(w: World, now: nat, op: Operation)
    requires Sound(w) && Whole(w) && w.clock <= now && (op.OpDepositUst? || op.OpWithdrawUst?)
    ensures Whole(Step(w, now, op))
  {
    hide Sound, PaidToIndex, FullShares, Weight, Mul, FromRatio, AllowedWithdrawalPercent, Without;
    ClockKeepsWhole(w, now);
    if w.state.finalMaUst > 0 {
      LateTime(w, now);
      match op {
        case OpDepositUst(user, duration, amount) => DepositsClosed(w, now, user, duration, amount);
        case OpWithdrawUst(user, duration, amount) => WithdrawFunded(w, now, user, duration, amount);
      }
    }
  }

  lemma LateTime(w: World, now: nat)
    requires Sound(w) && w.state.finalMaUst > 0 && w.clock <= now
    ensures ValidConfig(w.config) && now >= WithdrawEnd(w.config)
  {
  }

  ghost predicate WithoutUnwinding(calls: seq<(nat, Operation)>) {
    forall i :: 0 <= i < |calls| ==> KeepsPositions(calls[i].1)
  }

  lemma {:induction false} RunKeepsWhole(w: World, calls: seq<(nat, Operation)>)
    requires Sound(w) && Whole(w) && AllowedRun(w, calls) && WithoutUnwinding(calls)
    ensures Whole(Run(w, calls))
    decreases |calls|
  {
    hide Sound, Whole, Step, Allowed;
    if calls != [] {
      StepSound(w, calls[0].0, calls[0].1);
      StepKeepsWhole(w, calls[0].0, calls[0].1);
      RunKeepsWhole(Step(w, calls[0].0, calls[0].1), calls[1..]);
    }
  }

  /** The xMARS each user has been sent or is due at the current index. */
  ghost function SentOrDue(w: World): map<Addr, nat> {
    AtIndex(FullShares(w.state, w.users), w.state.xmarsIndex)
  }

  /**
   Over any run that unwinds no position the xMARS sent and due stays within what came in, and no claim,
   the first unlock included, lacks xMARS, whatever comes in with it.
   */
  lemma XMarsConserved(config: Config, start: nat, calls: seq<(nat, Operation)>)
    requires ValidConfig(config) && config.incentives == 0
    requires AllowedRun(Instantiated(config, start), calls) && WithoutUnwinding(calls)
    ensures var w := Run(Instantiated(config, start), calls);
            && (w.state.finalMaUst > 0 ==> Sum(SentOrDue(w)) <= w.xmarsReceived)
            && (forall user, accrued :: user in w.users ==> DueInClaim(w, user, accrued) <= w.ledger.xmars + accrued)
  {
    InstantiatedSound(config, start);
    InstantiatedWhole(config, start);
    RunSound(Instantiated(config, start), calls);
    RunKeepsWhole(Instantiated(config, start), calls);
    var w := Run(Instantiated(config, start), calls);
    hide Sound;
    if w.state.finalMaUst > 0 {
      AtIndexWithin(FullShares(w.state, w.users), w.state.xmarsIndex, w.xmarsReceived);
    }
    forall user, accrued | user in w.users ensures DueInClaim(w, user, accrued) <= w.ledger.xmars + accrued {
      DueIsHeld(w, user, accrued);
    }
  }
}
