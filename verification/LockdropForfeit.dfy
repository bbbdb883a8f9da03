/** What a batch costs: a user whose record is dropped is never sent MARS again. */
module LockdropForfeit {
  import opened Sums
  import opened Wrappers
  import opened Lockdrop
  import opened LockdropBook
  import opened LockdropSolvency
  import opened LockdropClaims
  import opened LockdropUnwind
  import opened LockdropRun
  import opened LockdropResults
  import opened LockdropNuke

  /** No record of `user` appears and it is sent no MARS. */
  predicate Left(w: World, r: World, user: Addr) {
    user !in r.users && Get(r.marsOut, user) == Get(w.marsOut, user)
  }

  lemma StepLeaves(w: World, now: nat, op: Operation, user: Addr)
    requires Sound(w) && Allowed(w, now, op) && w.state.finalMaUst > 0 && user !in w.users
    ensures Left(w, Step(w, now, op), user)
  {
    hide Sound, DepositUst, WithdrawUst, DelegateMars, Claim, Nuke;
    match op {
      case OpDepositUst(u, duration, amount) =>
        AfterDeposit(w, now);
        DepositsClosed(w, now, u, duration, amount);
      case OpWithdrawUst(u, duration, amount) =>
        WithdrawFunded(w, now, u, duration, amount);
      case OpDelegateMars(u, amount) =>
        DelegateLeaves(w, now, u, amount, user);
      case OpClaim(u, unlock, accrued) =>
        ClaimLeaves(w, now, u, unlock, accrued, user);
      case OpNuke(page) =>
        NukeLeaves(w, page, user);
      case _ =>
    }
  }

  lemma AfterDeposit(w: World, now: nat)
    requires Sound(w) && w.state.finalMaUst > 0 && w.clock <= now
    ensures ValidConfig(w.config) && now >= WithdrawEnd(w.config)
  {
  }

  lemma DelegateLeaves(w: World, now: nat, u: Addr, amount: nat, user: Addr)
    requires user !in w.users
    ensures DelegateMars(w, now, u, amount).Ok? ==> Left(w, DelegateMars(w, now, u, amount).value, user)
  {
    hide Rewards, Rewarded, MaUstShare;
  }

  lemma ClaimLeaves(w: World, now: nat, u: Addr, unlock: Option<nat>, accrued: nat, user: Addr)
    requires user !in w.users
    ensures Claim(w, now, u, unlock, accrued).Ok? ==> Left(w, Claim(w, now, u, unlock, accrued).value, user)
  {
    hide Rewards, Rewarded, MaUstShare, Callbacks;
    if Claim(w, now, u, unlock, accrued).Ok? {
      CallbacksEffect(Materialised(w, u), u, accrued, unlock);
    }
  }

  lemma {:induction false} NukeLeaves(w: World, page: seq<Addr>, user: Addr)
    ensures Nuke(w, page).Ok? ==>
              var r := Nuke(w, page).value;
              r.marsOut == w.marsOut && (user !in w.users ==> user !in r.users)
    decreases |page|
  {
    hide Shares, Locked;
    if page != [] && NukeUser(w, page[0]).Ok? {
      NukeLeaves(NukeUser(w, page[0]).value, page[1..], user);
    }
  }

  /** Once its record is gone, a user has been sent all the MARS it will ever be sent, over any run. */
  lemma {:induction false} DroppedForever(w: World, calls: seq<(nat, Operation)>, user: Addr)
    requires Sound(w) && AllowedRun(w, calls) && w.state.finalMaUst > 0 && user !in w.users
    ensures Left(w, Run(w, calls), user)
    decreases |calls|
  {
    hide Sound, Step, Allowed;
    if calls != [] {
      var now, op := calls[0].0, calls[0].1;
      StepSound(w, now, op);
      StepLeaves(w, now, op, user);
      DepositedForGood(w, now, op);
      DroppedForever(Step(w, now, op), calls[1..], user);
    }
  }

  /** A batch drops exactly the records of users none of whose positions was unlocked before. */
  lemma {:induction false} NukeDrops(w: World, page: seq<Addr>, user: Addr)
    requires Sound(w) && w.state.finalMaUst > 0 && Distinct(page)
    requires user in page && user in w.users && Nuke(w, page).Ok?
    ensures user !in Nuke(w, page).value.users
       <==> w.users[user].totalUst == SumSeq(w.users[user].positions, Locked(w.lockups))
    decreases |page|
  {
    hide Sound, NukeUser, Locked, Unwindable;
    var r := NukeUser(w, page[0]).value;
    NukeUserSound(w, page[0]);
    SoundUnwindable(w, page[0]);
    SoundUnwindable(w, user);
    if page[0] == user {
      UserDrops(w, user);
      OthersStay(r, page[1..], user);
    } else {
      RecordStays(w, page[0], user);
      NukeDrops(r, page[1..], user);
    }
  }

  lemma UserDrops(w: World, user: Addr)
    requires Unwindable(w, user) && user in w.users && NukeUser(w, user).Ok?
    ensures user !in NukeUser(w, user).value.users
       <==> w.users[user].totalUst == SumSeq(w.users[user].positions, Locked(w.lockups))
  {
    hide Shares, Locked;
  }

  lemma RecordStays(w: World, other: Addr, user: Addr)
    requires Unwindable(w, other) && Unwindable(w, user) && other != user && user in w.users && NukeUser(w, other).Ok?
    ensures var r := NukeUser(w, other).value;
            && user in r.users && r.users[user] == w.users[user]
            && SumSeq(w.users[user].positions, Locked(r.lockups)) == SumSeq(w.users[user].positions, Locked(w.lockups))
  {
    hide Shares;
    SumSeqSame(w.users[user].positions, Locked(w.lockups), Locked(NukeUser(w, other).value.lockups));
  }

  lemma {:induction false} OthersStay(w: World, page: seq<Addr>, user: Addr)
    requires user !in page
    ensures Nuke(w, page).Ok? ==> (user in Nuke(w, page).value.users <==> user in w.users)
    decreases |page|
  {
    hide Shares, Locked;
    if page != [] && NukeUser(w, page[0]).Ok? {
      OthersStay(NukeUser(w, page[0]).value, page[1..], user);
    }
  }

  /**
   A batch forfeits what a user is entitled to beyond the MARS it was sent, if its record is dropped,
   which it is exactly when no position of the user was unlocked before: nothing sends it later.
   */
  lemma NukeForfeits(w: World, page: seq<Addr>, calls: seq<(nat, Operation)>, user: Addr)
    requires Sound(w) && w.state.finalMaUst > 0 && Distinct(page)
    requires user in page && user in w.users && Nuke(w, page).Ok?
    requires w.users[user].totalUst == SumSeq(w.users[user].positions, Locked(w.lockups))
    requires AllowedRun(Nuke(w, page).value, calls)
    ensures Get(Run(Nuke(w, page).value, calls).marsOut, user) == Get(w.marsOut, user)
         <= Entitled(w.config, w.state.totalWeight, w.lockups, w.users[user])
  {
    NukeDrops(w, page, user);
    UserIsOk(w, user);
    hide Locked, Shares, Rewards;
    NukeSound(w, page);
    NukeLeaves(w, page, user);
    NukeState(w, page);
    hide Sound;
    DroppedForever(Nuke(w, page).value, calls, user);
  }
}
