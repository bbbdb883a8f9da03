/** Runs of the lockdrop, from its initial world, in which something fails or is lost. */
module LockdropExamples {
  import opened Decimals
  import opened Sums
  import opened Wrappers
  import opened Lockdrop
  import opened LockdropBook
  import opened LockdropClaims
  import opened LockdropUnwind
  import opened LockdropNuke

  // ---------------------------------------------------------------- a share that rounds to zero

  const TINY_CONFIG := Config("owner", Some("auction"), true, true, 0, 10, 5, [Boost(3, 1)], 0)
  const ALICE_THREE := LockupId("alice", 3)
  const BOB_THREE := LockupId("bob", 3)

  /** One UST of alice and 99 of bob, before the Red Bank deposit. */
  const TINY_FUNDED := World(
    TINY_CONFIG, State(0, 0, 100, 0, 0, false, 100, 0),
    map["alice" := User(1, 0, [ALICE_THREE], 0, 0, false, 0, 0), "bob" := User(99, 0, [BOB_THREE], 0, 0, false, 0, 0)],
    map[ALICE_THREE := Lockup(3, 1, 0, false), BOB_THREE := Lockup(3, 99, 0, false)],
    Ledger(100, 0, 0, 0), map[], map[], map[], 0, 1)

  /** After 50 maUST were minted for it, and claims enabled. */
  const TINY_OPEN := TINY_FUNDED.(state := State(100, 50, 0, 50, 0, true, 100, 0), ledger := Ledger(0, 50, 0, 0),
                                  clock := 16)

  /** A first deposit, by a user who is not in the lockdrop yet. */
  lemma FirstDeposit(w: World, now: nat, user: Addr, duration: nat, amount: nat)
    requires IsDepositOpen(w.config, now) && amount > 0 && BoostFor(w.config.boosts, duration).Some? && duration > 0
    requires user !in w.users && LockupId(user, duration) !in w.lockups
    ensures Step(w, now, OpDepositUst(user, duration, amount))
         == w.(clock := now,
               lockups := w.lockups[LockupId(user, duration) := Lockup(duration, amount, 0, false)],
               users := w.users[user := User(amount, 0, [LockupId(user, duration)], 0, 0, false, 0, 0)],
               state := w.state.(totalUst := w.state.totalUst + amount,
                                 totalWeight := w.state.totalWeight + Weight(w.config, duration, amount)),
               ledger := w.ledger.(ust := w.ledger.ust + amount))
  {
    hide Weight, BoostFor;
    assert NEW_USER.positions + [LockupId(user, duration)] == [LockupId(user, duration)];
  }

  lemma TinyReached()
    ensures Step(Step(Instantiated(TINY_CONFIG, 0), 1, OpDepositUst("alice", 3, 1)), 1, OpDepositUst("bob", 3, 99))
         == TINY_FUNDED
  {
    TinyWeights();
    hide Weight, Step, BoostFor;
    var w := Instantiated(TINY_CONFIG, 0);
    FirstDeposit(w, 1, "alice", 3, 1);
    var one := Step(w, 1, OpDepositUst("alice", 3, 1));
    FirstDeposit(one, 1, "bob", 3, 99);
  }

  lemma TinyOpened()
    ensures Step(Step(TINY_FUNDED, 16, OpDepositInRedBank("owner", 50)), 16, OpEnableClaims("auction")) == TINY_OPEN
  {
    hide Weight, MaUstShare, Shares, Rewards, Nuke, Claim, DelegateMars, WithdrawUst, DepositUst;
    var deposited := Step(TINY_FUNDED, 16, OpDepositInRedBank("owner", 50));
    assert deposited == TINY_OPEN.(state := TINY_OPEN.state.(claimsAllowed := false));
  }

  lemma TinyWeights()
    ensures Weight(TINY_CONFIG, 3, 1) == 1 && Weight(TINY_CONFIG, 3, 99) == 99
    ensures BoostFor(TINY_CONFIG.boosts, 3) == Some(1)
  {
  }

  /** One UST out of 100, against which 50 maUST were minted: the share rounds to zero and cannot be unlocked. */
  lemma TinyPositionStuck()
    ensures var w2 := Step(Step(Instantiated(TINY_CONFIG, 0), 1, OpDepositUst("alice", 3, 1)), 1,
                           OpDepositUst("bob", 3, 99));
            var w4 := Step(Step(w2, 16, OpDepositInRedBank("owner", 50)), 16, OpEnableClaims("auction"));
            w4.state.finalMaUst == 50 && w4.state.claimsAllowed
            && Attempt(w4, 17, OpClaim("alice", Some(3), 0)) == Err(ZeroTransfer)
  {
    hide Step, MaUstShare, Rewards, Rewarded, XMarsDue, IndexAfter, Mul;
    TinyReached();
    TinyOpened();
    TinyShare();
    TinyReward();
    var m := Materialised(TINY_OPEN, "alice");
    RewardedSame(TINY_CONFIG, 100, TINY_OPEN.lockups, [ALICE_THREE]);
    assert m.users["alice"] == User(1, 0, [ALICE_THREE], 0, 0, false, 0, 0);
    NothingDue(m.state, m.users["alice"]);
    var rewarded := PayXMars(m, "alice", 0).value;
    assert rewarded.users["alice"] == m.users["alice"];
    assert PayMars(rewarded, "alice") == Ok(rewarded);
    assert MaUstShare(rewarded.state, 1) == 0;
    assert ALICE_THREE in rewarded.lockups && rewarded.lockups[ALICE_THREE].ust == 1;
  }

  lemma NothingDue(state: State, info: User)
    requires info.rewardIndex == state.xmarsIndex
    ensures XMarsDue(state, info, IndexAfter(state, 0)) == 0 && IndexAfter(state, 0) == state.xmarsIndex
  {
    hide Mul;
  }

  lemma TinyShare()
    ensures MaUstShare(TINY_OPEN.state, 1) == 0
  {
  }

  lemma TinyReward()
    ensures SumSeq([ALICE_THREE], Rewards(TINY_CONFIG, 100, TINY_OPEN.lockups)) == 0
  {
    hide FromRatio, Weight;
    var rewards := Rewards(TINY_CONFIG, 100, TINY_OPEN.lockups);
    assert Get(rewards, ALICE_THREE) == 0;
    assert SumSeq([ALICE_THREE], rewards) == Get(rewards, ALICE_THREE) + SumSeq([], rewards);
  }

  // ---------------------------------------------------------------- batches

  const SMALL_CONFIG := Config("owner", None, true, true, 0, 10, 5, [Boost(3, 1)], 0)

  /** One deposit of 100 UST. */
  const SMALL_FUNDED := World(
    SMALL_CONFIG, State(0, 0, 100, 0, 0, false, 100, 0), map["alice" := User(100, 0, [ALICE_THREE], 0, 0, false, 0, 0)],
    map[ALICE_THREE := Lockup(3, 100, 0, false)], Ledger(100, 0, 0, 0), map[], map[], map[], 0, 1)

  /** It brought 50 maUST. */
  const SMALL_DEPOSITED := SMALL_FUNDED.(state := State(100, 50, 0, 50, 0, false, 100, 0),
                                         ledger := Ledger(0, 50, 0, 0), clock := 16)

  lemma SmallReached()
    ensures Step(Instantiated(SMALL_CONFIG, 0), 1, OpDepositUst("alice", 3, 100)) == SMALL_FUNDED
    ensures Step(SMALL_FUNDED, 16, OpDepositInRedBank("owner", 50)) == SMALL_DEPOSITED
  {
    SmallWeight();
    SmallMinted();
    hide Weight, Step, BoostFor;
    FirstDeposit(Instantiated(SMALL_CONFIG, 0), 1, "alice", 3, 100);
  }

  lemma SmallMinted()
    ensures Step(SMALL_FUNDED, 16, OpDepositInRedBank("owner", 50)) == SMALL_DEPOSITED
  {
    hide Weight, MaUstShare, Shares, Rewards, Nuke, Claim, DelegateMars, WithdrawUst, DepositUst;
  }

  lemma SmallWeight()
    ensures Weight(SMALL_CONFIG, 3, 100) == 100 && BoostFor(SMALL_CONFIG.boosts, 3) == Some(1)
  {
  }

  lemma SmallShare()
    ensures SumSeq([ALICE_THREE], Shares(SMALL_DEPOSITED.state, SMALL_DEPOSITED.lockups)) == 50
  {
    RatioAtMostOne(100, 100);
    MulAtMostOne(50, ONE);
    assert MaUstShare(SMALL_DEPOSITED.state, 100) == 50;
    hide MaUstShare;
    var shares := Shares(SMALL_DEPOSITED.state, SMALL_DEPOSITED.lockups);
    assert SumSeq([ALICE_THREE], shares) == Get(shares, ALICE_THREE) + SumSeq([], shares);
  }

  /** A batch unwinds a position whose share is zero; alone it is rejected. */
  lemma ZeroShareUnwoundInBatch()
    ensures Nuke(TINY_OPEN, ["alice"]).Ok? && DissolveUsers(TINY_OPEN, ["alice"]) == Err(ZeroTransfer)
  {
    hide MaUstShare;
    TinyShare();
    TinySums();
    assert Dissolve(TINY_OPEN, "alice", 3) == Err(ZeroTransfer);
    assert DissolveAll(TINY_OPEN, "alice") == Err(ZeroTransfer);
    hide Shares, Locked;
    var r := NukeUser(TINY_OPEN, "alice").value;
    assert Nuke(TINY_OPEN, ["alice"]) == Nuke(r, []);
  }

  lemma TinySums()
    ensures SumSeq([ALICE_THREE], Shares(TINY_OPEN.state, TINY_OPEN.lockups)) == 0
    ensures SumSeq([ALICE_THREE], Locked(TINY_OPEN.lockups)) == 1
  {
    hide MaUstShare;
    TinyShare();
    var shares, locked := Shares(TINY_OPEN.state, TINY_OPEN.lockups), Locked(TINY_OPEN.lockups);
    assert Get(shares, ALICE_THREE) == 0 && Get(locked, ALICE_THREE) == 1;
    hide Shares, Locked;
    assert SumSeq([ALICE_THREE], shares) == Get(shares, ALICE_THREE) + SumSeq([], shares);
    assert SumSeq([ALICE_THREE], locked) == Get(locked, ALICE_THREE) + SumSeq([], locked);
  }

  /** A depositor who never claimed or delegated blocks the batch: its share was never materialised. */
  lemma UnclaimedUserBlocksNuke()
    ensures var w1 := Step(Instantiated(SMALL_CONFIG, 0), 1, OpDepositUst("alice", 3, 100));
            var w2 := Step(w1, 16, OpDepositInRedBank("owner", 50));
            w2.state.finalMaUst == 50 && Attempt(w2, 17, OpNuke(["alice"])) == Err(Underflow)
  {
    hide Step, Shares, Locked;
    SmallReached();
    SmallShare();
    assert NukeUser(SMALL_DEPOSITED, "alice") == Err(Underflow);
  }

  /** Before the Red Bank deposit a batch removes the position and leaves its UST with the contract. */
  lemma EarlyNukeStrandsUst()
    ensures var w1 := Step(Instantiated(SMALL_CONFIG, 0), 1, OpDepositUst("alice", 3, 100));
            var w2 := Step(w1, 2, OpNuke(["alice"]));
            w2.lockups == map[] && w2.users == map[] && w2.state.totalUst == 100 && w2.ledger.ust == 100
  {
    hide Weight, Shares, Locked, Step;
    SmallReached();
    EarlyNuked();
  }

  lemma EarlyNuked()
    ensures var w2 := Step(SMALL_FUNDED, 2, OpNuke(["alice"]));
            w2.lockups == map[] && w2.users == map[] && w2.state.totalUst == 100 && w2.ledger.ust == 100
  {
    hide DepositUst, Shares, Locked, DepositInRedBank, Claim, DelegateMars, WithdrawUst;
    NoSharesAlong(SMALL_FUNDED.state, SMALL_FUNDED.lockups, [ALICE_THREE]);
    AllLocked();
    var r := NukeUser(SMALL_FUNDED, "alice").value;
    assert NukeUser(SMALL_FUNDED, "alice").Ok? && r.users == map[] && r.lockups == map[];
    assert Nuke(SMALL_FUNDED, ["alice"]) == Nuke(r, []) == Ok(r);
  }

  lemma AllLocked()
    ensures SumSeq([ALICE_THREE], Locked(SMALL_FUNDED.lockups)) == 100
  {
    var locked := Locked(SMALL_FUNDED.lockups);
    assert SumSeq([ALICE_THREE], locked) == Get(locked, ALICE_THREE) + SumSeq([], locked);
  }

  // ---------------------------------------------------------------- xMARS after an unlock

  const SHARED_CONFIG := Config("owner", Some("auction"), true, true, 0, 10, 5, [Boost(3, 1)], 0)

  /** Two users with 50 UST each, for which 100 maUST were minted; claims are allowed. */
  const SHARED_OPEN := World(
    SHARED_CONFIG, State(100, 100, 0, 100, 0, true, 100, 0),
    map["alice" := User(50, 0, [ALICE_THREE], 0, 0, false, 0, 0), "bob" := User(50, 0, [BOB_THREE], 0, 0, false, 0, 0)],
    map[ALICE_THREE := Lockup(3, 50, 0, false), BOB_THREE := Lockup(3, 50, 0, false)],
    Ledger(0, 100, 0, 0), map[], map[], map[], 0, 16)

  lemma SharedReached()
    ensures var w2 := Step(Step(Instantiated(SHARED_CONFIG, 0), 1, OpDepositUst("alice", 3, 50)), 1,
                           OpDepositUst("bob", 3, 50));
            Step(Step(w2, 16, OpDepositInRedBank("owner", 100)), 16, OpEnableClaims("auction")) == SHARED_OPEN
  {
    SharedWeights();
    hide Weight, BoostFor, MaUstShare, Shares, Rewards, Nuke, Claim, DelegateMars, WithdrawUst, DepositUst;
    var w := Instantiated(SHARED_CONFIG, 0);
    FirstDeposit(w, 1, "alice", 3, 50);
    var one := Step(w, 1, OpDepositUst("alice", 3, 50));
    FirstDeposit(one, 1, "bob", 3, 50);
    var two := Step(one, 1, OpDepositUst("bob", 3, 50));
    var deposited := Step(two, 16, OpDepositInRedBank("owner", 100));
    assert deposited == SHARED_OPEN.(state := SHARED_OPEN.state.(claimsAllowed := false));
  }

  lemma SharedWeights()
    ensures Weight(SHARED_CONFIG, 3, 50) == 50 && BoostFor(SHARED_CONFIG.boosts, 3) == Some(1)
  {
  }

  /** After alice unlocked with 100 xMARS coming in: she was sent 50, and 50 are held for bob. */
  const SHARED_UNLOCKED := SHARED_OPEN.(
    state := State(100, 100, 0, 50, 0, true, 100, ONE),
    users := map["alice" := User(50, 0, [], 0, 0, false, ONE, 50),
                 "bob" := User(50, 0, [BOB_THREE], 0, 0, false, 0, 0)],
    lockups := map[BOB_THREE := Lockup(3, 50, 0, false)], ledger := Ledger(0, 50, 0, 50),
    maUstPaid := map["alice" := 50], xmarsPaid := map["alice" := 50], xmarsReceived := 100, clock := 17)

  /** Her share, used up, is calculated again; 50 more xMARS come in, and she is sent 50 again. */
  const SHARED_AGAIN := SHARED_UNLOCKED.(
    state := State(100, 100, 0, 50, 0, true, 100, 2 * ONE),
    users := map["alice" := User(50, 50, [], 0, 0, false, 2 * ONE, 100),
                 "bob" := User(50, 0, [BOB_THREE], 0, 0, false, 0, 0)],
    xmarsPaid := map["alice" := 100], xmarsReceived := 150, clock := 18)

  lemma SharedAmounts()
    ensures FromRatio(100, 100) == ONE && FromRatio(50, 50) == ONE && FromRatio(50, 100) == 500_000_000_000_000_000
    ensures Mul(100, 500_000_000_000_000_000) == 50
    ensures Mul(50, 0) == 0 && Mul(50, ONE) == 50 && Mul(50, 2 * ONE) == 100
    ensures forall d: Decimal :: Mul(0, d) == 0
  {
  }

  /** Without incentives materialising calculates the maUST share alone. */
  lemma NoIncentives(w: World, user: Addr)
    requires w.config.incentives == 0 && user in w.users && w.users[user].incentives == 0
    requires forall id :: id in w.lockups ==> w.lockups[id].reward == 0
    ensures Materialised(w, user)
         == w.(users := w.users[user := w.users[user].(maUstShare := if w.users[user].maUstShare == 0
                                                                     then MaUstShare(w.state, w.users[user].totalUst)
                                                                     else w.users[user].maUstShare)])
  {
    hide MaUstShare;
    var rewards := Rewards(w.config, w.state.totalWeight, w.lockups);
    forall id | id in rewards ensures rewards[id] == 0 {
      NoReward(w.config, w.state.totalWeight, Weight(w.config, w.lockups[id].duration, w.lockups[id].ust));
    }
    hide Weight, Reward;
    SumSeqSame(w.users[user].positions, rewards, map[]);
    SumAlongNothing(w.users[user].positions);
    assert Rewarded(w.config, w.state.totalWeight, w.lockups, w.users[user].positions) == w.lockups;
  }

  lemma NoReward(config: Config, totalWeight: nat, weight: nat)
    requires config.incentives == 0
    ensures Reward(config, totalWeight, weight) == 0
  {
  }

  lemma {:induction false} SumAlongNothing(ids: seq<LockupId>)
    ensures SumSeq(ids, map[]) == 0
    decreases |ids|
  {
    if ids != [] {
      SumAlongNothing(ids[1..]);
    }
  }

  lemma HalfShare()
    ensures MaUstShare(SHARED_OPEN.state, 50) == 50
    ensures MaUstShare(SHARED_UNLOCKED.state, 50) == 50 && MaUstShare(SHARED_AGAIN.state, 50) == 50
  {
    SharedAmounts();
    hide Mul, FromRatio;
  }

  lemma AliceUnlocks()
    ensures Claim(SHARED_OPEN, 17, "alice", Some(3), 100) == Ok(SHARED_UNLOCKED)
  {
    SharedAmounts();
    HalfShare();
    NoIncentives(SHARED_OPEN, "alice");
    hide Mul, FromRatio, MaUstShare, Materialised;
    var m := SHARED_OPEN.(users := SHARED_OPEN.users["alice" := User(50, 50, [ALICE_THREE], 0, 0, false, 0, 0)]);
    assert Materialised(SHARED_OPEN, "alice") == m;
    var x := m.(state := m.state.(xmarsIndex := ONE),
                users := m.users["alice" := User(50, 50, [ALICE_THREE], 0, 0, false, ONE, 50)],
                ledger := Ledger(0, 100, 0, 50), xmarsPaid := map["alice" := 50], xmarsReceived := 100);
    assert PayXMars(m, "alice", 100) == Ok(x);
    assert PayMars(x, "alice") == Ok(x);
    AliceDissolves(x);
  }

  lemma AliceDissolves(x: World)
    requires x == SHARED_OPEN.(state := SHARED_OPEN.state.(xmarsIndex := ONE),
                              users := SHARED_OPEN.users["alice" := User(50, 50, [ALICE_THREE], 0, 0, false, ONE, 50)],
                              ledger := Ledger(0, 100, 0, 50), xmarsPaid := map["alice" := 50], xmarsReceived := 100)
    ensures Dissolve(x, "alice", 3) == Ok(SHARED_UNLOCKED.(clock := 16))
  {
    SharedAmounts();
    hide Mul, FromRatio;
    assert MaUstShare(x.state, 50) == 50;
    hide MaUstShare;
    assert Without([ALICE_THREE], ALICE_THREE) == [];
    var d := Dissolve(x, "alice", 3);
    assert d.Ok?;
    assert d.value.lockups == SHARED_UNLOCKED.lockups;
    assert d.value.users == SHARED_UNLOCKED.users;
  }

  lemma AliceClaimsAgain()
    ensures Claim(SHARED_UNLOCKED, 18, "alice", None, 50) == Ok(SHARED_AGAIN)
  {
    SharedAmounts();
    HalfShare();
    NoIncentives(SHARED_UNLOCKED, "alice");
    hide Mul, FromRatio, MaUstShare, Materialised;
    var m := SHARED_UNLOCKED.(users := SHARED_UNLOCKED.users["alice" := User(50, 50, [], 0, 0, false, ONE, 50)]);
    assert Materialised(SHARED_UNLOCKED, "alice") == m;
    var x := SHARED_AGAIN.(clock := 17);
    AliceIsPaid(m);
    assert PayMars(x, "alice") == Ok(x);
  }

  lemma AliceIsPaid(m: World)
    requires m == SHARED_UNLOCKED.(users := SHARED_UNLOCKED.users["alice" := User(50, 50, [], 0, 0, false, ONE, 50)])
    ensures PayXMars(m, "alice", 50) == Ok(SHARED_AGAIN.(clock := 17))
  {
    SharedAmounts();
    hide Mul, FromRatio;
    var x := SHARED_AGAIN.(clock := 17);
    assert PayXMars(m, "alice", 50).value.users == x.users && PayXMars(m, "alice", 50).value.xmarsPaid == x.xmarsPaid;
  }

  lemma BobRefused()
    ensures Claim(SHARED_AGAIN, 19, "bob", None, 0) == Err(XMarsUnfunded)
  {
    SharedAmounts();
    HalfShare();
    NoIncentives(SHARED_AGAIN, "bob");
    hide Mul, FromRatio, MaUstShare, Materialised;
  }

  /**
   Once a position was unlocked, claiming again can take the xMARS of others: alice unlocks, claims
   again with her share calculated anew, and bob's claim, MARS and all, is refused for lack of xMARS,
   although its every other condition holds.
   */
  lemma UnlockTakesOthersXMars()
    ensures var w2 := Step(Step(Instantiated(SHARED_CONFIG, 0), 1, OpDepositUst("alice", 3, 50)), 1,
                           OpDepositUst("bob", 3, 50));
            var w4 := Step(Step(w2, 16, OpDepositInRedBank("owner", 100)), 16, OpEnableClaims("auction"));
            var w5 := Step(w4, 17, OpClaim("alice", Some(3), 100));
            var w6 := Step(w5, 18, OpClaim("alice", None, 50));
            && w6.xmarsReceived == 150 && Sum(w6.xmarsPaid) == 100
            && DueInClaim(w6, "bob", 0) == 100 && Attempt(w6, 19, OpClaim("bob", None, 0)) == Err(XMarsUnfunded)
            && Unlockable(w6, "bob", 3)
  {
    hide Step, Claim, Attempt, DueInClaim, Unlockable, Sum;
    SharedReached();
    AliceUnlocks();
    AliceClaimsAgain();
    BobRefused();
    ClaimStep(SHARED_OPEN, 17, "alice", Some(3), 100);
    ClaimStep(SHARED_UNLOCKED, 18, "alice", None, 50);
    ClaimStep(SHARED_AGAIN, 19, "bob", None, 0);
    BobsDue();
    BobCanUnlock();
  }

  lemma BobCanUnlock()
    ensures Unlockable(SHARED_AGAIN, "bob", 3) && Sum(SHARED_AGAIN.xmarsPaid) == 100
  {
    HalfShare();
    hide MaUstShare;
    SumUpdate(map[], "alice", 100);
  }

  lemma ClaimStep(w: World, now: nat, user: Addr, unlock: Option<nat>, accrued: nat)
    ensures Attempt(w, now, OpClaim(user, unlock, accrued)) == Claim(w, now, user, unlock, accrued)
    ensures Claim(w, now, user, unlock, accrued).Ok? ==>
              Step(w, now, OpClaim(user, unlock, accrued)) == Claim(w, now, user, unlock, accrued).value
  {
    hide Claim;
  }

  lemma BobsDue()
    ensures DueInClaim(SHARED_AGAIN, "bob", 0) == 100
  {
    SharedAmounts();
    HalfShare();
    NoIncentives(SHARED_AGAIN, "bob");
    hide Mul, FromRatio, MaUstShare, Materialised;
  }
}
