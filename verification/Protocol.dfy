/**
 The airdrop, the lockdrop and the auction together. A delegation of MARS is one transaction of two
 contracts, creating the pool one of three: either every contract accepts its message or nothing
 happens.
 */
module Protocol {
  import opened Wrappers
  import opened Decimals
  import Merkle
  import Airdrop
  import Lockdrop
  import LockdropBook
  import LockdropSolvency
  import LockdropClaims
  import LockdropUnwind
  import LockdropRun
  import Auction
  import AuctionSolvency

  /** `self` is the address of the auction. */
  datatype World = World(airdrop: Airdrop.World, lockdrop: Lockdrop.World, auction: Auction.World, self: Addr)

  datatype Operation =
    | InAirdrop(a: Airdrop.Operation)
    | InLockdrop(l: Lockdrop.Operation)
    | InAuction(b: Auction.Operation)
    | DelegateAirdrop(user: Addr, amount: nat)
    | DelegateLockdrop(user: Addr, amount: nat)
    | CreatePool(sender: Addr, minted: nat)

  function Wait(p: World, now: nat): World {
    World(p.airdrop.(clock := now), p.lockdrop.(clock := now), p.auction.(clock := now), p.self)
  }

  /** One transaction; the messages between the contracts are delivered or all is undone. */
  function Step(digest: Merkle.Digest, p: World, now: nat, op: Operation): World
    requires p.auction.config.vestingDuration > 0
  {
    var idle := Wait(p, now);
    match op
    case InAirdrop(a) => idle.(airdrop := Airdrop.Step(digest, p.airdrop, now, a))
    case InLockdrop(l) => idle.(lockdrop := Lockdrop.Step(p.lockdrop, now, l))
    case InAuction(b) => idle.(auction := Auction.Step(p.auction, now, b))
    case DelegateAirdrop(user, amount) =>
      var from := Airdrop.Delegate(p.airdrop, now, user, amount);
      var to := Auction.DepositMars(p.auction, now, p.auction.config.airdrop, user, amount);
      if from.Ok? && to.Ok? then idle.(airdrop := from.value, auction := to.value) else idle
    case DelegateLockdrop(user, amount) =>
      var from := Lockdrop.DelegateMars(p.lockdrop, now, user, amount);
      var to := Auction.DepositMars(p.auction, now, p.auction.config.lockdrop, user, amount);
      if from.Ok? && to.Ok? then idle.(lockdrop := from.value, auction := to.value) else idle
    case CreatePool(sender, minted) =>
      var pool := Auction.InitPool(p.auction, now, sender, minted);
      var lockdrop := Lockdrop.EnableClaims(p.lockdrop, now, p.self);
      var airdrop := Airdrop.EnableClaims(p.airdrop, now, p.self);
      if pool.Ok? && lockdrop.Ok? && airdrop.Ok? then World(airdrop.value, lockdrop.value, pool.value, p.self) else idle
  }

  /** Transactions of one contract that do not come from another of the three. */
  predicate FromOutside(p: World, op: Operation) {
    match op
    case InAirdrop(a) =>
      && !a.OpDelegate? && (a.OpEnableClaims? ==> a.sender != p.self)
      && (a.OpUpdateConfig? && a.update.auction.Some? ==> a.update.auction.value == p.self)
    case InLockdrop(l) =>
      && !l.OpDelegateMars? && (l.OpEnableClaims? ==> l.sender != p.self)
      && (l.OpUpdateConfig? && l.auction.Some? ==> l.auction.value == p.self)
    case InAuction(b) =>
      !b.OpInitPool?
      && (b.OpDepositMars? ==> b.sender != p.auction.config.airdrop && b.sender != p.auction.config.lockdrop)
    case _ => true
  }

  predicate Allowed(p: World, now: nat, op: Operation) {
    && p.lockdrop.clock <= now && p.auction.clock <= now
    && FromOutside(p, op)
    && (op.CreatePool? ==> LockdropRun.InSeason(p.lockdrop, now, Lockdrop.OpEnableClaims(p.self)))
    && (op.InLockdrop? ==> LockdropRun.InSeason(p.lockdrop, now, op.l))
  }

  // ---------------------------------------------------------------- the invariant

  /** The airdrop and the lockdrop know no auction but this one. */
  predicate Wired(p: World) {
    && (p.airdrop.config.auction.Some? ==> p.airdrop.config.auction.value == p.self)
    && (p.lockdrop.config.auction.Some? ==> p.lockdrop.config.auction.value == p.self)
  }

  /** The auction's MARS is what the other two delegated, and claims are open exactly when the pool exists. */
  predicate Linked(p: World) {
    && p.airdrop.state.delegated + p.lockdrop.state.totalMarsDelegated == p.auction.state.totalMars
    && (p.auction.state.lpMinted > 0 <==> p.airdrop.config.claimsEnabled)
    && (p.auction.state.lpMinted > 0 <==> p.lockdrop.state.claimsAllowed)
  }

  function Deposited(p: World, user: Addr): nat {
    Auction.Lookup(p.auction.users, user).mars
  }

  function Delegated(p: World, user: Addr): nat {
    Airdrop.Lookup(p.airdrop.users, user).delegated + Lockdrop.Lookup(p.lockdrop.users, user).delegated
  }

  /** The same for every single user, except that a batch may have dropped a lockdrop record. */
  predicate UserLinked(p: World, user: Addr) {
    && Delegated(p, user) <= Deposited(p, user)
    && (p.lockdrop.state.finalMaUst == 0 || user in p.lockdrop.users ==> Delegated(p, user) == Deposited(p, user))
  }

  ghost predicate UsersLinked(p: World) {
    forall u: Addr :: UserLinked(p, u)
  }

  ghost predicate Sound(digest: Merkle.Digest, p: World) {
    && Airdrop.Sound(digest, p.airdrop) && LockdropBook.Sound(p.lockdrop) && AuctionSolvency.Sound(p.auction)
    && Wired(p) && Linked(p) && UsersLinked(p)
  }

  // ---------------------------------------------------------------- what single contracts leave alone

  predicate AirdropQuiet(w: Airdrop.World, r: Airdrop.World, self: Addr) {
    && r.state.delegated == w.state.delegated && r.config.claimsEnabled == w.config.claimsEnabled
    && (r.config.auction == w.config.auction || r.config.auction == Some(self))
  }

  ghost predicate AirdropUsersQuiet(w: Airdrop.World, r: Airdrop.World) {
    forall u: Addr :: Airdrop.Lookup(r.users, u).delegated == Airdrop.Lookup(w.users, u).delegated
  }

  lemma AirdropStepQuiet(digest: Merkle.Digest, w: Airdrop.World, now: nat, op: Airdrop.Operation, self: Addr)
    requires !op.OpDelegate? && (op.OpEnableClaims? ==> op.sender != self)
    requires op.OpUpdateConfig? && op.update.auction.Some? ==> op.update.auction.value == self
    requires w.config.auction.Some? ==> w.config.auction.value == self
    ensures AirdropQuiet(w, Airdrop.Step(digest, w, now, op), self)
    ensures AirdropUsersQuiet(w, Airdrop.Step(digest, w, now, op))
  {
    hide Merkle.Verified;
  }

  predicate AuctionQuiet(w: Auction.World, r: Auction.World) {
    && r.state.totalMars == w.state.totalMars && (r.state.lpMinted > 0 <==> w.state.lpMinted > 0)
    && r.config.airdrop == w.config.airdrop && r.config.lockdrop == w.config.lockdrop
  }

  ghost predicate AuctionUsersQuiet(w: Auction.World, r: Auction.World) {
    forall u: Addr :: Auction.Lookup(r.users, u).mars == Auction.Lookup(w.users, u).mars
  }

  lemma AuctionStepQuiet(w: Auction.World, now: nat, op: Auction.Operation)
    requires w.config.vestingDuration > 0 && !op.OpInitPool?
    requires op.OpDepositMars? ==> op.sender != w.config.airdrop && op.sender != w.config.lockdrop
    ensures AuctionQuiet(w, Auction.Step(w, now, op)) && AuctionUsersQuiet(w, Auction.Step(w, now, op))
  {
    hide Auction.LpShare, Auction.Incentive, Auction.Percent;
    hide Auction.Payable, Auction.PayoutOf, Auction.AllowedWithdrawalPercent;
    hide Mul, FromRatio;
  }

  predicate LockdropQuiet(w: Lockdrop.World, r: Lockdrop.World, self: Addr) {
    && r.state.totalMarsDelegated == w.state.totalMarsDelegated && r.state.claimsAllowed == w.state.claimsAllowed
    && (r.config.auction == w.config.auction || r.config.auction == Some(self))
  }

  /**
   No record's delegation changes; one is only dropped with a delegation, and none appears, after the Red
   Bank deposit.
   */
  predicate LockdropUsersQuiet(w: Lockdrop.World, r: Lockdrop.World) {
    && (forall u :: u in r.users ==> r.users[u].delegated == Lockdrop.Lookup(w.users, u).delegated)
    && (w.state.finalMaUst == 0 ==> forall u :: u in w.users && u !in r.users ==> w.users[u].delegated == 0)
    && (w.state.finalMaUst > 0 ==> r.state.finalMaUst > 0 && r.users.Keys <= w.users.Keys)
  }

  lemma MaterialisedQuiet(w: Lockdrop.World, user: Addr)
    ensures var m := Lockdrop.Materialised(w, user);
            && m.state == w.state && m.config == w.config && m.users.Keys == w.users.Keys + {user}
            && (forall u :: u in m.users ==> m.users[u].delegated == Lockdrop.Lookup(w.users, u).delegated)
  {
    hide Lockdrop.MaUstShare, Lockdrop.Rewards, Lockdrop.Rewarded;
  }

  lemma ClaimQuiet(w: Lockdrop.World, now: nat, user: Addr, unlock: Option<nat>, accrued: nat)
    requires Lockdrop.Claim(w, now, user, unlock, accrued).Ok? && user in w.users
    ensures var r := Lockdrop.Claim(w, now, user, unlock, accrued).value;
            && r.state == w.state.(totalMaUst := r.state.totalMaUst, xmarsIndex := r.state.xmarsIndex)
            && r.config == w.config && r.users.Keys == w.users.Keys
            && (forall u :: u in r.users ==> r.users[u].delegated == Lockdrop.Lookup(w.users, u).delegated)
  {
    hide Lockdrop.Materialised, Lockdrop.Callbacks;
    MaterialisedQuiet(w, user);
    LockdropUnwind.CallbacksEffect(Lockdrop.Materialised(w, user), user, accrued, unlock);
  }

  lemma {:induction false} NukeQuiet(w: Lockdrop.World, page: seq<Addr>)
    ensures Lockdrop.Nuke(w, page).Ok? ==>
              var r := Lockdrop.Nuke(w, page).value;
              && r.state == w.state.(totalMaUst := r.state.totalMaUst)
              && r.config == w.config && r.users.Keys <= w.users.Keys
              && (forall u :: u in r.users ==> r.users[u].delegated == w.users[u].delegated)
    decreases |page|
  {
    hide Lockdrop.Shares, Lockdrop.Locked;
    if page != [] && Lockdrop.NukeUser(w, page[0]).Ok? {
      NukeQuiet(Lockdrop.NukeUser(w, page[0]).value, page[1..]);
    }
  }

  /** Before the deposit a batch in season drops only records that never delegated. */
  lemma {:induction false} EarlyNukeQuiet(w: Lockdrop.World, page: seq<Addr>)
    requires LockdropBook.Sound(w) && w.state.finalMaUst == 0 && LockdropUnwind.NothingListed(w, page)
    ensures Lockdrop.Nuke(w, page).Ok?
    ensures forall u :: u in w.users && u !in Lockdrop.Nuke(w, page).value.users ==> w.users[u].delegated == 0
    decreases |page|
  {
    hide LockdropBook.Sound, Lockdrop.NukeUser;
    if page != [] {
      LockdropUnwind.EmptyDropSound(w, page[0]);
      NeverDelegated(w, page[0]);
      assert forall u :: u in page[1..] ==> u in page;
      EarlyNukeQuiet(w.(users := w.users - {page[0]}), page[1..]);
    }
  }

  lemma NeverDelegated(w: Lockdrop.World, user: Addr)
    requires LockdropBook.Sound(w) && w.state.finalMaUst == 0 && Lockdrop.Lookup(w.users, user).positions == []
    ensures Lockdrop.Lookup(w.users, user).delegated == 0
  {
    if user in w.users {
      LockdropClaims.UserIsOk(w, user);
    }
    hide LockdropBook.Sound;
  }

  lemma LockdropStepQuiet(w: Lockdrop.World, now: nat, op: Lockdrop.Operation, self: Addr)
    requires LockdropBook.Sound(w) && w.clock <= now && LockdropRun.InSeason(w, now, op)
    requires !op.OpDelegateMars? && (op.OpEnableClaims? ==> op.sender != self)
    requires op.OpUpdateConfig? && op.auction.Some? ==> op.auction.value == self
    requires w.config.auction.Some? ==> w.config.auction.value == self
    ensures LockdropQuiet(w, Lockdrop.Step(w, now, op), self) && LockdropUsersQuiet(w, Lockdrop.Step(w, now, op))
  {
    hide LockdropBook.Sound, Lockdrop.Claim, Lockdrop.Nuke, Lockdrop.WithdrawUst, Lockdrop.DepositUst;
    match op {
      case OpDepositUst(user, duration, amount) => DepositQuiet(w, now, user, duration, amount);
      case OpWithdrawUst(user, duration, amount) => WithdrawQuiet(w, now, user, duration, amount);
      case OpClaim(user, unlock, accrued) =>
        LockdropUnwind.ClaimSound(w, now, user, unlock, accrued);
        if Lockdrop.Claim(w, now, user, unlock, accrued).Ok? {
          ClaimQuiet(w, now, user, unlock, accrued);
        }
      case OpNuke(page) =>
        NukeQuiet(w, page);
        if w.state.finalMaUst == 0 {
          EarlyNukeQuiet(w, page);
        }
      case _ =>
    }
  }

  lemma DepositQuiet(w: Lockdrop.World, now: nat, user: Addr, duration: nat, amount: nat)
    requires LockdropBook.Sound(w) && w.clock <= now
    ensures var d := Lockdrop.DepositUst(w, now, user, duration, amount);
            d.Ok? ==> w.state.finalMaUst == 0 && d.value.config == w.config
                      && d.value.state == w.state.(totalUst := d.value.state.totalUst,
                                                   totalWeight := d.value.state.totalWeight)
                      && LockdropUsersQuiet(w, d.value)
  {
    hide Lockdrop.Weight, LockdropBook.Placed, LockdropBook.Mars;
  }

  lemma WithdrawQuiet(w: Lockdrop.World, now: nat, user: Addr, duration: nat, amount: nat)
    requires LockdropBook.Sound(w) && w.clock <= now
    ensures var d := Lockdrop.WithdrawUst(w, now, user, duration, amount);
            d.Ok? ==> w.state.finalMaUst == 0 && d.value.config == w.config
                      && d.value.state == w.state.(totalUst := d.value.state.totalUst,
                                                   totalWeight := d.value.state.totalWeight)
                      && LockdropUsersQuiet(w, d.value)
  {
    hide LockdropBook.Sound, Lockdrop.Weight, Mul, FromRatio, Lockdrop.AllowedWithdrawalPercent, Lockdrop.Without;
    LockdropSolvency.WithdrawFunded(w, now, user, duration, amount);
  }

  // ---------------------------------------------------------------- every transaction keeps the invariant

  lemma AirdropWaits(digest: Merkle.Digest, w: Airdrop.World, now: nat)
    requires Airdrop.Sound(digest, w)
    ensures Airdrop.Sound(digest, w.(clock := now))
  {
  }

  lemma WaitSound(digest: Merkle.Digest, p: World, now: nat)
    requires Sound(digest, p) && p.lockdrop.clock <= now && p.auction.clock <= now
    ensures Sound(digest, Wait(p, now))
  {
    hide Airdrop.Sound, LockdropBook.Sound, AuctionSolvency.Sound;
    AirdropWaits(digest, p.airdrop, now);
    LockdropSolvency.WaitSound(p.lockdrop, now);
    AuctionSolvency.WaitSound(p.auction, now);
    forall u: Addr ensures UserLinked(Wait(p, now), u) {
      assert UserLinked(p, u);
    }
  }

  lemma Configured(digest: Merkle.Digest, p: World)
    requires Sound(digest, p)
    ensures p.auction.config.vestingDuration > 0
  {
    hide Airdrop.Sound, LockdropBook.Sound, AuctionSolvency.Sound;
    AuctionSolvency.Configured(p.auction);
  }

  /** A transaction of a single contract. */
  lemma SingleSound(digest: Merkle.Digest, p: World, now: nat, op: Operation)
    requires Sound(digest, p) && Allowed(p, now, op) && (op.InAirdrop? || op.InLockdrop? || op.InAuction?)
    ensures p.auction.config.vestingDuration > 0
    ensures Sound(digest, Step(digest, p, now, op))
  {
    hide Airdrop.Sound, LockdropBook.Sound, AuctionSolvency.Sound;
    Configured(digest, p);
    WaitSound(digest, p, now);
    var r := Step(digest, p, now, op);
    match op {
      case InAirdrop(a) =>
        Airdrop.StepSound(digest, p.airdrop, now, a);
        AirdropStepQuiet(digest, p.airdrop, now, a, p.self);
      case InLockdrop(l) =>
        LockdropRun.StepSound(p.lockdrop, now, l);
        LockdropStepQuiet(p.lockdrop, now, l, p.self);
      case InAuction(b) =>
        AuctionSolvency.NeverStuck(p.auction, now, b);
        AuctionStepQuiet(p.auction, now, b);
    }
    hide Airdrop.Step, Lockdrop.Step, Auction.Step;
    forall u: Addr ensures UserLinked(r, u) {
      assert UserLinked(p, u);
    }
  }

  lemma AirdropDelegates(w: Airdrop.World, now: nat, user: Addr, amount: nat)
    requires Airdrop.Delegate(w, now, user, amount).Ok?
    ensures var r := Airdrop.Delegate(w, now, user, amount).value;
            && r.state.delegated == w.state.delegated + amount && r.config == w.config && !w.config.claimsEnabled
            && (forall u: Addr ::
                 Airdrop.Lookup(r.users, u).delegated
                 == Airdrop.Lookup(w.users, u).delegated + if u == user then amount else 0)
  {
  }

  lemma LockdropDelegates(w: Lockdrop.World, now: nat, user: Addr, amount: nat)
    requires Lockdrop.DelegateMars(w, now, user, amount).Ok?
    ensures var r := Lockdrop.DelegateMars(w, now, user, amount).value;
            && r.state == w.state.(totalMarsDelegated := w.state.totalMarsDelegated + amount)
            && r.config == w.config && !w.state.claimsAllowed
            && user in w.users && r.users.Keys == w.users.Keys
            && (forall u: Addr ::
                 Lockdrop.Lookup(r.users, u).delegated
                 == Lockdrop.Lookup(w.users, u).delegated + if u == user then amount else 0)
  {
    hide Lockdrop.Materialised;
    MaterialisedQuiet(w, user);
  }

  lemma AuctionReceives(w: Auction.World, now: nat, sender: Addr, user: Addr, amount: nat)
    requires Auction.DepositMars(w, now, sender, user, amount).Ok?
    ensures var r := Auction.DepositMars(w, now, sender, user, amount).value;
            && r.state == w.state.(totalMars := w.state.totalMars + amount) && r.config == w.config
            && (forall u: Addr ::
                 Auction.Lookup(r.users, u).mars == Auction.Lookup(w.users, u).mars + if u == user then amount else 0)
  {
  }

  /** A delegation arrives in full or not at all. */
  lemma DelegationSound(digest: Merkle.Digest, p: World, now: nat, op: Operation)
    requires Sound(digest, p) && Allowed(p, now, op) && (op.DelegateAirdrop? || op.DelegateLockdrop?)
    ensures p.auction.config.vestingDuration > 0
    ensures Sound(digest, Step(digest, p, now, op))
  {
    hide Airdrop.Sound, LockdropBook.Sound, AuctionSolvency.Sound;
    Configured(digest, p);
    WaitSound(digest, p, now);
    var r := Step(digest, p, now, op);
    var from := if op.DelegateAirdrop? then p.auction.config.airdrop else p.auction.config.lockdrop;
    var to := Auction.DepositMars(p.auction, now, from, op.user, op.amount);
    if to.Ok? {
      AuctionSolvency.NeverStuck(p.auction, now, Auction.OpDepositMars(from, op.user, op.amount));
      AuctionReceives(p.auction, now, from, op.user, op.amount);
      if op.DelegateAirdrop? && Airdrop.Delegate(p.airdrop, now, op.user, op.amount).Ok? {
        Airdrop.DelegateSound(digest, p.airdrop, now, op.user, op.amount);
        AirdropDelegates(p.airdrop, now, op.user, op.amount);
      }
      if op.DelegateLockdrop? && Lockdrop.DelegateMars(p.lockdrop, now, op.user, op.amount).Ok? {
        LockdropClaims.DelegateSound(p.lockdrop, now, op.user, op.amount);
        LockdropDelegates(p.lockdrop, now, op.user, op.amount);
      }
    }
    hide Airdrop.Delegate, Lockdrop.DelegateMars, Auction.DepositMars;
    forall u: Addr ensures UserLinked(r, u) {
      assert UserLinked(p, u);
    }
  }

  /** A delegation arrives in full, for its user alone, or nothing happens. */
  lemma DelegationAtomic(digest: Merkle.Digest, p: World, now: nat, op: Operation)
    requires p.auction.config.vestingDuration > 0 && (op.DelegateAirdrop? || op.DelegateLockdrop?)
    ensures var r := Step(digest, p, now, op);
            || r == Wait(p, now)
            || (&& r.auction.state.totalMars == p.auction.state.totalMars + op.amount && op.amount > 0
                && r.airdrop.state.delegated
                   == p.airdrop.state.delegated + (if op.DelegateAirdrop? then op.amount else 0)
                && r.lockdrop.state.totalMarsDelegated
                   == p.lockdrop.state.totalMarsDelegated + (if op.DelegateLockdrop? then op.amount else 0)
                && (forall u: Addr :: Deposited(r, u) == Deposited(p, u) + if u == op.user then op.amount else 0)
                && (forall u: Addr :: Delegated(r, u) == Delegated(p, u) + if u == op.user then op.amount else 0))
  {
    var from := if op.DelegateAirdrop? then p.auction.config.airdrop else p.auction.config.lockdrop;
    if Auction.DepositMars(p.auction, now, from, op.user, op.amount).Ok? {
      AuctionReceives(p.auction, now, from, op.user, op.amount);
      if op.DelegateAirdrop? && Airdrop.Delegate(p.airdrop, now, op.user, op.amount).Ok? {
        AirdropDelegates(p.airdrop, now, op.user, op.amount);
      }
      if op.DelegateLockdrop? && Lockdrop.DelegateMars(p.lockdrop, now, op.user, op.amount).Ok? {
        LockdropDelegates(p.lockdrop, now, op.user, op.amount);
      }
    }
    hide Airdrop.Delegate, Lockdrop.DelegateMars;
  }

  /** In no reachable state can claims opened too early, or twice, keep the pool from being created. */
  lemma PoolCreation(digest: Merkle.Digest, p: World, now: nat, sender: Addr, minted: nat)
    requires Sound(digest, p) && p.auction.state.lpMinted == 0 && p.auction.clock <= now
    ensures p.auction.config.vestingDuration > 0
    ensures var r := Step(digest, p, now, CreatePool(sender, minted));
            var succeeds := && sender == p.auction.config.owner && p.auction.config.poolSet
                            && Auction.AreWindowsClosed(p.auction.config, now)
                            && minted > 0 && p.auction.state.totalMars > 0 && p.auction.state.totalUst > 0
                            && !Lockdrop.IsWithdrawOpen(p.lockdrop.config, now)
                            && p.lockdrop.config.auction.Some? && p.airdrop.config.auction.Some?;
            if succeeds then r.auction.state.lpMinted == minted > 0
                             && r.airdrop.config.claimsEnabled && r.lockdrop.state.claimsAllowed
            else r == Wait(p, now)
  {
    hide Airdrop.Sound, LockdropBook.Sound, AuctionSolvency.Sound;
    Configured(digest, p);
    AuctionSolvency.InitPoolSound(p.auction, now, sender, minted);
    hide UsersLinked;
  }

  lemma PoolCreated(w: Auction.World, now: nat, sender: Addr, minted: nat)
    requires Auction.InitPool(w, now, sender, minted).Ok?
    ensures var r := Auction.InitPool(w, now, sender, minted).value;
            r.state.totalMars == w.state.totalMars && r.state.lpMinted > 0 && r.users == w.users && r.config == w.config
  {
  }

  /** The pool is created, and claims open in both other contracts, in one transaction. */
  lemma CreatePoolSound(digest: Merkle.Digest, p: World, now: nat, op: Operation)
    requires Sound(digest, p) && Allowed(p, now, op) && op.CreatePool?
    ensures p.auction.config.vestingDuration > 0
    ensures Sound(digest, Step(digest, p, now, op))
  {
    hide Airdrop.Sound, LockdropBook.Sound, AuctionSolvency.Sound;
    Configured(digest, p);
    WaitSound(digest, p, now);
    var r := Step(digest, p, now, op);
    var pool := Auction.InitPool(p.auction, now, op.sender, op.minted);
    var lockdrop := Lockdrop.EnableClaims(p.lockdrop, now, p.self);
    var airdrop := Airdrop.EnableClaims(p.airdrop, now, p.self);
    if pool.Ok? && lockdrop.Ok? && airdrop.Ok? {
      AuctionSolvency.NeverStuck(p.auction, now, Auction.OpInitPool(op.sender, op.minted));
      LockdropSolvency.EnableClaimsSound(p.lockdrop, now, p.self);
      Airdrop.StepSound(digest, p.airdrop, now, Airdrop.OpEnableClaims(p.self));
      PoolCreated(p.auction, now, op.sender, op.minted);
      hide Auction.InitPool;
      forall u: Addr ensures UserLinked(r, u) {
        assert UserLinked(p, u);
      }
    }
  }

  lemma StepSound(digest: Merkle.Digest, p: World, now: nat, op: Operation)
    requires Sound(digest, p) && Allowed(p, now, op)
    ensures p.auction.config.vestingDuration > 0
    ensures Sound(digest, Step(digest, p, now, op))
  {
    hide Sound, Allowed;
    match op {
      case DelegateAirdrop(_, _) => DelegationSound(digest, p, now, op);
      case DelegateLockdrop(_, _) => DelegationSound(digest, p, now, op);
      case CreatePool(_, _) => CreatePoolSound(digest, p, now, op);
      case _ => SingleSound(digest, p, now, op);
    }
  }

  // ---------------------------------------------------------------- runs

  ghost predicate AllowedRun(digest: Merkle.Digest, p: World, calls: seq<(nat, Operation)>)
    requires Sound(digest, p)
    decreases |calls|
  {
    hide Sound, Step, Allowed;
    calls != [] ==>
      && Allowed(p, calls[0].0, calls[0].1)
      && (StepSound(digest, p, calls[0].0, calls[0].1);
          AllowedRun(digest, Step(digest, p, calls[0].0, calls[0].1), calls[1..]))
  }

  ghost function Run(digest: Merkle.Digest, p: World, calls: seq<(nat, Operation)>): (r: World)
    requires Sound(digest, p) && AllowedRun(digest, p, calls)
    ensures Sound(digest, r)
    decreases |calls|
  {
    hide Sound, Step, Allowed;
    if calls == [] then p
    else
      StepSound(digest, p, calls[0].0, calls[0].1);
      Run(digest, Step(digest, p, calls[0].0, calls[0].1), calls[1..])
  }

  /** The three contracts as deployed, before their addresses are wired. */
  predicate Deployed(digest: Merkle.Digest, p: World, a: Airdrop.Config, l: Lockdrop.Config, b: Auction.Config,
                     now: nat) {
    && p == World(Airdrop.Instantiated(a, now), Lockdrop.Instantiated(l, now), Auction.Instantiated(b, now), p.self)
    && Lockdrop.ValidConfig(l) && l.incentives == 0 && (l.auction.Some? ==> l.auction.value == p.self)
    && Auction.ValidConfig(b) && b.marsRewards == 0
  }

  lemma DeployedSound(digest: Merkle.Digest, p: World, a: Airdrop.Config, l: Lockdrop.Config, b: Auction.Config,
                      now: nat)
    requires Deployed(digest, p, a, l, b, now)
    ensures Sound(digest, p)
  {
    hide Airdrop.Sound, LockdropBook.Sound, AuctionSolvency.Sound;
    Airdrop.InstantiatedSound(digest, a, now);
    LockdropBook.InstantiatedSound(l, now);
    AuctionSolvency.InstantiatedSound(b, now);
    forall u: Addr ensures UserLinked(p, u) {
    }
  }

  /** What users see: deposits are delegations, in total and user by user, and claims wait for the pool. */
  ghost predicate Consistent(p: World) {
    && p.airdrop.state.delegated + p.lockdrop.state.totalMarsDelegated == p.auction.state.totalMars
    && (p.auction.state.lpMinted > 0 <==> p.airdrop.config.claimsEnabled)
    && (p.auction.state.lpMinted > 0 <==> p.lockdrop.state.claimsAllowed)
    && (forall u: Addr :: Delegated(p, u) <= Deposited(p, u))
    && (forall u: Addr :: p.lockdrop.state.finalMaUst == 0 || u in p.lockdrop.users ==>
         Delegated(p, u) == Deposited(p, u))
  }

  lemma SoundIsConsistent(digest: Merkle.Digest, p: World)
    requires Sound(digest, p)
    ensures Consistent(p)
  {
    hide Airdrop.Sound, LockdropBook.Sound, AuctionSolvency.Sound;
    hide Delegated, Deposited;
    forall u: Addr
      ensures Delegated(p, u) <= Deposited(p, u)
      ensures p.lockdrop.state.finalMaUst == 0 || u in p.lockdrop.users ==> Delegated(p, u) == Deposited(p, u)
    {
      assert UserLinked(p, u);
    }
  }

  /**
   After any run: the auction holds as deposits exactly what was delegated to it, in total and for
   every user whose lockdrop record has not been dropped; and the pool exists exactly when claims are open.
   */
  lemma AlwaysConsistent(digest: Merkle.Digest, p: World, a: Airdrop.Config, l: Lockdrop.Config, b: Auction.Config,
                         start: nat,
                         calls: seq<(nat, Operation)>)
    requires Deployed(digest, p, a, l, b, start)
    ensures Sound(digest, p)
    ensures AllowedRun(digest, p, calls) ==> Consistent(Run(digest, p, calls))
  {
    hide Deployed, Sound, Consistent;
    DeployedSound(digest, p, a, l, b, start);
    if AllowedRun(digest, p, calls) {
      SoundIsConsistent(digest, Run(digest, p, calls));
    }
  }
}
