/**
 The airdrop: claims checked against Merkle roots, delegated to the auction until it concludes and
 withdrawn afterwards. Transactions are specified by their effect on a `World`, which also records
 what each user was sent, what the owner took, and the evidence for every claim.
 */
module Airdrop {
  import opened Sums
  import opened Wrappers
  import opened Merkle

  datatype Config = Config(owner: Addr, auction: Option<Addr>, roots: seq<string>, from: nat, to: nat,
                           claimsEnabled: bool)

  datatype State = State(size: nat, delegated: nat, unclaimed: nat)

  datatype User = User(claimed: nat, delegated: nat, withdrawn: bool)

  const NEW_USER := User(0, 0, false)

  type Users = map<Addr, User>

  /** What was presented for a claim that was accepted. */
  datatype Evidence = Evidence(amount: nat, proof: seq<string>, root: string)

  /** `mars` is the MARS received through the token's hook and not sent on. */
  datatype World = World(
    config: Config,
    state: State,
    users: Users,
    mars: nat,
    sent: map<Addr, nat>,
    ownerOut: nat,
    evidence: map<Addr, Evidence>,
    rootsEver: set<string>,
    clock: nat)

  datatype Error =
    | ZeroAmount | NotSet | Unauthorized | AlreadyEnabled | NotStarted | Concluded | UnknownRoot | BadProof
    | AlreadyClaimed | InsufficientMars | UnknownUser | ExceedsClaim | NotEnabled | AlreadyWithdrawn
    | NothingToWithdraw | NotConcluded | ZeroTransfer | DelegationsLive | InvalidWindow | Underflow | Unfunded

  function Lookup(users: Users, user: Addr): User {
    if user in users then users[user] else NEW_USER
  }

  function Instantiated(config: Config, now: nat): World {
    World(config.(auction := None, claimsEnabled := false), State(0, 0, 0), map[], 0, map[], 0, map[],
          (set r | r in config.roots), now)
  }

  // ---------------------------------------------------------------- transactions

  function Increase(w: World, now: nat, amount: nat): Result<World, Error> {
    if amount == 0 then Err(ZeroAmount)
    else Ok(w.(clock := now, mars := w.mars + amount,
               state := w.state.(size := w.state.size + amount, unclaimed := w.state.unclaimed + amount)))
  }

  function EnableClaims(w: World, now: nat, sender: Addr): Result<World, Error> {
    if w.config.auction.None? then Err(NotSet)
    else if sender != w.config.auction.value then Err(Unauthorized)
    else if w.config.claimsEnabled then Err(AlreadyEnabled)
    else Ok(w.(clock := now, config := w.config.(claimsEnabled := true)))
  }

  function Claim(digest: Digest, w: World, now: nat, user: Addr, amount: nat, proof: seq<string>,
                 index: nat): Result<World, Error> {
    var info := Lookup(w.users, user);
    if w.config.from > now then Err(NotStarted)
    else if w.config.to < now then Err(Concluded)
    else if index >= |w.config.roots| then Err(UnknownRoot)
    else if Verified(digest, user, amount, proof, w.config.roots[index]) != Some(true) then Err(BadProof)
    else if info.claimed > 0 then Err(AlreadyClaimed)
    else if w.state.unclaimed < amount then Err(InsufficientMars)
    else if w.config.claimsEnabled && amount == 0 then Err(ZeroTransfer)
    else if w.config.claimsEnabled && w.mars < amount then Err(Unfunded)
    else
      var paid := if w.config.claimsEnabled then amount else 0;
      Ok(w.(clock := now,
            state := w.state.(unclaimed := w.state.unclaimed - amount),
            users := w.users[user := info.(claimed := amount, withdrawn := info.withdrawn || w.config.claimsEnabled)],
            mars := w.mars - paid,
            sent := w.sent[user := Get(w.sent, user) + paid],
            evidence := w.evidence[user := Evidence(amount, proof, w.config.roots[index])]))
  }

  /** Up to the auction's acceptance of the deposit; a cw20 transfer of zero is rejected. */
  function Delegate(w: World, now: nat, user: Addr, amount: nat): Result<World, Error> {
    if w.config.auction.None? then Err(NotSet)
    else if w.config.claimsEnabled then Err(Concluded)
    else if user !in w.users then Err(UnknownUser)
    else
      var info := w.users[user];
      if info.delegated + amount > info.claimed then Err(ExceedsClaim)
      else if amount == 0 then Err(ZeroTransfer)
      else if w.mars < amount then Err(Unfunded)
      else Ok(w.(clock := now,
                 state := w.state.(delegated := w.state.delegated + amount),
                 users := w.users[user := info.(delegated := info.delegated + amount)],
                 mars := w.mars - amount))
  }

  function Withdraw(w: World, now: nat, user: Addr): Result<World, Error> {
    if user !in w.users then Err(UnknownUser)
    else
      var info := w.users[user];
      if !w.config.claimsEnabled then Err(NotEnabled)
      else if info.withdrawn then Err(AlreadyWithdrawn)
      else if info.claimed < info.delegated then Err(Underflow)
      else if info.claimed == info.delegated then Err(NothingToWithdraw)
      else
        var amount := info.claimed - info.delegated;
        if w.mars < amount then Err(Unfunded)
        else Ok(w.(clock := now,
                   users := w.users[user := info.(withdrawn := true)],
                   mars := w.mars - amount,
                   sent := w.sent[user := Get(w.sent, user) + amount]))
  }

  function TransferUnclaimed(w: World, now: nat, sender: Addr, amount: nat): Result<World, Error> {
    if sender != w.config.owner then Err(Unauthorized)
    else if w.config.to > now then Err(NotConcluded)
    else if amount > w.state.unclaimed then Err(InsufficientMars)
    else if amount == 0 then Err(ZeroTransfer)
    else if w.mars < amount then Err(Unfunded)
    else Ok(w.(clock := now,
               state := w.state.(unclaimed := w.state.unclaimed - amount),
               mars := w.mars - amount,
               ownerOut := w.ownerOut + amount))
  }

  datatype Update = Update(owner: Option<Addr>, auction: Option<Addr>, roots: Option<seq<string>>, from: Option<nat>,
                           to: Option<nat>)

  function UpdateConfig(w: World, now: nat, sender: Addr, update: Update): Result<World, Error> {
    var started := now >= w.config.from;
    // the second check reads the window start as just changed
    var from := update.from.GetOr(w.config.from);
    var to := update.to.GetOr(w.config.to);
    if sender != w.config.owner then Err(Unauthorized)
    else if update.auction.Some? && w.config.auction.Some? && w.state.delegated > 0 then Err(DelegationsLive)
    else if update.from.Some? && started then Err(InvalidWindow)
    else if update.to.Some? && now >= from && to < w.config.to then Err(InvalidWindow)
    else if to <= from then Err(InvalidWindow)
    else Ok(w.(clock := now,
               config := w.config.(owner := update.owner.GetOr(w.config.owner),
                                   auction := if update.auction.Some? then update.auction else w.config.auction,
                                   roots := update.roots.GetOr(w.config.roots), from := from, to := to),
               rootsEver := w.rootsEver + set r | r in update.roots.GetOr([])))
  }

  datatype Operation =
    | OpIncrease(amount: nat)
    | OpEnableClaims(sender: Addr)
    | OpClaim(user: Addr, amount: nat, proof: seq<string>, index: nat)
    | OpDelegate(user: Addr, amount: nat)
    | OpWithdraw(user: Addr)
    | OpTransferUnclaimed(sender: Addr, amount: nat)
    | OpUpdateConfig(sender: Addr, update: Update)

  function Attempt(digest: Digest, w: World, now: nat, op: Operation): Result<World, Error> {
    match op
    case OpIncrease(amount) => Increase(w, now, amount)
    case OpEnableClaims(sender) => EnableClaims(w, now, sender)
    case OpClaim(user, amount, proof, index) => Claim(digest, w, now, user, amount, proof, index)
    case OpDelegate(user, amount) => Delegate(w, now, user, amount)
    case OpWithdraw(user) => Withdraw(w, now, user)
    case OpTransferUnclaimed(sender, amount) => TransferUnclaimed(w, now, sender, amount)
    case OpUpdateConfig(sender, update) => UpdateConfig(w, now, sender, update)
  }

  function Step(digest: Digest, w: World, now: nat, op: Operation): World {
    match Attempt(digest, w, now, op)
    case Ok(r) => r
    case Err(_) => w.(clock := now)
  }

  // ---------------------------------------------------------------- the books

  function ClaimedOf(users: Users): map<Addr, nat> {
    map u | u in users :: users[u].claimed
  }

  function DelegatedOf(users: Users): map<Addr, nat> {
    map u | u in users :: users[u].delegated
  }

  /** What a user may still withdraw. */
  function Pending(info: User): nat {
    if info.withdrawn || info.claimed < info.delegated then 0 else info.claimed - info.delegated
  }

  function PendingOf(users: Users): map<Addr, nat> {
    map u | u in users :: Pending(users[u])
  }

  /** A user is sent its undelegated claim once, after claims are enabled. */
  predicate UserOk(config: Config, info: User, sent: nat) {
    && info.delegated <= info.claimed
    && (info.withdrawn ==> config.claimsEnabled)
    && sent == (if info.withdrawn then info.claimed - info.delegated else 0)
  }

  /** The claim was accepted against a root the owner had set. */
  predicate Proven(digest: Digest, w: World, user: Addr, amount: nat) {
    && user in w.evidence && w.evidence[user].amount == amount && w.evidence[user].root in w.rootsEver
    && Verified(digest, user, amount, w.evidence[user].proof, w.evidence[user].root) == Some(true)
  }

  predicate Kept(digest: Digest, w: World, user: Addr, info: User) {
    UserOk(w.config, info, Get(w.sent, user)) && (info.claimed > 0 ==> Proven(digest, w, user, info.claimed))
  }

  /** The MARS held is what is unclaimed and what users may still withdraw. */
  ghost predicate Held(w: World) {
    w.mars == w.state.unclaimed + Sum(PendingOf(w.users))
  }

  /** Everything put in is unclaimed, claimed or taken by the owner. */
  ghost predicate Sized(w: World) {
    w.state.size == w.state.unclaimed + Sum(ClaimedOf(w.users)) + w.ownerOut
  }

  /** The total delegated is the sum over users. */
  ghost predicate Summed(w: World) {
    w.state.delegated == Sum(DelegatedOf(w.users))
  }

  ghost predicate Sound(digest: Digest, w: World) {
    && (forall u :: u in w.users ==> Kept(digest, w, u, w.users[u]))
    && w.sent.Keys <= w.users.Keys
    && (forall r :: r in w.config.roots ==> r in w.rootsEver)
    && Held(w) && Sized(w) && Summed(w)
    && (w.config.auction.None? ==> w.state.delegated == 0)
  }

  lemma InstantiatedSound(digest: Digest, config: Config, now: nat)
    ensures Sound(digest, Instantiated(config, now))
  {
  }

  lemma PendingWithin(users: Users, user: Addr)
    ensures Pending(Lookup(users, user)) <= Sum(PendingOf(users))
  {
    SumContains(PendingOf(users), user);
  }

  /** Changing one user's record keeps the books if the totals move with it. */
  lemma RecordSound(digest: Digest, w: World, r: World, user: Addr)
    requires Sound(digest, w) && user in r.users && r.users == w.users[user := r.users[user]]
    requires r.config == w.config && r.rootsEver == w.rootsEver
    requires r.ownerOut == w.ownerOut && r.state.size == w.state.size
    requires forall u :: u != user ==> Get(r.sent, u) == Get(w.sent, u)
    requires forall u :: u in w.evidence && u != user ==> u in r.evidence && r.evidence[u] == w.evidence[u]
    requires r.sent.Keys <= w.sent.Keys + {user}
    requires Kept(digest, r, user, r.users[user])
    requires r.mars + w.state.unclaimed + Pending(Lookup(w.users, user))
         == w.mars + r.state.unclaimed + Pending(r.users[user])
    requires r.state.unclaimed + r.users[user].claimed == w.state.unclaimed + Lookup(w.users, user).claimed
    requires r.state.delegated + Lookup(w.users, user).delegated == w.state.delegated + r.users[user].delegated
    requires r.config.auction.None? ==> r.state.delegated == w.state.delegated
    ensures Sound(digest, r)
  {
    OthersKept(digest, w, r, user);
    hide Kept, Pending, UserOk;
    RecordHeld(w, r, user);
    RecordSized(w, r, user);
    RecordSummed(w, r, user);
    hide Held, Sized, Summed;
  }

  lemma RecordHeld(w: World, r: World, user: Addr)
    requires Held(w) && user in r.users && r.users == w.users[user := r.users[user]]
    requires r.mars + w.state.unclaimed + Pending(Lookup(w.users, user))
         == w.mars + r.state.unclaimed + Pending(r.users[user])
    ensures Held(r)
  {
    assert PendingOf(r.users) == PendingOf(w.users)[user := Pending(r.users[user])];
    hide Pending;
    SumUpdate(PendingOf(w.users), user, Pending(r.users[user]));
  }

  lemma RecordSized(w: World, r: World, user: Addr)
    requires Sized(w) && user in r.users && r.users == w.users[user := r.users[user]]
    requires r.ownerOut == w.ownerOut && r.state.size == w.state.size
    requires r.state.unclaimed + r.users[user].claimed == w.state.unclaimed + Lookup(w.users, user).claimed
    ensures Sized(r)
  {
    assert ClaimedOf(r.users) == ClaimedOf(w.users)[user := r.users[user].claimed];
    SumUpdate(ClaimedOf(w.users), user, r.users[user].claimed);
  }

  lemma RecordSummed(w: World, r: World, user: Addr)
    requires Summed(w) && user in r.users && r.users == w.users[user := r.users[user]]
    requires r.state.delegated + Lookup(w.users, user).delegated == w.state.delegated + r.users[user].delegated
    ensures Summed(r)
  {
    assert DelegatedOf(r.users) == DelegatedOf(w.users)[user := r.users[user].delegated];
    SumUpdate(DelegatedOf(w.users), user, r.users[user].delegated);
  }

  lemma OthersKept(digest: Digest, w: World, r: World, user: Addr)
    requires Sound(digest, w) && user in r.users && r.users == w.users[user := r.users[user]]
    requires r.config == w.config && r.rootsEver == w.rootsEver
    requires forall u :: u != user ==> Get(r.sent, u) == Get(w.sent, u)
    requires forall u :: u in w.evidence && u != user ==> u in r.evidence && r.evidence[u] == w.evidence[u]
    requires Kept(digest, r, user, r.users[user])
    ensures forall u :: u in r.users ==> Kept(digest, r, u, r.users[u])
  {
  }

  lemma RecordOk(digest: Digest, w: World, user: Addr)
    requires Sound(digest, w)
    ensures UserOk(w.config, Lookup(w.users, user), Get(w.sent, user))
    ensures Lookup(w.users, user).claimed > 0 ==> Proven(digest, w, user, Lookup(w.users, user).claimed)
    ensures Pending(Lookup(w.users, user)) + w.state.unclaimed <= w.mars
  {
    PendingWithin(w.users, user);
    assert user in w.users ==> Kept(digest, w, user, w.users[user]);
  }

  lemma ClaimSound(digest: Digest, w: World, now: nat, user: Addr, amount: nat, proof: seq<string>, index: nat)
    requires Sound(digest, w)
    ensures var r := Claim(digest, w, now, user, amount, proof, index);
            r != Err(Unfunded) && r != Err(Underflow) && (r.Ok? ==> Sound(digest, r.value))
  {
    hide Sound, Verified;
    RecordOk(digest, w, user);
    RootsKnown(digest, w);
    var r := Claim(digest, w, now, user, amount, proof, index);
    if r.Ok? {
      assert w.config.roots[index] in w.config.roots;
      RecordSound(digest, w, r.value, user);
    }
  }

  lemma DelegateSound(digest: Digest, w: World, now: nat, user: Addr, amount: nat)
    requires Sound(digest, w)
    ensures var r := Delegate(w, now, user, amount);
            r != Err(Unfunded) && r != Err(Underflow) && (r.Ok? ==> Sound(digest, r.value))
  {
    hide Sound, Verified;
    RecordOk(digest, w, user);
    var r := Delegate(w, now, user, amount);
    if r.Ok? {
      RecordSound(digest, w, r.value, user);
    }
  }

  lemma WithdrawSound(digest: Digest, w: World, now: nat, user: Addr)
    requires Sound(digest, w)
    ensures var r := Withdraw(w, now, user);
            r != Err(Unfunded) && r != Err(Underflow) && (r.Ok? ==> Sound(digest, r.value))
  {
    hide Sound, Verified;
    RecordOk(digest, w, user);
    var r := Withdraw(w, now, user);
    if r.Ok? {
      RecordSound(digest, w, r.value, user);
    }
  }

  /** Transactions that touch no user's record. */
  lemma TotalsSound(digest: Digest, w: World, r: World)
    requires Sound(digest, w) && r.users == w.users && r.sent == w.sent && r.evidence == w.evidence
    requires w.rootsEver <= r.rootsEver && (forall u :: u in r.config.roots ==> u in r.rootsEver)
    requires w.config.claimsEnabled ==> r.config.claimsEnabled
    requires w.config.auction.Some? ==> r.config.auction.Some?
    requires r.mars + w.state.unclaimed == w.mars + r.state.unclaimed && r.state.delegated == w.state.delegated
    requires r.state.size + w.state.unclaimed + w.ownerOut == w.state.size + r.state.unclaimed + r.ownerOut
    ensures Sound(digest, r)
  {
  }

  lemma RootsKnown(digest: Digest, w: World)
    requires Sound(digest, w)
    ensures forall r :: r in w.config.roots ==> r in w.rootsEver
    ensures w.state.unclaimed <= w.mars
  {
  }

  /** Every transaction keeps the books exactly, and none fails for lack of MARS. */
  lemma StepSound(digest: Digest, w: World, now: nat, op: Operation)
    requires Sound(digest, w)
    ensures Sound(digest, Step(digest, w, now, op))
    ensures Attempt(digest, w, now, op) != Err(Underflow) && Attempt(digest, w, now, op) != Err(Unfunded)
  {
    hide Sound, Claim, Delegate, Withdraw;
    RootsKnown(digest, w);
    TotalsSound(digest, w, w.(clock := now));
    match op {
      case OpClaim(user, amount, proof, index) => ClaimSound(digest, w, now, user, amount, proof, index);
      case OpDelegate(user, amount) => DelegateSound(digest, w, now, user, amount);
      case OpWithdraw(user) => WithdrawSound(digest, w, now, user);
      case _ => TotalsSound(digest, w, Step(digest, w, now, op));
    }
  }

  ghost function Run(digest: Digest, w: World, calls: seq<(nat, Operation)>): World
    decreases |calls|
  {
    if calls == [] then w else Run(digest, Step(digest, w, calls[0].0, calls[0].1), calls[1..])
  }

  lemma {:induction false} RunSound(digest: Digest, w: World, calls: seq<(nat, Operation)>)
    requires Sound(digest, w)
    ensures Sound(digest, Run(digest, w, calls))
    decreases |calls|
  {
    hide Sound, Step;
    if calls != [] {
      StepSound(digest, w, calls[0].0, calls[0].1);
      RunSound(digest, Step(digest, w, calls[0].0, calls[0].1), calls[1..]);
    }
  }

  // ---------------------------------------------------------------- results

  /**
   In every reachable state the MARS held is what is unclaimed plus what users may still withdraw;
   everything ever put in is unclaimed, claimed or taken by the owner, and equally is held, sent to
   users, delegated or taken by the owner.
   */
  lemma AlwaysConserved(digest: Digest, config: Config, start: nat, calls: seq<(nat, Operation)>)
    ensures var w := Run(digest, Instantiated(config, start), calls);
            && w.mars == w.state.unclaimed + Sum(PendingOf(w.users))
            && w.state.size == w.state.unclaimed + Sum(ClaimedOf(w.users)) + w.ownerOut
            && w.state.size == w.mars + Sum(w.sent) + w.state.delegated + w.ownerOut
            && (forall u :: u in w.users ==> Get(w.sent, u) + w.users[u].delegated <= w.users[u].claimed)
  {
    InstantiatedSound(digest, config, start);
    RunSound(digest, Instantiated(config, start), calls);
    SentIsClaimed(digest, Run(digest, Instantiated(config, start), calls));
  }

  function SentOf(users: Users, sent: map<Addr, nat>): map<Addr, nat> {
    map u | u in users :: Get(sent, u)
  }

  function PaidOf(users: Users, sent: map<Addr, nat>): map<Addr, nat> {
    map u | u in users :: Get(sent, u) + Pending(users[u])
  }

  /** What was claimed is what was sent, is pending, or was delegated. */
  lemma SentIsClaimed(digest: Digest, w: World)
    requires Sound(digest, w)
    ensures Sum(w.sent) + Sum(PendingOf(w.users)) + Sum(DelegatedOf(w.users)) == Sum(ClaimedOf(w.users))
  {
    hide Proven;
    var sent, paid := SentOf(w.users, w.sent), PaidOf(w.users, w.sent);
    SumAdd(sent, PendingOf(w.users), paid);
    forall u | u in w.users ensures ClaimedOf(w.users)[u] == paid[u] + DelegatedOf(w.users)[u] {
      assert Kept(digest, w, u, w.users[u]);
    }
    SumAdd(paid, DelegatedOf(w.users), ClaimedOf(w.users));
    SumMonotone(w.sent, sent);
    SumMonotone(sent, w.sent);
  }

  /** A claim is final: nothing changes its amount once it is made. */
  lemma {:induction false} ClaimIsFinal(digest: Digest, w: World, calls: seq<(nat, Operation)>, user: Addr)
    requires Lookup(w.users, user).claimed > 0
    ensures Lookup(Run(digest, w, calls).users, user).claimed == Lookup(w.users, user).claimed
    decreases |calls|
  {
    hide Verified;
    if calls != [] {
      ClaimIsFinal(digest, Step(digest, w, calls[0].0, calls[0].1), calls[1..], user);
    }
  }

  /** Everything hashed in building a tree and in checking the evidence of a claim against it. */
  function Hashed(digest: Digest, t: Tree, user: Addr, e: Evidence): set<seq<Byte>> {
    TreeInputs(digest, t) + FoldInputs(digest, LeafText(user, e.amount), DecodeProof(e.proof).GetOr([]))
  }

  /**
   In every reachable state a user's claim is a leaf of the tree behind one of the roots the owner
   has set, as long as the inputs hashed do not collide and no leaf has the length of two hashes.
   */
  lemma ClaimsAreLeaves(digest: Digest, config: Config, start: nat, calls: seq<(nat, Operation)>,
                        trees: map<string, Tree>, user: Addr)
    requires var w := Run(digest, Instantiated(config, start), calls);
             && (forall r :: r in w.rootsEver ==>
                  r in trees && r == HexEncode(Root(digest, trees[r])) && LeavesAreNotPairs(trees[r]))
             && Lookup(w.users, user).claimed > 0
             && |LeafText(user, Lookup(w.users, user).claimed)| != 2 * HASH_LENGTH
             && (user in w.evidence && w.evidence[user].root in trees ==>
                   CollisionFree(digest, Hashed(digest, trees[w.evidence[user].root], user, w.evidence[user])))
    ensures var w := Run(digest, Instantiated(config, start), calls);
            exists r :: r in w.rootsEver && LeafText(user, Lookup(w.users, user).claimed) in Leaves(trees[r])
  {
    hide CollisionFree, LeavesAreNotPairs, UserOk;
    InstantiatedSound(digest, config, start);
    RunSound(digest, Instantiated(config, start), calls);
    var w := Run(digest, Instantiated(config, start), calls);
    var e := w.evidence[user];
    AcceptedIsLeaf(digest, trees[e.root], user, e.amount, e.proof);
    assert e.root in w.rootsEver && LeafText(user, e.amount) in Leaves(trees[e.root]);
  }

  /** Whoever is in the tree behind a current root, and has not claimed, can claim while MARS lasts. */
  lemma LeafCanClaim(digest: Digest, w: World, now: nat, user: Addr, amount: nat, index: nat, t: Tree, path: seq<bool>)
    requires Sound(digest, w)
    requires w.config.from <= now <= w.config.to && index < |w.config.roots|
    requires w.config.roots[index] == HexEncode(Root(digest, t))
    requires Reaches(t, path, LeafText(user, amount))
    requires Lookup(w.users, user).claimed == 0 && 0 < amount <= w.state.unclaimed
    ensures var r := Claim(digest, w, now, user, amount, Encoded(Siblings(digest, t, path)), index);
            r.Ok? && Lookup(r.value.users, user).claimed == amount
  {
    hide Verified, Proven;
    EveryLeafAccepted(digest, t, path, user, amount);
  }
}
