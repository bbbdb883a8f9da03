/**
 The lockdrop. Users lock UST in positions, one per lockup duration; MARS is shared by weight and
 the maUST minted by the Red Bank by amount. Transactions are specified by their effect on a
 `World`: the storage, the tokens held, and a record of every MARS and maUST amount sent for a user.
 */
module Lockdrop {
  import opened Decimals
  import opened Sums
  import opened Wrappers

  /** A position is identified by its owner and its duration. */
  datatype LockupId = LockupId(owner: Addr, duration: nat)

  datatype Boost = Boost(duration: nat, boost: nat)

  datatype Config = Config(
    owner: Addr,
    auction: Option<Addr>,
    providerSet: bool,
    maUstSet: bool,
    init: nat,
    depositWindow: nat,
    withdrawalWindow: nat,
    boosts: seq<Boost>,
    incentives: nat)

  datatype State = State(
    finalUst: nat,
    finalMaUst: nat,
    totalUst: nat,
    totalMaUst: nat,
    totalMarsDelegated: nat,
    claimsAllowed: bool,
    totalWeight: nat,
    xmarsIndex: Decimal)

  datatype User = User(
    totalUst: nat,
    maUstShare: nat,
    positions: seq<LockupId>,
    incentives: nat,
    delegated: nat,
    claimed: bool,
    rewardIndex: Decimal,
    xmarsClaimed: nat)

  const NEW_USER := User(0, 0, [], 0, 0, false, 0, 0)

  datatype Lockup = Lockup(duration: nat, ust: nat, reward: nat, withdrawn: bool)

  const NEW_LOCKUP := Lockup(0, 0, 0, false)

  type Users = map<Addr, User>
  type Lockups = map<LockupId, Lockup>

  datatype Ledger = Ledger(ust: nat, maUst: nat, mars: nat, xmars: nat)

  datatype World = World(
    config: Config,
    state: State,
    users: Users,
    lockups: Lockups,
    ledger: Ledger,
    marsOut: map<Addr, nat>,
    maUstPaid: map<Addr, nat>,
    xmarsPaid: map<Addr, nat>,
    xmarsReceived: nat,
    clock: nat)

  datatype Error =
    | ZeroAmount | WindowClosed | WindowOpen | UnknownDuration | NoLockup | ExceedsLimit | AlreadyWithdrawn
    | NotSet | Unauthorized | AlreadyAllowed | AlreadyDeposited | NothingMinted | NoPositions | NotAllowed
    | ZeroTransfer | AlreadyDistributed | Underflow | Unfunded | XMarsUnfunded

  /** What `instantiate` checks, and that no duration is 0, the value that marks a new position. */
  predicate ValidConfig(config: Config) {
    && config.depositWindow > config.withdrawalWindow > 0
    && (forall b :: b in config.boosts ==> b.duration != 0)
  }

  function Lookup(users: Users, user: Addr): User {
    if user in users then users[user] else NEW_USER
  }

  function LockupOf(lockups: Lockups, id: LockupId): Lockup {
    if id in lockups then lockups[id] else NEW_LOCKUP
  }

  // ---------------------------------------------------------------- windows and limits

  function DepositEnd(config: Config): nat { config.init + config.depositWindow }

  function WithdrawEnd(config: Config): nat { config.init + config.depositWindow + config.withdrawalWindow }

  predicate IsDepositOpen(config: Config, now: nat) { config.init <= now <= DepositEnd(config) }

  predicate IsWithdrawOpen(config: Config, now: nat) { config.init <= now <= WithdrawEnd(config) }

  function AllowedWithdrawalPercent(config: Config, now: nat): Decimal {
    var cutoff := DepositEnd(config);
    var second := cutoff + config.withdrawalWindow / 2;
    var final := cutoff + config.withdrawalWindow;
    if now < cutoff then FromRatio(100, 100)
    else if now <= second then FromRatio(50, 100)
    else if now < final then FromRatio(50 * (final - now), 100 * (final - second))
    else FromRatio(0, 100)
  }

  // ---------------------------------------------------------------- shares and weights

  /** The boost of the first option with this duration. */
  function BoostFor(boosts: seq<Boost>, duration: nat): Option<nat> {
    if boosts == [] then None
    else if boosts[0].duration == duration then Some(boosts[0].boost)
    else BoostFor(boosts[1..], duration)
  }

  /** `boosts[i]` is the first option with this duration. */
  predicate FirstOption(boosts: seq<Boost>, i: nat, duration: nat) {
    && i < |boosts| && boosts[i].duration == duration
    && forall j :: 0 <= j < i ==> boosts[j].duration != duration
  }

  /** `calculate_weight`, for a duration that has a boost. */
  function Weight(config: Config, duration: nat, amount: nat): nat {
    amount * BoostFor(config.boosts, duration).GetOr(0)
  }

  /** `calculate_ma_ust_share`. */
  function MaUstShare(state: State, ust: nat): nat {
    if state.finalUst == 0 then 0 else Mul(state.finalMaUst, FromRatio(ust, state.finalUst))
  }

  /** `calculate_mars_incentives_for_lockup`. */
  function Reward(config: Config, totalWeight: nat, weight: nat): nat {
    if totalWeight == 0 then 0 else Mul(config.incentives, FromRatio(weight, totalWeight))
  }

  function Locked(lockups: Lockups): map<LockupId, nat> {
    map id | id in lockups :: lockups[id].ust
  }

  function Weights(config: Config, lockups: Lockups): map<LockupId, nat> {
    map id | id in lockups :: Weight(config, lockups[id].duration, lockups[id].ust)
  }

  function Shares(state: State, lockups: Lockups): map<LockupId, nat> {
    map id | id in lockups :: MaUstShare(state, lockups[id].ust)
  }

  function Rewards(config: Config, totalWeight: nat, lockups: Lockups): map<LockupId, nat> {
    map id | id in lockups :: Reward(config, totalWeight, Weight(config, lockups[id].duration, lockups[id].ust))
  }

  /** Stores the reward of every position in `ids`. */
  function Rewarded(config: Config, totalWeight: nat, lockups: Lockups, ids: seq<LockupId>): Lockups {
    map id | id in lockups ::
      if id in ids then lockups[id].(reward := Reward(config, totalWeight,
                                                      Weight(config, lockups[id].duration, lockups[id].ust)))
      else lockups[id]
  }

  function IndexOf(ids: seq<LockupId>, id: LockupId): (i: nat)
    ensures i <= |ids| && (i < |ids| ==> ids[i] == id)
    ensures i < |ids| <==> id in ids
  {
    if ids == [] then 0 else if ids[0] == id then 0 else 1 + IndexOf(ids[1..], id)
  }

  /** `remove_lockup_pos_from_user_info`, for a position in the list. */
  function Without(ids: seq<LockupId>, id: LockupId): seq<LockupId>
    requires id in ids
  {
    var i := IndexOf(ids, id);
    ids[..i] + ids[i + 1..]
  }

  // ---------------------------------------------------------------- transactions

  /** Records an amount sent to `user`; a message is only sent for a positive amount. */
  function Credit(paid: map<Addr, nat>, user: Addr, amount: nat): map<Addr, nat> {
    if amount == 0 then paid else paid[user := Get(paid, user) + amount]
  }

  function Instantiated(config: Config, now: nat): World {
    World(config, State(0, 0, 0, 0, 0, false, 0, 0), map[], map[], Ledger(0, 0, 0, 0), map[], map[], map[], 0, now)
  }

  function DepositUst(w: World, now: nat, user: Addr, duration: nat, amount: nat): Result<World, Error> {
    if !IsDepositOpen(w.config, now) then Err(WindowClosed)
    else if amount == 0 then Err(ZeroAmount)
    else if BoostFor(w.config.boosts, duration).None? then Err(UnknownDuration)
    else
      var id := LockupId(user, duration);
      var lockup := LockupOf(w.lockups, id);
      var info := Lookup(w.users, user);
      var positions := if lockup.duration == 0 then info.positions + [id] else info.positions;
      Ok(w.(clock := now,
            lockups := w.lockups[id := lockup.(duration := if lockup.duration == 0 then duration else lockup.duration,
                                               ust := lockup.ust + amount)],
            users := w.users[user := info.(totalUst := info.totalUst + amount, positions := positions)],
            state := w.state.(totalUst := w.state.totalUst + amount,
                              totalWeight := w.state.totalWeight + Weight(w.config, duration, amount)),
            ledger := w.ledger.(ust := w.ledger.ust + amount)))
  }

  function WithdrawUst(w: World, now: nat, user: Addr, duration: nat, amount: nat): Result<World, Error> {
    var id := LockupId(user, duration);
    var lockup := LockupOf(w.lockups, id);
    var info := Lookup(w.users, user);
    var late := now >= DepositEnd(w.config);
    if !IsWithdrawOpen(w.config, now) then Err(WindowClosed)
    else if lockup.ust == 0 then Err(NoLockup)
    else if amount > Mul(lockup.ust, AllowedWithdrawalPercent(w.config, now)) then Err(ExceedsLimit)
    else if late && lockup.withdrawn then Err(AlreadyWithdrawn)
    else if amount > lockup.ust || amount > info.totalUst || amount > w.state.totalUst
            || Weight(w.config, duration, amount) > w.state.totalWeight then Err(Underflow)
    else if amount == lockup.ust && id !in info.positions then Err(NoLockup)
    else if amount > w.ledger.ust then Err(Unfunded)
    else
      Ok(w.(clock := now,
            lockups := if amount == lockup.ust then w.lockups - {id}
                       else w.lockups[id := lockup.(ust := lockup.ust - amount, withdrawn := lockup.withdrawn || late)],
            users := w.users[user := info.(totalUst := info.totalUst - amount,
                                           positions := if amount == lockup.ust then Without(info.positions, id)
                                                        else info.positions)],
            state := w.state.(totalUst := w.state.totalUst - amount,
                              totalWeight := w.state.totalWeight - Weight(w.config, duration, amount)),
            ledger := w.ledger.(ust := w.ledger.ust - amount)))
  }

  function IncreaseIncentives(w: World, now: nat, amount: nat): Result<World, Error> {
    if amount == 0 then Err(ZeroAmount)
    else if !w.config.providerSet then Err(NotSet)
    else if now >= WithdrawEnd(w.config) then Err(AlreadyDistributed)
    else Ok(w.(clock := now,
               config := w.config.(incentives := w.config.incentives + amount),
               ledger := w.ledger.(mars := w.ledger.mars + amount)))
  }

  function EnableClaims(w: World, now: nat, sender: Addr): Result<World, Error> {
    if w.config.auction.None? then Err(NotSet)
    else if sender != w.config.auction.value then Err(Unauthorized)
    else if IsWithdrawOpen(w.config, now) then Err(WindowOpen)
    else if w.state.claimsAllowed then Err(AlreadyAllowed)
    else Ok(w.(clock := now, state := w.state.(claimsAllowed := true)))
  }

  /** All UST goes to the Red Bank, which mints `minted` maUST; it never mints nothing. */
  function DepositInRedBank(w: World, now: nat, sender: Addr, minted: nat): Result<World, Error> {
    if sender != w.config.owner then Err(Unauthorized)
    else if !w.config.providerSet || !w.config.maUstSet then Err(NotSet)
    else if now < w.config.init || IsWithdrawOpen(w.config, now) then Err(WindowOpen)
    else if w.state.finalMaUst > 0 then Err(AlreadyDeposited)
    else if w.ledger.ust < w.state.totalUst then Err(Unfunded)
    else if minted == 0 || w.state.totalUst == 0 then Err(NothingMinted)
    else Ok(w.(clock := now,
               state := w.state.(finalUst := w.state.totalUst, finalMaUst := minted, totalUst := 0,
                                 totalMaUst := minted),
               ledger := w.ledger.(ust := w.ledger.ust - w.state.totalUst, maUst := w.ledger.maUst + minted)))
  }

  /** The lazy calculation of a user's maUST share and MARS incentives. */
  function Materialised(w: World, user: Addr): World {
    var info := Lookup(w.users, user);
    w.(users := w.users[user := info.(
         maUstShare := if info.maUstShare == 0 then MaUstShare(w.state, info.totalUst) else info.maUstShare,
         incentives := if info.incentives == 0
                       then SumSeq(info.positions, Rewards(w.config, w.state.totalWeight, w.lockups))
                       else info.incentives)],
       lockups := if info.incentives == 0
                  then Rewarded(w.config, w.state.totalWeight, w.lockups, info.positions)
                  else w.lockups)
  }

  function DelegateMars(w: World, now: nat, user: Addr, amount: nat): Result<World, Error> {
    if now < WithdrawEnd(w.config) then Err(WindowOpen)
    else if w.state.claimsAllowed then Err(NotAllowed)
    else if !w.config.providerSet || w.config.auction.None? then Err(NotSet)
    else if Lookup(w.users, user).positions == [] then Err(NoPositions)
    else
      var m := Materialised(w, user);
      var info := m.users[user];
      if info.incentives < info.delegated then Err(Underflow)
      else if amount > info.incentives - info.delegated then Err(ExceedsLimit)
      else if amount == 0 then Err(ZeroTransfer)
      else if w.ledger.mars < amount then Err(Unfunded)
      else Ok(m.(clock := now,
                 users := m.users[user := info.(delegated := info.delegated + amount)],
                 state := m.state.(totalMarsDelegated := m.state.totalMarsDelegated + amount),
                 ledger := m.ledger.(mars := m.ledger.mars - amount),
                 marsOut := m.marsOut[user := Get(m.marsOut, user) + amount]))
  }

  /** `update_xmars_rewards_index`: while no maUST is locked nothing is shared out. */
  function IndexAfter(state: State, accrued: nat): Decimal {
    if accrued == 0 || state.totalMaUst == 0 then state.xmarsIndex
    else state.xmarsIndex + FromRatio(accrued, state.totalMaUst)
  }

  /** The xMARS a record is due at `index`, as `compute_user_accrued_reward` calculates it; negative is an underflow. */
  function XMarsDue(state: State, info: User, index: Decimal): int {
    if state.finalUst == 0 then 0 else Mul(info.maUstShare, index) - Mul(info.maUstShare, info.rewardIndex)
  }

  /** The xMARS part of `update_state_on_claim`: `accrued` comes in, and what the user is due is sent. */
  function PayXMars(w: World, user: Addr, accrued: nat): Result<World, Error>
    requires user in w.users
  {
    var info, index := w.users[user], IndexAfter(w.state, accrued);
    var due := XMarsDue(w.state, info, index);
    if due < 0 then Err(Underflow)
    else if w.ledger.xmars + accrued < due then Err(XMarsUnfunded)
    else
      Ok(w.(state := w.state.(xmarsIndex := index),
            users := w.users[user := info.(rewardIndex := if w.state.finalUst == 0 then info.rewardIndex else index,
                                           xmarsClaimed := info.xmarsClaimed + due)],
            ledger := w.ledger.(xmars := w.ledger.xmars + accrued - due),
            xmarsPaid := Credit(w.xmarsPaid, user, due),
            xmarsReceived := w.xmarsReceived + accrued))
  }

  /** The MARS part of `update_state_on_claim`: the undelegated incentives are sent once. */
  function PayMars(w: World, user: Addr): Result<World, Error>
    requires user in w.users
  {
    var info := w.users[user];
    if info.incentives < info.delegated then Err(Underflow)
    else
      var amount := info.incentives - info.delegated;
      if info.claimed || amount == 0 then Ok(w)
      else if w.ledger.mars < amount then Err(Unfunded)
      else Ok(w.(users := w.users[user := info.(claimed := true)],
                 ledger := w.ledger.(mars := w.ledger.mars - amount),
                 marsOut := w.marsOut[user := Get(w.marsOut, user) + amount]))
  }

  /** `try_dissolve_position`; maUST is a cw20 token, so a transfer of zero is rejected. */
  function Dissolve(w: World, user: Addr, duration: nat): Result<World, Error> {
    var id := LockupId(user, duration);
    var info := Lookup(w.users, user);
    var amount := MaUstShare(w.state, LockupOf(w.lockups, id).ust);
    if w.state.totalMaUst < amount || info.maUstShare < amount then Err(Underflow)
    else if id !in info.positions then Err(NoLockup)
    else if amount == 0 then Err(ZeroTransfer)
    else if w.ledger.maUst < amount then Err(Unfunded)
    else Ok(w.(state := w.state.(totalMaUst := w.state.totalMaUst - amount),
               users := w.users[user := info.(maUstShare := info.maUstShare - amount,
                                              positions := Without(info.positions, id))],
               lockups := w.lockups - {id},
               ledger := w.ledger.(maUst := w.ledger.maUst - amount),
               maUstPaid := Credit(w.maUstPaid, user, amount)))
  }

  /** The callbacks of a claim, in order: xMARS, MARS, and the position to dissolve, if any. */
  function Callbacks(w: World, user: Addr, accrued: nat, unlock: Option<nat>): Result<World, Error>
    requires user in w.users
  {
    match PayXMars(w, user, accrued)
    case Err(e) => Err(e)
    case Ok(rewarded) =>
      match PayMars(rewarded, user)
      case Err(e) => Err(e)
      case Ok(paid) =>
        match unlock
        case None => Ok(paid)
        case Some(duration) => if !paid.config.maUstSet then Err(NotSet) else Dissolve(paid, user, duration)
  }

  /** `ClaimRewardsAndUnlock`; `accrued` is the xMARS that the incentives contract hands over. */
  function Claim(w: World, now: nat, user: Addr, unlock: Option<nat>, accrued: nat): Result<World, Error> {
    if !w.config.providerSet then Err(NotSet)
    else if unlock.Some? && LockupOf(w.lockups, LockupId(user, unlock.value)).ust == 0 then Err(NoLockup)
    else if Lookup(w.users, user).totalUst == 0 then Err(NoPositions)
    else if !w.state.claimsAllowed then Err(NotAllowed)
    else
      match Callbacks(Materialised(w, user), user, accrued, unlock)
      case Err(e) => Err(e)
      case Ok(r) => Ok(r.(clock := now))
  }

  /** The owner wires addresses; none can be unset. */
  function UpdateConfig(w: World, now: nat, sender: Addr, owner: Option<Addr>, auction: Option<Addr>,
                        setProvider: bool, setMaUst: bool): Result<World, Error> {
    if sender != w.config.owner then Err(Unauthorized)
    else Ok(w.(clock := now,
               config := w.config.(owner := owner.GetOr(w.config.owner),
                                   auction := if auction.Some? then auction else w.config.auction,
                                   providerSet := w.config.providerSet || setProvider,
                                   maUstSet := w.config.maUstSet || setMaUst)))
  }

  // ---------------------------------------------------------------- unwinding in batches

  /** One user of `handle_nuke_lockdrop`: all its positions at once. */
  function NukeUser(w: World, user: Addr): Result<World, Error> {
    var info := Lookup(w.users, user);
    if info.totalUst == 0 then Ok(w.(users := w.users - {user}))
    else
      var amount := SumSeq(info.positions, Shares(w.state, w.lockups));
      var unlocked := SumSeq(info.positions, Locked(w.lockups));
      if w.state.totalMaUst < amount || info.totalUst < unlocked || info.maUstShare < amount then Err(Underflow)
      else if w.ledger.maUst < amount then Err(Unfunded)
      else
        var after := info.(totalUst := info.totalUst - unlocked, maUstShare := info.maUstShare - amount,
                           positions := []);
        Ok(w.(state := w.state.(totalMaUst := w.state.totalMaUst - amount),
              lockups := w.lockups - (set id | id in info.positions),
              users := if after.totalUst == 0 then w.users - {user} else w.users[user := after],
              ledger := w.ledger.(maUst := w.ledger.maUst - amount),
              maUstPaid := Credit(w.maUstPaid, user, amount)))
  }

  /** `page` lists the users handled by one call, at most ten in the order of their keys. */
  function Nuke(w: World, page: seq<Addr>): Result<World, Error>
    decreases |page|
  {
    if page == [] then Ok(w)
    else
      match NukeUser(w, page[0])
      case Err(e) => Err(e)
      case Ok(r) => Nuke(r, page[1..])
  }

  // ---------------------------------------------------------------- steps

  datatype Operation =
    | OpDepositUst(user: Addr, duration: nat, amount: nat)
    | OpWithdrawUst(user: Addr, duration: nat, amount: nat)
    | OpIncreaseIncentives(amount: nat)
    | OpEnableClaims(sender: Addr)
    | OpDepositInRedBank(sender: Addr, minted: nat)
    | OpDelegateMars(user: Addr, amount: nat)
    | OpClaim(user: Addr, unlock: Option<nat>, accrued: nat)
    | OpNuke(page: seq<Addr>)
    | OpUpdateConfig(sender: Addr, owner: Option<Addr>, auction: Option<Addr>, setProvider: bool, setMaUst: bool)

  function Attempt(w: World, now: nat, op: Operation): Result<World, Error> {
    match op
    case OpDepositUst(user, duration, amount) => DepositUst(w, now, user, duration, amount)
    case OpWithdrawUst(user, duration, amount) => WithdrawUst(w, now, user, duration, amount)
    case OpIncreaseIncentives(amount) => IncreaseIncentives(w, now, amount)
    case OpEnableClaims(sender) => EnableClaims(w, now, sender)
    case OpDepositInRedBank(sender, minted) => DepositInRedBank(w, now, sender, minted)
    case OpDelegateMars(user, amount) => DelegateMars(w, now, user, amount)
    case OpClaim(user, unlock, accrued) => Claim(w, now, user, unlock, accrued)
    case OpNuke(page) => (match Nuke(w, page) case Ok(r) => Ok(r.(clock := now)) case Err(e) => Err(e))
    case OpUpdateConfig(sender, owner, auction, setProvider, setMaUst) =>
      UpdateConfig(w, now, sender, owner, auction, setProvider, setMaUst)
  }

  /** A rejected transaction changes nothing but the time. */
  function Step(w: World, now: nat, op: Operation): World {
    match Attempt(w, now, op)
    case Ok(r) => r
    case Err(_) => w.(clock := now)
  }
}
