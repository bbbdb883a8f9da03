/**
 The LP staking contract: bonding, unbonding and claiming against a global reward index.
 The handlers are methods of class `Contract`, whose fields are the contract's storage items;
 each is proved against a function on `Store`, the value of those items.
 */
module LpStaking {
  import opened Decimals
  import opened Sums
  import opened Wrappers
  import opened Emission

  datatype Staker = Staker(bond: nat, index: Decimal, pending: nat)

  /** A staker that has never been saved; its index is 1.0. */
  const NEW_STAKER := Staker(0, ONE, 0)

  type Stakers = map<Addr, Staker>

  /** The addresses the owner can change: its own, and that of the token that is staked. */
  datatype Admin = Admin(owner: Addr, token: Addr)

  datatype Store = Store(admin: Admin, config: Config, state: State, stakers: Stakers)

  /** What `update_config` may change. */
  datatype Change = Change(owner: Option<Addr>, token: Option<Addr>, cycleRewards: Option<nat>,
                           rewardIncrease: Option<Decimal>)

  datatype Error = ExceedsBond | ZeroTransfer | NothingToClaim | Unauthorized | InvalidIncrease

  /** The tokens a handler sends to the caller. */
  datatype Payout = Payout(mars: nat, lp: nat)

  function Lookup(stakers: Stakers, user: Addr): Staker {
    if user in stakers then stakers[user] else NEW_STAKER
  }

  function Bonds(stakers: Stakers): map<Addr, nat> {
    map u | u in stakers :: stakers[u].bond
  }

  /** A staker with a bond never has an index ahead of the global one. */
  predicate Behind(staker: Staker, index: Decimal) {
    staker.bond > 0 ==> staker.index <= index
  }

  ghost predicate Valid(store: Store) {
    && ValidConfig(store.config)
    && Synced(store.config, store.state)
    && Sum(Bonds(store.stakers)) == store.state.totalBondAmount
    && (forall u :: u in store.stakers ==> Behind(store.stakers[u], store.state.globalRewardIndex))
  }

  ghost predicate ValidAt(store: Store, now: nat) {
    && Valid(store)
    && Ready(store.config, store.state, now)
  }

  lemma BondsUpdate(stakers: Stakers, user: Addr, staker: Staker)
    ensures Sum(Bonds(stakers[user := staker])) + Lookup(stakers, user).bond == Sum(Bonds(stakers)) + staker.bond
  {
    assert Bonds(stakers[user := staker]) == Bonds(stakers)[user := staker.bond];
    SumUpdate(Bonds(stakers), user, staker.bond);
  }

  lemma BondWithinTotal(store: Store, user: Addr)
    requires Valid(store)
    ensures Lookup(store.stakers, user).bond <= store.state.totalBondAmount
    ensures Behind(Lookup(store.stakers, user), store.state.globalRewardIndex)
  {
    SumContains(Bonds(store.stakers), user);
  }

  // ---------------------------------------------------------------- specification of the handlers

  ghost function Accrue(store: Store, now: nat): (s: Store)
    requires ValidAt(store, now)
    ensures ValidAt(s, now)
  {
    store.(state := Accrued(store.config, store.state, now))
  }

  /** Credits a staker with the growth of its share of the index since it was last settled. */
  function Settle(staker: Staker, index: Decimal): (s: Staker)
    requires Behind(staker, index)
    ensures s.bond == staker.bond && s.index == index && s.pending >= staker.pending
  {
    MulMonotone(staker.bond, staker.bond, if staker.bond > 0 then staker.index else 0, index);
    Staker(staker.bond, index, staker.pending + (Mul(staker.bond, index) - Mul(staker.bond, staker.index)))
  }

  ghost function SettleUser(store: Store, now: nat, user: Addr): (s: Store)
    requires ValidAt(store, now)
    ensures ValidAt(s, now)
  {
    BondWithinTotal(store, user);
    var staker := Settle(Lookup(store.stakers, user), store.state.globalRewardIndex);
    BondsUpdate(store.stakers, user, staker);
    store.(stakers := store.stakers[user := staker])
  }

  /** The store after the index has caught up to `now` and `user` has been settled. */
  ghost function Touch(store: Store, now: nat, user: Addr): (s: Store)
    requires ValidAt(store, now)
    ensures ValidAt(s, now)
    ensures user in s.stakers && s.stakers[user].index == s.state.globalRewardIndex
    ensures s.stakers[user].bond == Lookup(store.stakers, user).bond <= s.state.totalBondAmount
  {
    BondWithinTotal(store, user);
    SettleUser(Accrue(store, now), now, user)
  }

  /** The store after the bond of a settled `user` has become `bond`. */
  ghost function Rebond(store: Store, now: nat, user: Addr, bond: nat): (s: Store)
    requires ValidAt(store, now)
    requires user in store.stakers && store.stakers[user].index == store.state.globalRewardIndex
    ensures ValidAt(s, now)
    ensures user in s.stakers && s.stakers[user].bond == bond && s.stakers[user].pending == store.stakers[user].pending
  {
    BondWithinTotal(store, user);
    BondsUpdate(store.stakers, user, store.stakers[user].(bond := bond));
    store.(state := store.state.(totalBondAmount := store.state.totalBondAmount - store.stakers[user].bond + bond),
           stakers := store.stakers[user := store.stakers[user].(bond := bond)])
  }

  ghost function Pay(store: Store, now: nat, user: Addr): (s: Store)
    requires ValidAt(store, now) && user in store.stakers
    ensures ValidAt(s, now)
  {
    BondsUpdate(store.stakers, user, store.stakers[user].(pending := 0));
    store.(stakers := store.stakers[user := store.stakers[user].(pending := 0)])
  }

  ghost function AfterBond(store: Store, now: nat, user: Addr, amount: nat): (s: Store)
    requires ValidAt(store, now)
    ensures ValidAt(s, now)
  {
    Rebond(Touch(store, now, user), now, user, Lookup(store.stakers, user).bond + amount)
  }

  /** A zero amount is rejected by the LP token when the unbonded tokens are sent. */
  ghost function AfterUnbond(store: Store, now: nat, user: Addr, amount: nat,
                             withdraw: bool): (r: Result<(Store, Payout), Error>)
    requires ValidAt(store, now)
    ensures r.Ok? ==> ValidAt(r.value.0, now)
  {
    var bond := Lookup(store.stakers, user).bond;
    if bond < amount then Err(ExceedsBond)
    else if amount == 0 then Err(ZeroTransfer)
    else
      var moved := Rebond(Touch(store, now, user), now, user, bond - amount);
      if withdraw then Ok((Pay(moved, now, user), Payout(moved.stakers[user].pending, amount)))
      else Ok((moved, Payout(0, amount)))
  }

  ghost function AfterClaim(store: Store, now: nat, user: Addr): (r: Result<(Store, Payout), Error>)
    requires ValidAt(store, now)
    ensures r.Ok? ==> ValidAt(r.value.0, now)
  {
    var touched := Touch(store, now, user);
    if touched.stakers[user].pending == 0 then Err(NothingToClaim)
    else Ok((Pay(touched, now, user), Payout(touched.stakers[user].pending, 0)))
  }

  ghost function AfterUpdate(store: Store, now: nat, sender: Addr, change: Change): (r: Result<Store, Error>)
    requires ValidAt(store, now)
    ensures r.Ok? ==> ValidAt(r.value, now)
  {
    if sender != store.admin.owner then Err(Unauthorized)
    else if change.rewardIncrease.Some? && change.rewardIncrease.value >= ONE then Err(InvalidIncrease)
    else
      var accrued := Accrue(store, now);
      Ok(accrued.(
        admin := Admin(change.owner.GetOr(store.admin.owner), change.token.GetOr(store.admin.token)),
        config := accrued.config.(rewardIncrease := change.rewardIncrease.GetOr(accrued.config.rewardIncrease)),
        state := accrued.state.(currentCycleRewards := change.cycleRewards.GetOr(accrued.state.currentCycleRewards))))
  }

  /** An unbond writes the caller's record and the state once. */
  lemma UnbondInOneWrite(store: Store, now: nat, user: Addr, amount: nat, withdraw: bool)
    requires ValidAt(store, now)
    requires 0 < amount <= Lookup(store.stakers, user).bond <= store.state.totalBondAmount
    requires Behind(Lookup(store.stakers, user), store.state.globalRewardIndex)
    ensures var state := Accrued(store.config, store.state, now);
            var settled := Settle(Lookup(store.stakers, user), state.globalRewardIndex);
            AfterUnbond(store, now, user, amount, withdraw)
            == Ok((store.(state := state.(totalBondAmount := state.totalBondAmount - amount),
                          stakers := store.stakers[user := Staker(settled.bond - amount, settled.index,
                                                                  if withdraw then 0 else settled.pending)]),
                   Payout(if withdraw then settled.pending else 0, amount)))
  {
    hide Sum, Bonds, Schedule, RewardAfter, Synced, CyclesElapsed;
    var settled := Settle(Lookup(store.stakers, user), Accrued(store.config, store.state, now).globalRewardIndex);
    assert AfterUnbond(store, now, user, amount, withdraw).value.0.stakers
        == store.stakers[user := Staker(settled.bond - amount, settled.index, if withdraw then 0 else settled.pending)];
  }

  /** Settling twice at an unchanged bond credits exactly what settling once credits. */
  lemma SettleTelescopes(staker: Staker, middle: Decimal, last: Decimal)
    requires Behind(staker, middle) && middle <= last
    ensures Settle(Settle(staker, middle), last) == Settle(staker, last)
  {
  }

  // ---------------------------------------------------------------- the contract

  class Contract {
    var owner: Addr
    var token: Addr
    var config: Config
    var state: State
    var stakers: Stakers

    ghost function Value(): Store
      reads this
    {
      Store(Admin(owner, token), config, state, stakers)
    }

    /** `instantiate`, once the timestamps and the configuration have been checked. */
    constructor (owner: Addr, token: Addr, config: Config, cycleRewards: nat)
      requires ValidConfig(config)
      ensures Value() == Store(Admin(owner, token), config, State(0, cycleRewards, config.init, 0, 0), map[])
      ensures Valid(Value())
    {
      this.owner, this.token, this.config := owner, token, config;
      this.state := State(0, cycleRewards, config.init, 0, 0);
      this.stakers := map[];
    }

    method ComputeStakerReward(index: Decimal, staker: Staker) returns (r: Staker)
      requires Behind(staker, index)
      ensures r == Settle(staker, index)
    {
      MulMonotone(staker.bond, staker.bond, if staker.bond > 0 then staker.index else 0, index);
      var pendingReward := Mul(staker.bond, index) - Mul(staker.bond, staker.index);
      r := staker.(index := index);
      r := r.(pending := r.pending + pendingReward);
    }

    method Bond(now: nat, sender: Addr, amount: nat)
      requires ValidAt(Value(), now)
      modifies this
      ensures Value() == AfterBond(old(Value()), now, sender, amount)
    {
      hide Sum, Bonds, Ready;
      BondWithinTotal(Value(), sender);
      var info := Lookup(stakers, sender);
      var newState := ComputeReward(config, state, now);
      info := ComputeStakerReward(newState.globalRewardIndex, info);
      newState := newState.(totalBondAmount := newState.totalBondAmount + amount);
      info := info.(bond := info.bond + amount);
      stakers := stakers[sender := info];
      state := newState;
      assert stakers == AfterBond(old(Value()), now, sender, amount).stakers;
    }

    /** `receive_cw20`: only the staked token may announce a bond. */
    method ReceiveCw20(now: nat, sender: Addr, staker: Addr, amount: nat) returns (r: Result<(), Error>)
      requires ValidAt(Value(), now)
      modifies this
      ensures sender != old(token) ==> r == Err(Unauthorized) && Value() == old(Value())
      ensures sender == old(token) ==> r == Ok(()) && Value() == AfterBond(old(Value()), now, staker, amount)
    {
      if token != sender {
        return Err(Unauthorized);
      }
      Bond(now, staker, amount);
      r := Ok(());
    }

    method Unbond(now: nat, sender: Addr, amount: nat,
                  withdrawPendingReward: Option<bool>) returns (r: Result<Payout, Error>)
      requires ValidAt(Value(), now)
      modifies this
      ensures match AfterUnbond(old(Value()), now, sender, amount, withdrawPendingReward.GetOr(false))
              case Ok((store, payout)) => r == Ok(payout) && Value() == store
              case Err(e) => r == Err(e) && Value() == old(Value())
    {
      hide Sum, Bonds, Settle;
      var info := Lookup(stakers, sender);
      if info.bond < amount {
        return Err(ExceedsBond);
      }
      if amount == 0 {
        return Err(ZeroTransfer);
      }
      BondWithinTotal(Value(), sender);
      UnbondInOneWrite(Value(), now, sender, amount, withdrawPendingReward.GetOr(false));
      var newState := ComputeReward(config, state, now);
      info := ComputeStakerReward(newState.globalRewardIndex, info);
      newState := newState.(totalBondAmount := newState.totalBondAmount - amount);
      info := info.(bond := info.bond - amount);
      var claimed := 0;
      match withdrawPendingReward {
        case Some(withdraw) =>
          if withdraw {
            claimed := info.pending;
            if claimed > 0 {
              info := info.(pending := 0);
            }
          }
        case None =>
      }
      stakers := stakers[sender := info];
      state := newState;
      r := Ok(Payout(claimed, amount));
    }

    method TryClaim(now: nat, sender: Addr) returns (r: Result<Payout, Error>)
      requires ValidAt(Value(), now)
      modifies this
      ensures match AfterClaim(old(Value()), now, sender)
              case Ok((store, payout)) => r == Ok(payout) && Value() == store
              case Err(e) => r == Err(e) && Value() == old(Value())
    {
      BondWithinTotal(Value(), sender);
      var info := Lookup(stakers, sender);
      var newState := ComputeReward(config, state, now);
      info := ComputeStakerReward(newState.globalRewardIndex, info);
      var accrued := info.pending;
      info := info.(pending := 0);
      if accrued == 0 {
        return Err(NothingToClaim);
      }
      stakers := stakers[sender := info];
      state := newState;
      r := Ok(Payout(accrued, 0));
      assert stakers == AfterClaim(old(Value()), now, sender).value.0.stakers;
    }

    method UpdateConfig(now: nat, sender: Addr, change: Change) returns (r: Result<(), Error>)
      requires ValidAt(Value(), now)
      modifies this
      ensures match AfterUpdate(old(Value()), now, sender, change)
              case Ok(store) => r == Ok(()) && Value() == store
              case Err(e) => r == Err(e) && Value() == old(Value())
    {
      if sender != owner {
        return Err(Unauthorized);
      }
      var newState := ComputeReward(config, state, now);
      var newToken := change.token.GetOr(token);
      var newOwner := change.owner.GetOr(owner);
      var newConfig := config;
      match change.rewardIncrease {
        case Some(ratio) =>
          if ratio < ONE {
            newConfig := newConfig.(rewardIncrease := ratio);
          } else {
            return Err(InvalidIncrease);
          }
        case None =>
      }
      newState := newState.(currentCycleRewards := change.cycleRewards.GetOr(newState.currentCycleRewards));
      owner, token, config := newOwner, newToken, newConfig;
      state := newState;
      r := Ok(());
    }
  }
}
