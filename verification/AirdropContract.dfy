/** The airdrop contract as it runs; every handler is proved to have the effect specified in module `Airdrop`. */
module AirdropContract {
  import opened Sums
  import opened Wrappers
  import opened Merkle
  import opened Airdrop

  class Contract {
    const digest: Digest
    var config: Config
    var state: State
    var users: Users
    var mars: nat
    ghost var sent: map<Addr, nat>
    ghost var ownerOut: nat
    ghost var evidence: map<Addr, Evidence>
    ghost var rootsEver: set<string>
    ghost var clock: nat

    ghost function Value(): World
      reads this
    {
      World(config, state, users, mars, sent, ownerOut, evidence, rootsEver, clock)
    }

    constructor (digest: Digest, config: Config, ghost now: nat)
      ensures this.digest == digest && Value() == Instantiated(config, now)
    {
      this.digest := digest;
      this.config := config.(auction := None, claimsEnabled := false);
      state, users, mars := State(0, 0, 0), map[], 0;
      sent, ownerOut, evidence, rootsEver, clock := map[], 0, map[], (set r | r in config.roots), now;
    }

    method HandleIncreaseMarsIncentives(now: nat, amount: nat) returns (r: Result<(), Error>)
      modifies this
      ensures Value() == Step(digest, old(Value()), now, OpIncrease(amount))
      ensures r.Ok? <==> Increase(old(Value()), now, amount).Ok?
    {
      clock := now;
      if amount == 0 { return Err(ZeroAmount); }
      state := state.(size := state.size + amount);
      state := state.(unclaimed := state.unclaimed + amount);
      mars := mars + amount;
      r := Ok(());
    }

    method HandleEnableClaims(now: nat, sender: Addr) returns (r: Result<(), Error>)
      modifies this
      ensures Value() == Step(digest, old(Value()), now, OpEnableClaims(sender))
      ensures r.Ok? <==> EnableClaims(old(Value()), now, sender).Ok?
    {
      clock := now;
      if config.auction.None? { return Err(NotSet); }
      if sender != config.auction.value { return Err(Unauthorized); }
      if config.claimsEnabled { return Err(AlreadyEnabled); }
      config := config.(claimsEnabled := true);
      r := Ok(());
    }

    method HandleClaim(now: nat, sender: Addr, amount: nat, proof: seq<string>,
                       index: nat) returns (r: Result<(), Error>)
      requires Sound(digest, Value())
      modifies this
      ensures Value() == Step(digest, old(Value()), now, OpClaim(sender, amount, proof, index))
      ensures Sound(digest, Value())
      ensures r.Ok? <==> Claim(digest, old(Value()), now, sender, amount, proof, index).Ok?
    {
      hide Sound, Verified;
      ghost var w := Value();
      StepSound(digest, w, now, OpClaim(sender, amount, proof, index));
      assert Attempt(digest, w, now, OpClaim(sender, amount, proof, index))
           == Claim(digest, w, now, sender, amount, proof, index);
      assert Step(digest, w, now, OpClaim(sender, amount, proof, index))
          == match Claim(digest, w, now, sender, amount, proof, index) case Ok(s) => s case Err(_) => w.(clock := now);
      hide Step, Attempt;
      clock := now;
      if config.from > now { return Err(NotStarted); }
      if config.to < now { return Err(Concluded); }
      if index >= |config.roots| { return Err(UnknownRoot); }
      var verified := VerifyClaim(digest, sender, amount, proof, config.roots[index]);
      if verified != Some(true) { return Err(BadProof); }
      var info := Lookup(users, sender);
      if info.claimed != 0 { return Err(AlreadyClaimed); }
      if state.unclaimed < amount { return Err(InsufficientMars); }
      var paid := 0;
      if config.claimsEnabled {
        if amount == 0 { return Err(ZeroTransfer); }
        paid := amount;
        info := info.(withdrawn := true);
      }
      info := info.(claimed := amount);
      PayClaim(sender, info, paid, Evidence(amount, proof, config.roots[index]));
      r := Ok(());
    }

    /** The end of `handle_claim`: records the claim and sends `paid`. */
    method PayClaim(user: Addr, info: User, paid: nat, ghost shown: Evidence)
      requires info.claimed <= state.unclaimed && paid <= mars
      modifies this`state, this`users, this`mars, this`sent, this`evidence
      ensures state == old(state).(unclaimed := old(state).unclaimed - info.claimed)
      ensures users == old(users)[user := info] && mars == old(mars) - paid
      ensures sent == old(sent)[user := Get(old(sent), user) + paid] && evidence == old(evidence)[user := shown]
    {
      state := state.(unclaimed := state.unclaimed - info.claimed);
      users := users[user := info];
      mars := mars - paid;
      sent := sent[user := Get(sent, user) + paid];
      evidence := evidence[user := shown];
    }

    method HandleDelegateMars(now: nat, sender: Addr, amount: nat) returns (r: Result<(), Error>)
      requires Sound(digest, Value())
      modifies this
      ensures Value() == Step(digest, old(Value()), now, OpDelegate(sender, amount)) && Sound(digest, Value())
      ensures r.Ok? <==> Delegate(old(Value()), now, sender, amount).Ok?
    {
      hide Sound;
      StepSound(digest, Value(), now, OpDelegate(sender, amount));
      clock := now;
      if config.auction.None? { return Err(NotSet); }
      if config.claimsEnabled { return Err(Concluded); }
      if sender !in users { return Err(UnknownUser); }
      var info := users[sender];
      info := info.(delegated := info.delegated + amount);
      if info.delegated > info.claimed { return Err(ExceedsClaim); }
      if amount == 0 { return Err(ZeroTransfer); }
      users := users[sender := info];
      state := state.(delegated := state.delegated + amount);
      mars := mars - amount;
      r := Ok(());
    }

    method HandleWithdrawAirdropRewards(now: nat, sender: Addr) returns (r: Result<(), Error>)
      requires Sound(digest, Value())
      modifies this
      ensures Value() == Step(digest, old(Value()), now, OpWithdraw(sender)) && Sound(digest, Value())
      ensures r.Ok? <==> Withdraw(old(Value()), now, sender).Ok?
    {
      hide Sound;
      StepSound(digest, Value(), now, OpWithdraw(sender));
      clock := now;
      if sender !in users { return Err(UnknownUser); }
      var info := users[sender];
      if !config.claimsEnabled { return Err(NotEnabled); }
      if info.withdrawn { return Err(AlreadyWithdrawn); }
      info := info.(withdrawn := true);
      RecordOk(digest, old(Value()), sender);
      var amount := info.claimed - info.delegated;
      if amount == 0 { return Err(NothingToWithdraw); }
      users := users[sender := info];
      mars := mars - amount;
      sent := sent[sender := Get(sent, sender) + amount];
      r := Ok(());
    }

    method HandleTransferUnclaimedTokens(now: nat, sender: Addr, amount: nat) returns (r: Result<(), Error>)
      requires Sound(digest, Value())
      modifies this
      ensures Value() == Step(digest, old(Value()), now, OpTransferUnclaimed(sender, amount)) && Sound(digest, Value())
      ensures r.Ok? <==> TransferUnclaimed(old(Value()), now, sender, amount).Ok?
    {
      hide Sound;
      StepSound(digest, Value(), now, OpTransferUnclaimed(sender, amount));
      RootsKnown(digest, Value());
      clock := now;
      if sender != config.owner { return Err(Unauthorized); }
      if config.to > now { return Err(NotConcluded); }
      if amount > state.unclaimed { return Err(InsufficientMars); }
      if amount == 0 { return Err(ZeroTransfer); }
      state := state.(unclaimed := state.unclaimed - amount);
      mars := mars - amount;
      ownerOut := ownerOut + amount;
      r := Ok(());
    }

    method HandleUpdateConfig(now: nat, sender: Addr, update: Update) returns (r: Result<(), Error>)
      modifies this
      ensures Value() == Step(digest, old(Value()), now, OpUpdateConfig(sender, update))
      ensures r.Ok? <==> UpdateConfig(old(Value()), now, sender, update).Ok?
    {
      clock := now;
      if sender != config.owner { return Err(Unauthorized); }
      var changed := config.(owner := update.owner.GetOr(config.owner));
      if update.auction.Some? && changed.auction.Some? && state.delegated > 0 { return Err(DelegationsLive); }
      changed := changed.(auction := if update.auction.Some? then update.auction else changed.auction,
                          roots := update.roots.GetOr(changed.roots));
      if update.from.Some? && now >= changed.from { return Err(InvalidWindow); }
      changed := changed.(from := update.from.GetOr(changed.from));
      if update.to.Some? && now >= changed.from && update.to.value < changed.to { return Err(InvalidWindow); }
      changed := changed.(to := update.to.GetOr(changed.to));
      if changed.to <= changed.from { return Err(InvalidWindow); }
      config := changed;
      rootsEver := rootsEver + set root | root in update.roots.GetOr([]);
      r := Ok(());
    }
  }
}
