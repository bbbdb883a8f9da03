/**
 When the lockdrop accepts a transaction, for every state a run can reach and in conditions that a caller can
 check, and what accepted transactions change: without the functions by which module `Lockdrop` decides it.
 */
module LockdropTerms {
  import opened Decimals
  import opened Percentages
  import opened Sums
  import opened Wrappers
  import opened Lockdrop
  import opened LockdropBook
  import opened LockdropSolvency
  import opened LockdropClaims
  import opened LockdropUnwind
  import opened LockdropRun
  import opened LockdropNuke
  import opened LockdropLimits
  import opened LockdropShares

  /**
   How much of a position can be withdrawn at `now`: all of it while deposits are open, half of it in the first
   half of the withdrawal window, then a part that falls linearly to nothing. The ratio of the seconds left to
   twice the rest of the window is rounded down to a decimal, and so is the product.
   */
  predicate WithinLimit(config: Config, now: nat, ust: nat, amount: nat) {
    var cutoff, window := config.init + config.depositWindow, config.withdrawalWindow;
    if now < cutoff then amount <= ust
    else if now <= cutoff + window / 2 then 2 * amount <= ust
    else if now < cutoff + window then
      amount * ONE <= ust * ((cutoff + window - now) * ONE / (2 * (window - window / 2)))
    else amount == 0
  }

  lemma LimitMeaning(config: Config, now: nat, ust: nat, amount: nat)
    ensures amount <= Mul(ust, AllowedWithdrawalPercent(config, now)) <==> WithinLimit(config, now, ust, amount)
  {
    AtMostProduct(ust, AllowedWithdrawalPercent(config, now), amount);
    var cutoff, window := config.init + config.depositWindow, config.withdrawalWindow;
    if cutoff + window / 2 < now < cutoff + window {
      HalvedRatio(cutoff + window - now, window - window / 2);
    } else {
      FullHalfAndNone();
    }
  }

  // ---------------------------------------------------------------- what is accepted

  predicate WindowOpen(c: Config, now: nat) {
    c.init <= now <= c.init + c.depositWindow + c.withdrawalWindow
  }

  /** What a caller can check before a transaction. */
  predicate Acceptable(w: World, now: nat, op: Operation) {
    var c, s := w.config, w.state;
    match op
    case OpDepositUst(_, duration, amount) =>
      amount > 0 && c.init <= now <= c.init + c.depositWindow && exists b :: b in c.boosts && b.duration == duration
    case OpWithdrawUst(user, duration, amount) =>
      var id := LockupId(user, duration);
      && WindowOpen(c, now) && id in w.lockups && WithinLimit(c, now, w.lockups[id].ust, amount)
      && !(now >= c.init + c.depositWindow && w.lockups[id].withdrawn)
    case OpIncreaseIncentives(amount) =>
      amount > 0 && c.providerSet && now < c.init + c.depositWindow + c.withdrawalWindow
    case OpEnableClaims(sender) => c.auction == Some(sender) && !s.claimsAllowed && !WindowOpen(c, now)
    case OpDepositInRedBank(sender, minted) =>
      && sender == c.owner && c.providerSet && c.maUstSet && s.finalMaUst == 0
      && now > c.init + c.depositWindow + c.withdrawalWindow && s.totalUst > 0 && minted > 0
    case OpDelegateMars(user, amount) =>
      && now >= c.init + c.depositWindow + c.withdrawalWindow && !s.claimsAllowed && c.providerSet && c.auction.Some?
      && Lookup(w.users, user).positions != [] && amount > 0
      && Lookup(w.users, user).delegated + amount <= Entitled(c, s.totalWeight, w.lockups, Lookup(w.users, user))
    case OpClaim(user, unlock, accrued) =>
      && c.providerSet && s.claimsAllowed && Lookup(w.users, user).totalUst > 0
      && (unlock.Some? ==> Unlockable(w, user, unlock.value))
      && DueInClaim(w, user, accrued) <= w.ledger.xmars + accrued
    case OpNuke(page) => s.finalMaUst == 0 || forall u :: u in page ==> CanUnwind(w, u)
    case OpUpdateConfig(sender, _, _, _, _) => sender == c.owner
  }

  /** In every state a run can reach a transaction is accepted if and only if its caller's checks pass. */
  lemma AcceptedExactly(w: World, now: nat, op: Operation)
    requires Sound(w) && w.clock <= now && (op.OpNuke? ==> Distinct(op.page))
    ensures Attempt(w, now, op).Ok? <==> Acceptable(w, now, op)
  {
    hide Sound, DepositUst, WithdrawUst, DelegateMars, Claim, Nuke, WithinLimit, Unlockable, DueInClaim, CanUnwind;
    hide Unwindable;
    match op
    case OpDepositUst(user, duration, amount) => DepositAccepted(w, now, user, duration, amount);
    case OpWithdrawUst(user, duration, amount) => WithdrawAccepted(w, now, user, duration, amount);
    case OpDepositInRedBank(sender, minted) => RedBankFunded(w, now, sender, minted);
    case OpDelegateMars(user, amount) => DelegateAccepted(w, now, user, amount);
    case OpClaim(user, unlock, accrued) => ClaimSound(w, now, user, unlock, accrued);
    case OpNuke(page) =>
      if w.state.finalMaUst > 0 {
        NukeSucceeds(w, page);
      } else {
        NothingFinal(w);
        forall u | u in page ensures Unwindable(w, u) {
          SoundUnwindable(w, u);
        }
        EarlyNukeGoes(w, page);
      }
    case _ =>
  }

  lemma NothingFinal(w: World)
    requires Sound(w) && w.state.finalMaUst == 0
    ensures w.state.finalUst == 0
  {
    hide Placed, Mars;
  }

  lemma DepositAccepted(w: World, now: nat, user: Addr, duration: nat, amount: nat)
    ensures DepositUst(w, now, user, duration, amount).Ok?
       <==> Acceptable(w, now, OpDepositUst(user, duration, amount))
  {
    hide BoostFor, Weight;
    WeightIsBoosted(w.config.boosts, duration, 0);
  }

  lemma WithdrawAccepted(w: World, now: nat, user: Addr, duration: nat, amount: nat)
    requires Sound(w) && w.clock <= now
    ensures WithdrawUst(w, now, user, duration, amount).Ok?
       <==> Acceptable(w, now, OpWithdrawUst(user, duration, amount))
  {
    hide Sound, WithinLimit, AllowedWithdrawalPercent, Mul, Weight, Without;
    var id := LockupId(user, duration);
    WithdrawFunded(w, now, user, duration, amount);
    LimitMeaning(w.config, now, LockupOf(w.lockups, id).ust, amount);
    if id in w.lockups {
      LockupFacts(w, id);
    }
  }

  lemma DelegateAccepted(w: World, now: nat, user: Addr, amount: nat)
    requires Sound(w) && w.clock <= now
    ensures DelegateMars(w, now, user, amount).Ok? <==> Acceptable(w, now, OpDelegateMars(user, amount))
  {
    hide Sound, MaUstShare, Rewards, Rewarded;
    DelegateSound(w, now, user, amount);
    DelegatedWithin(w, user);
  }

  lemma DelegatedWithin(w: World, user: Addr)
    requires Sound(w)
    ensures Lookup(w.users, user).delegated <= Lookup(w.users, user).incentives
  {
    hide Placed, Amounts;
    if user in w.users {
      assert UserMars(w.config, w.state, w.users[user], Get(w.marsOut, user), w.clock);
    }
  }

  // ---------------------------------------------------------------- what changes

  /** Until positions are unwound, each moves by its owner's deposits and withdrawals alone, and by the amount named. */
  lemma PositionsMove(w: World, now: nat, op: Operation, id: LockupId)
    requires Sound(w) && Attempt(w, now, op).Ok? && !op.OpClaim? && !op.OpNuke?
    ensures var before, after := LockupOf(w.lockups, id), LockupOf(Attempt(w, now, op).value.lockups, id);
            var named := (op.OpDepositUst? || op.OpWithdrawUst?) && LockupId(op.user, op.duration) == id;
            && after.ust == before.ust + (if named && op.OpDepositUst? then op.amount else 0)
                            - (if named && op.OpWithdrawUst? then op.amount else 0)
            && (after.ust > 0 ==>
                  after.withdrawn == (before.withdrawn || (named && op.OpWithdrawUst?
                                                           && now >= w.config.init + w.config.depositWindow)))
  {
    hide Sound, AllowedWithdrawalPercent, Mul, Weight, Without, MaUstShare, Rewards, Reward, BoostFor;
    match op
    case OpDelegateMars(user, amount) => DelegateFrozenPositions(w, now, user, amount);
    case _ =>
  }

  lemma DelegateFrozenPositions(w: World, now: nat, user: Addr, amount: nat)
    requires DelegateMars(w, now, user, amount).Ok?
    ensures var r := DelegateMars(w, now, user, amount).value.lockups;
            r.Keys == w.lockups.Keys
            && forall id :: id in r ==> r[id].ust == w.lockups[id].ust && r[id].withdrawn == w.lockups[id].withdrawn
  {
    hide MaUstShare, Rewards, Reward;
  }

  /** Settings, flags and totals that no position enters change only by the transactions meant for them. */
  lemma SettingsMove(w: World, now: nat, op: Operation)
    requires Sound(w) && Attempt(w, now, op).Ok?
    ensures var r := Attempt(w, now, op).value;
            var update, raise := op.OpUpdateConfig?, if op.OpIncreaseIncentives? then op.amount else 0;
            && r.config == w.config.(owner := if update then op.owner.GetOr(w.config.owner) else w.config.owner,
                                     auction := if update && op.auction.Some? then op.auction else w.config.auction,
                                     providerSet := w.config.providerSet || (update && op.setProvider),
                                     maUstSet := w.config.maUstSet || (update && op.setMaUst),
                                     incentives := w.config.incentives + raise)
            && r.state.claimsAllowed == (w.state.claimsAllowed || op.OpEnableClaims?)
            && r.state.totalMarsDelegated
               == w.state.totalMarsDelegated + (if op.OpDelegateMars? then op.amount else 0)
  {
    hide Sound, AllowedWithdrawalPercent, Mul, Weight, Without, Materialised, BoostFor, Callbacks, Nuke;
    match op
    case OpClaim(user, unlock, accrued) => ClaimKeepsSettings(w, now, user, unlock, accrued);
    case OpNuke(page) => NukeKeepsSettings(w, page);
    case OpDelegateMars(user, amount) => MaterialisedKeepsSettings(w, user);
    case _ =>
  }

  lemma MaterialisedKeepsSettings(w: World, user: Addr)
    ensures var m := Materialised(w, user); m == w.(users := m.users, lockups := m.lockups) && user in m.users
  {
    hide MaUstShare, Rewards, Rewarded;
  }

  lemma ClaimKeepsSettings(w: World, now: nat, user: Addr, unlock: Option<nat>, accrued: nat)
    requires Claim(w, now, user, unlock, accrued).Ok?
    ensures var r := Claim(w, now, user, unlock, accrued).value;
            && r.config == w.config
            && r.state == w.state.(xmarsIndex := r.state.xmarsIndex, totalMaUst := r.state.totalMaUst)
  {
    hide Materialised, Callbacks;
    MaterialisedKeepsSettings(w, user);
    CallbacksEffect(Materialised(w, user), user, accrued, unlock);
  }

  lemma {:induction false} NukeKeepsSettings(w: World, page: seq<Addr>)
    requires Nuke(w, page).Ok?
    ensures var r := Nuke(w, page).value;
            r.config == w.config && r.state == w.state.(totalMaUst := r.state.totalMaUst)
    decreases |page|
  {
    hide NukeUser;
    if page != [] {
      NukeUserClock(w, page[0]);
      NukeKeepsSettings(NukeUser(w, page[0]).value, page[1..]);
    }
  }
}
