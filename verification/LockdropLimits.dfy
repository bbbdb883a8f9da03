/** Which transactions keep the books of the lockdrop, exactly. */
module LockdropLimits {
  import opened Sums
  import opened Wrappers
  import opened Lockdrop
  import opened LockdropBook
  import opened LockdropSolvency
  import opened LockdropUnwind
  import opened LockdropRun
  import opened LockdropResults
  import opened LockdropNuke

  /** Before the Red Bank deposit every batch goes through: no share is due to anyone. */
  lemma {:induction false} EarlyNukeGoes(w: World, page: seq<Addr>)
    requires w.state.finalUst == 0 && Distinct(page) && forall u :: u in page ==> Unwindable(w, u)
    ensures Nuke(w, page).Ok?
    decreases |page|
  {
    hide NukeUser, Unwindable;
    if page != [] {
      EarlyUserGoes(w, page[0]);
      var r := NukeUser(w, page[0]).value;
      NukeUserClock(w, page[0]);
      forall u | u in page[1..] ensures Unwindable(r, u) {
        OthersUnwindable(w, page[0], u);
      }
      EarlyNukeGoes(r, page[1..]);
    }
  }

  lemma EarlyUserGoes(w: World, user: Addr)
    requires w.state.finalUst == 0 && Unwindable(w, user)
    ensures NukeUser(w, user).Ok?
  {
    if user in w.users && w.users[user].totalUst > 0 {
      NukeUserForm(w, user);
      NoSharesAlong(w.state, w.lockups, w.users[user].positions);
      hide Shares, Locked;
    } else {
      hide Shares, Locked;
    }
  }

  /**
   A transaction keeps the books if and only if it is in season: enabling claims before the start, or
   unwinding positions in a batch before the Red Bank deposit, always breaks them.
   */
  lemma StepSoundExactly(w: World, now: nat, op: Operation)
    requires Sound(w) && w.clock <= now && (op.OpNuke? ==> Distinct(op.page))
    ensures Sound(Step(w, now, op)) <==> InSeason(w, now, op)
  {
    hide Sound, Nuke, Unwindable;
    if InSeason(w, now, op) {
      StepSound(w, now, op);
    } else if op.OpEnableClaims? {
      EnabledEarly(w, now, op.sender);
    } else {
      SharesWithin(w);
      forall u | u in op.page ensures Unwindable(w, u) {
        SoundUnwindable(w, u);
      }
      EarlyNukeGoes(w, op.page);
      EarlyNukeBreaks(w, now, op.page);
    }
  }

  lemma EnabledEarly(w: World, now: nat, sender: Addr)
    requires w.clock <= now < w.config.init && w.config.auction == Some(sender) && !w.state.claimsAllowed
    ensures !Sound(Step(w, now, OpEnableClaims(sender)))
  {
    var r := Step(w, now, OpEnableClaims(sender));
    assert r.state.claimsAllowed && r.clock == now < WithdrawEnd(r.config);
    hide Placed, Amounts;
  }

  lemma EarlyNukeBreaks(w: World, now: nat, page: seq<Addr>)
    requires Sound(w) && w.state.finalMaUst == 0 && Nuke(w, page).Ok? && !NothingListed(w, page) && w.clock <= now
    ensures !Sound(Step(w, now, OpNuke(page)))
  {
    hide Sound, Nuke, Locked;
    EarlyNukeShrinks(w, page);
    var r := Step(w, now, OpNuke(page));
    if Sound(r) {
      OpenTotals(r);
    }
  }
}
