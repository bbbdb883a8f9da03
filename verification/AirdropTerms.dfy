/**
 When the airdrop accepts a transaction, for every state a run can reach, what accepted transactions change,
 and what the owner can and cannot take.
 */
module AirdropTerms {
  import opened Sums
  import opened Wrappers
  import opened Merkle
  import opened Airdrop

  // ---------------------------------------------------------------- what is accepted

  /** What a caller can check before a transaction. */
  predicate Acceptable(digest: Digest, w: World, now: nat, op: Operation) {
    var c, s := w.config, w.state;
    match op
    case OpIncrease(amount) => amount > 0
    case OpEnableClaims(sender) => c.auction == Some(sender) && !c.claimsEnabled
    case OpClaim(user, amount, proof, index) =>
      && c.from <= now <= c.to && index < |c.roots|
      && Verified(digest, user, amount, proof, c.roots[index]) == Some(true)
      && Lookup(w.users, user).claimed == 0 && amount <= s.unclaimed && (c.claimsEnabled ==> amount > 0)
    case OpDelegate(user, amount) =>
      && c.auction.Some? && !c.claimsEnabled && user in w.users
      && 0 < amount <= w.users[user].claimed - w.users[user].delegated
    case OpWithdraw(user) =>
      && c.claimsEnabled && user in w.users && !w.users[user].withdrawn
      && w.users[user].claimed > w.users[user].delegated
    case OpTransferUnclaimed(sender, amount) => sender == c.owner && c.to <= now && 0 < amount <= s.unclaimed
    case OpUpdateConfig(sender, update) =>
      && sender == c.owner
      && (update.auction.None? || c.auction.None? || s.delegated == 0)
      && (update.from.Some? ==> now < c.from)
      && update.from.GetOr(c.from) < update.to.GetOr(c.to)
      && (update.to.Some? && update.from.GetOr(c.from) <= now ==> c.to <= update.to.value)
  }

  /** In every state a run can reach a transaction is accepted if and only if its caller's checks pass. */
  lemma AcceptedExactly(digest: Digest, w: World, now: nat, op: Operation)
    requires Sound(digest, w)
    ensures Attempt(digest, w, now, op).Ok? <==> Acceptable(digest, w, now, op)
  {
    hide Sound, Verified;
    StepSound(digest, w, now, op);
  }

  // ---------------------------------------------------------------- what changes

  /** Every user's record moves by the user's own transactions alone, and by the amount named. */
  lemma RecordsMove(digest: Digest, w: World, now: nat, op: Operation, u: Addr)
    requires Attempt(digest, w, now, op).Ok?
    ensures var r := Attempt(digest, w, now, op).value;
            var before, after := Lookup(w.users, u), Lookup(r.users, u);
            var claimed := if op.OpClaim? && op.user == u then op.amount else 0;
            var atOnce, later := op.OpClaim? && op.user == u && w.config.claimsEnabled, op.OpWithdraw? && op.user == u;
            && after.claimed == before.claimed + claimed
            && after.delegated == before.delegated + (if op.OpDelegate? && op.user == u then op.amount else 0)
            && after.withdrawn == (before.withdrawn || atOnce || later)
            && Get(r.sent, u) == Get(w.sent, u) + (if atOnce then claimed else 0)
                                 + (if later then before.claimed - before.delegated else 0)
  {
    hide Verified;
  }

  /** Settings change only by the owner, to the values named, and claims are enabled only by the auction. */
  lemma SettingsMove(digest: Digest, w: World, now: nat, op: Operation)
    requires Attempt(digest, w, now, op).Ok?
    ensures var c := Attempt(digest, w, now, op).value.config;
            if op.OpUpdateConfig? then
              var u := op.update;
              && c == Config(u.owner.GetOr(w.config.owner), if u.auction.Some? then u.auction else w.config.auction,
                             u.roots.GetOr(w.config.roots), u.from.GetOr(w.config.from), u.to.GetOr(w.config.to),
                             w.config.claimsEnabled)
            else c == w.config.(claimsEnabled := w.config.claimsEnabled || op.OpEnableClaims?)
  {
    hide Verified;
  }

  ghost predicate Timed(clock: nat, calls: seq<(nat, Operation)>) {
    && (calls != [] ==> clock <= calls[0].0)
    && (forall i, j :: 0 <= i < j < |calls| ==> calls[i].0 <= calls[j].0)
  }

  /** Once the claim period has begun its start is fixed and its end never comes earlier. */
  lemma {:induction false} PeriodFixed(digest: Digest, w: World, calls: seq<(nat, Operation)>)
    requires Timed(w.clock, calls) && w.config.from <= w.clock
    ensures var r := Run(digest, w, calls); r.config.from == w.config.from && r.config.to >= w.config.to
    decreases |calls|
  {
    hide Verified;
    if calls != [] {
      PeriodFixed(digest, Step(digest, w, calls[0].0, calls[0].1), calls[1..]);
    }
  }

  // ---------------------------------------------------------------- what the owner takes

  /** What a call takes out for the owner: only by the owner of the moment, from the end of the moment on. */
  function Taking(w: World, now: nat, op: Operation): nat {
    if op.OpTransferUnclaimed? && op.sender == w.config.owner && w.config.to <= now && op.amount <= w.state.unclaimed
    then op.amount else 0
  }

  ghost function Takings(digest: Digest, w: World, calls: seq<(nat, Operation)>): nat
    decreases |calls|
  {
    if calls == [] then 0
    else Taking(w, calls[0].0, calls[0].1) + Takings(digest, Step(digest, w, calls[0].0, calls[0].1), calls[1..])
  }

  /** Over any run what has left for the owner is what owners took after the end of the claim period. */
  lemma {:induction false} OwnerTakesAfterEnd(digest: Digest, w: World, calls: seq<(nat, Operation)>)
    requires Sound(digest, w)
    ensures Run(digest, w, calls).ownerOut == w.ownerOut + Takings(digest, w, calls)
    decreases |calls|
  {
    hide Sound, Verified;
    if calls != [] {
      StepSound(digest, w, calls[0].0, calls[0].1);
      OwnerTakesAfterEnd(digest, Step(digest, w, calls[0].0, calls[0].1), calls[1..]);
    }
  }

  /** Every call of the run comes before the end of the claim period of its moment. */
  ghost predicate BeforeEnd(digest: Digest, w: World, calls: seq<(nat, Operation)>)
    decreases |calls|
  {
    calls != [] ==>
      && calls[0].0 < w.config.to
      && BeforeEnd(digest, Step(digest, w, calls[0].0, calls[0].1), calls[1..])
  }

  /** What is put in by a run. */
  function PutIn(calls: seq<(nat, Operation)>): nat {
    if calls == [] then 0 else (if calls[0].1.OpIncrease? then calls[0].1.amount else 0) + PutIn(calls[1..])
  }

  lemma {:induction false} SizeIsPutIn(digest: Digest, w: World, calls: seq<(nat, Operation)>)
    ensures Run(digest, w, calls).state.size == w.state.size + PutIn(calls)
    decreases |calls|
  {
    hide Verified;
    if calls != [] {
      SizeIsPutIn(digest, Step(digest, w, calls[0].0, calls[0].1), calls[1..]);
    }
  }

  lemma {:induction false} NothingTakenYet(digest: Digest, w: World, calls: seq<(nat, Operation)>)
    requires BeforeEnd(digest, w, calls)
    ensures Takings(digest, w, calls) == 0
    decreases |calls|
  {
    hide Step;
    if calls != [] {
      NothingTakenYet(digest, Step(digest, w, calls[0].0, calls[0].1), calls[1..]);
    }
  }

  /**
   Until the claim period ends the owner takes nothing: whatever is put in is unclaimed until users claim it,
   and unclaimed tokens fall by exactly what is recorded as claimed.
   */
  lemma UnclaimedUntilEnd(digest: Digest, w: World, calls: seq<(nat, Operation)>)
    requires Sound(digest, w) && BeforeEnd(digest, w, calls)
    ensures var r := Run(digest, w, calls);
            && r.ownerOut == w.ownerOut
            && r.state.unclaimed + Sum(ClaimedOf(r.users)) == w.state.unclaimed + Sum(ClaimedOf(w.users)) + PutIn(calls)
  {
    OwnerTakesAfterEnd(digest, w, calls);
    NothingTakenYet(digest, w, calls);
    SizeIsPutIn(digest, w, calls);
    RunSound(digest, w, calls);
    SizedBooks(digest, w);
    SizedBooks(digest, Run(digest, w, calls));
    hide Sound;
  }

  lemma SizedBooks(digest: Digest, w: World)
    requires Sound(digest, w)
    ensures w.state.size == w.state.unclaimed + Sum(ClaimedOf(w.users)) + w.ownerOut
  {
    hide Kept;
  }
}
