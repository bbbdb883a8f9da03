/**
 `handle_nuke_lockdrop` against dissolving every listed position in turn: the batch skips positions
 whose share is zero, which one by one are rejected, and otherwise has the same effect.
 */
module LockdropNuke {
  import opened Sums
  import opened Decimals
  import opened Wrappers
  import opened Lockdrop
  import opened LockdropBook
  import opened LockdropClaims
  import opened LockdropUnwind

  /** Dissolves the positions of `user`, the first listed first, until none is left. */
  function DissolveAll(w: World, user: Addr): Result<World, Error>
    decreases |Lookup(w.users, user).positions|
  {
    var positions := Lookup(w.users, user).positions;
    if positions == [] then Ok(w)
    else if positions[0] != LockupId(user, positions[0].duration) then Err(NoLockup)
    else
      match Dissolve(w, user, positions[0].duration)
      case Err(e) => Err(e)
      case Ok(r) => DissolveAll(r, user)
  }

  predicate Listed(w: World, user: Addr) {
    && user in w.users
    && (forall id :: id in w.users[user].positions ==> id.owner == user && id in w.lockups)
  }

  /** Every listed position of the user has a share of the maUST that is not zero. */
  predicate Paying(w: World, user: Addr) {
    forall id :: id in Lookup(w.users, user).positions ==> MaUstShare(w.state, LockupOf(w.lockups, id).ust) > 0
  }

  /** The first position is listed once, and its share comes off the sum along the list. */
  lemma HeadShare(w: World, user: Addr)
    requires Listed(w, user) && Distinct(w.users[user].positions) && w.users[user].positions != []
    ensures var info, shares := w.users[user], Shares(w.state, w.lockups);
            var id := info.positions[0];
            && id == LockupId(user, id.duration) && id in w.lockups && Distinct(info.positions[1..])
            && Without(info.positions, id) == info.positions[1..]
            && SumSeq(info.positions, shares)
               == MaUstShare(w.state, w.lockups[id].ust) + SumSeq(info.positions[1..], shares)
            && SumSeq(info.positions[1..], shares) == SumSeq(info.positions[1..], Shares(w.state, w.lockups - {id}))
            && (forall j :: j in info.positions[1..] ==> j.owner == user && j in w.lockups - {id})
  {
    hide MaUstShare;
    var info, id := w.users[user], w.users[user].positions[0];
    assert id in info.positions;
    assert Get(Shares(w.state, w.lockups), id) == MaUstShare(w.state, w.lockups[id].ust);
    SumSeqSame(info.positions[1..], Shares(w.state, w.lockups), Shares(w.state, w.lockups - {id}));
  }

  lemma HeadDissolved(w: World, user: Addr)
    requires Listed(w, user) && Distinct(w.users[user].positions) && w.users[user].positions != []
    ensures var info := w.users[user];
            var id := info.positions[0];
            id in w.lockups &&
            var amount := MaUstShare(w.state, w.lockups[id].ust);
            var d := Dissolve(w, user, id.duration);
            && (d.Ok? <==> 0 < amount <= w.state.totalMaUst && amount <= info.maUstShare && amount <= w.ledger.maUst)
            && (d.Ok? ==>
                  && d.value == Released(w, user,
                                         Some(info.(maUstShare := info.maUstShare - amount,
                                                    positions := info.positions[1..])), {id}, amount)
                  && Listed(d.value, user)
                  && SumSeq(info.positions[1..], Shares(d.value.state, d.value.lockups))
                     == SumSeq(info.positions[1..], Shares(w.state, w.lockups)))
  {
    hide MaUstShare, Shares, Distinct, Without;
    HeadShare(w, user);
    var info, id := w.users[user], w.users[user].positions[0];
    assert id in info.positions;
    var d := Dissolve(w, user, id.duration);
    if d.Ok? {
      SharesByMint(w.state, d.value.state, d.value.lockups);
    }
  }

  /** All positions of `user` released at once, for `amount` of maUST. */
  function AllReleased(w: World, user: Addr, amount: nat): World
    requires user in w.users
    requires amount <= w.state.totalMaUst && amount <= w.users[user].maUstShare && amount <= w.ledger.maUst
  {
    var info := w.users[user];
    Released(w, user, Some(info.(maUstShare := info.maUstShare - amount, positions := [])),
             (set id | id in info.positions), amount)
  }

  /**
   Dissolving one by one releases all positions at once, and succeeds exactly when the totals suffice
   and every position has a share.
   */
  ghost predicate ReleasesAll(w: World, user: Addr)
    requires user in w.users
  {
    var info := w.users[user];
    var amount := SumSeq(info.positions, Shares(w.state, w.lockups));
    var enough := amount <= w.state.totalMaUst && amount <= info.maUstShare && amount <= w.ledger.maUst;
    var d := DissolveAll(w, user);
    && (d.Ok? <==> (info.positions == [] || enough) && Paying(w, user))
    && (d.Ok? ==> enough && d.value == AllReleased(w, user, amount))
  }

  lemma {:induction false} DissolveAllReleases(w: World, user: Addr)
    requires Listed(w, user) && Distinct(w.users[user].positions)
    ensures ReleasesAll(w, user)
    decreases |w.users[user].positions|
  {
    hide MaUstShare, Shares, Dissolve, ReleasesAll;
    if w.users[user].positions == [] {
      NoneToRelease(w, user);
    } else {
      HeadShare(w, user);
      HeadDissolved(w, user);
      var d := Dissolve(w, user, w.users[user].positions[0].duration);
      if d.Ok? {
        DissolveAllReleases(d.value, user);
      }
      FirstThenRest(w, user);
    }
  }

  lemma NoneToRelease(w: World, user: Addr)
    requires user in w.users && w.users[user].positions == []
    ensures ReleasesAll(w, user)
  {
    hide AllReleased, Shares;
    NothingReleased(w, user);
  }

  lemma FirstThenRest(w: World, user: Addr)
    requires Listed(w, user) && Distinct(w.users[user].positions) && w.users[user].positions != []
    requires var d := Dissolve(w, user, w.users[user].positions[0].duration);
             d.Ok? ==> user in d.value.users && ReleasesAll(d.value, user)
    ensures ReleasesAll(w, user)
  {
    hide MaUstShare, Shares, Dissolve, AllReleased;
    HeadShare(w, user);
    HeadDissolved(w, user);
    FirstPays(w, user);
    hide Listed, Distinct, Without, Paying;
    var info, id := w.users[user], w.users[user].positions[0];
    var d := Dissolve(w, user, id.duration);
    var a, b := MaUstShare(w.state, w.lockups[id].ust), SumSeq(info.positions[1..], Shares(w.state, w.lockups));
    if d.Ok? {
      assert DissolveAll(w, user) == DissolveAll(d.value, user);
      assert d.value.users[user].positions == info.positions[1..];
      assert d.value.users[user].maUstShare == info.maUstShare - a;
      if a + b <= w.state.totalMaUst && a + b <= info.maUstShare && a + b <= w.ledger.maUst {
        ReleasedTwice(w, user, d.value, a, b);
      }
      hide DissolveAll, SumSeq;
    }
  }

  /** All positions have a share when the first has, and the others still have once it is dissolved. */
  lemma FirstPays(w: World, user: Addr)
    requires Listed(w, user) && Distinct(w.users[user].positions) && w.users[user].positions != []
    ensures var id := w.users[user].positions[0];
            var d := Dissolve(w, user, id.duration);
            && id in w.lockups && (Paying(w, user) ==> MaUstShare(w.state, w.lockups[id].ust) > 0)
            && (d.Ok? ==> (Paying(w, user) <==> Paying(d.value, user)))
  {
    hide Shares, MaUstShare, Dissolve, Distinct, Without;
    HeadShare(w, user);
    HeadDissolved(w, user);
    var positions := w.users[user].positions;
    assert positions[0] in Lookup(w.users, user).positions;
    assert LockupOf(w.lockups, positions[0]) == w.lockups[positions[0]];
    var d := Dissolve(w, user, positions[0].duration);
    if d.Ok? {
      assert user in d.value.users && d.value.lockups == w.lockups - {positions[0]};
      OthersPay(w, d.value, user);
    }
  }

  lemma OthersPay(w: World, r: World, user: Addr)
    requires user in w.users && user in r.users && Distinct(w.users[user].positions) && w.users[user].positions != []
    requires r.state.finalUst == w.state.finalUst && r.state.finalMaUst == w.state.finalMaUst
    requires var id := w.users[user].positions[0];
             && MaUstShare(w.state, LockupOf(w.lockups, id).ust) > 0 && r.lockups == w.lockups - {id}
             && r.users[user].positions == w.users[user].positions[1..]
    ensures Paying(w, user) <==> Paying(r, user)
  {
    SameRatio(w.state, r.state);
    hide MaUstShare;
    var positions := w.users[user].positions;
    assert positions == [positions[0]] + positions[1..];
    forall id | id in positions[1..] ensures LockupOf(r.lockups, id) == LockupOf(w.lockups, id) {
    }
  }

  lemma SameRatio(s: State, t: State)
    requires s.finalUst == t.finalUst && s.finalMaUst == t.finalMaUst
    ensures forall ust :: MaUstShare(s, ust) == MaUstShare(t, ust)
  {
    hide Mul, FromRatio;
    forall ust ensures MaUstShare(s, ust) == MaUstShare(t, ust) {
    }
  }

  lemma NothingReleased(w: World, user: Addr)
    requires user in w.users && w.users[user].positions == []
    ensures AllReleased(w, user, 0) == w
  {
    assert w.users == w.users[user := w.users[user]];
    assert w.lockups - (set id | id in w.users[user].positions) == w.lockups;
  }

  lemma ReleasedTwice(w: World, user: Addr, d: World, a: nat, b: nat)
    requires user in w.users && w.users[user].positions != []
    requires a + b <= w.state.totalMaUst && a + b <= w.users[user].maUstShare && a + b <= w.ledger.maUst
    requires var info := w.users[user];
             d == Released(w, user, Some(info.(maUstShare := info.maUstShare - a, positions := info.positions[1..])),
                           {info.positions[0]}, a)
    ensures AllReleased(d, user, b) == AllReleased(w, user, a + b)
  {
    var positions := w.users[user].positions;
    var twice, once := AllReleased(d, user, b), AllReleased(w, user, a + b);
    assert twice.users == once.users && twice.ledger == once.ledger && twice.state == once.state;
    assert w.lockups - {positions[0]} - (set j | j in positions[1..]) == w.lockups - (set j | j in positions);
    assert Credit(Credit(w.maUstPaid, user, a), user, b) == Credit(w.maUstPaid, user, a + b);
    hide Credit;
    assert twice.lockups == once.lockups && twice.maUstPaid == once.maUstPaid;
  }

  // ---------------------------------------------------------------- a page of users

  function DissolveUsers(w: World, page: seq<Addr>): Result<World, Error>
    decreases |page|
  {
    if page == [] then Ok(w)
    else
      match DissolveAll(w, page[0])
      case Err(e) => Err(e)
      case Ok(r) => DissolveUsers(r, page[1..])
  }

  /** A record unwound in a batch: dropped if no UST is left, else the same up to the recorded UST. */
  predicate Unwound(nuked: Users, dissolved: Users, user: Addr) {
    && (user in dissolved ==> dissolved[user].positions == [])
    && (user in nuked ==>
         user in dissolved && nuked[user].totalUst > 0
         && nuked[user] == dissolved[user].(totalUst := nuked[user].totalUst))
  }

  /**
   Same positions, totals, tokens and payments; the records of the users `done` may differ, but only
   in that emptied ones are dropped and the UST recorded in the others is lowered.
   */
  predicate Agree(nuked: World, dissolved: World, done: set<Addr>) {
    && nuked == dissolved.(users := nuked.users)
    && (forall u :: u in nuked.users.Keys + dissolved.users.Keys ==>
          if u in done then Unwound(nuked.users, dissolved.users, u)
          else u in nuked.users && u in dissolved.users && nuked.users[u] == dissolved.users[u])
  }

  /** What the books say about the users of a page. */
  ghost predicate Unwindable(w: World, user: Addr) {
    user in w.users ==>
      && Listed(w, user) && Distinct(w.users[user].positions)
      && SumSeq(w.users[user].positions, Locked(w.lockups)) <= w.users[user].totalUst
      && (w.users[user].totalUst == 0 ==> w.users[user].positions == [])
  }

  lemma SoundUnwindable(w: World, user: Addr)
    requires Sound(w)
    ensures Unwindable(w, user)
  {
  }

  lemma NukeUserForm(w: World, user: Addr)
    requires Unwindable(w, user) && user in w.users && w.users[user].totalUst > 0
    ensures var info := w.users[user];
            var amount := SumSeq(info.positions, Shares(w.state, w.lockups));
            var unlocked := SumSeq(info.positions, Locked(w.lockups));
            && unlocked <= info.totalUst
            && (NukeUser(w, user).Ok? <==>
                 amount <= w.state.totalMaUst && amount <= info.maUstShare && amount <= w.ledger.maUst)
            && (NukeUser(w, user).Ok? ==>
                  var after := info.(totalUst := info.totalUst - unlocked, maUstShare := info.maUstShare - amount,
                                     positions := []);
                  NukeUser(w, user).value
                  == Released(w, user, if after.totalUst == 0 then None else Some(after),
                              (set id | id in info.positions), amount))
  {
    hide Shares, Locked, Listed;
  }

  /** The two ways of releasing agree when they differ only in the record of the user they release. */
  lemma ReleasedAgree(n: World, d: World, done: set<Addr>, user: Addr, left: Option<User>, info: User,
                      ids: set<LockupId>, amount: nat)
    requires Agree(n, d, done) && info.positions == []
    requires left.Some? ==> left.value.totalUst > 0 && left.value == info.(totalUst := left.value.totalUst)
    requires amount <= n.state.totalMaUst && amount <= n.ledger.maUst
    ensures Agree(Released(n, user, left, ids, amount), Released(d, user, Some(info), ids, amount), done + {user})
  {
  }

  /**
   One by one a user is unwound exactly when it is in a batch and all its positions have a share, with
   the same effect.
   */
  lemma NukeUserRefines(n: World, d: World, done: set<Addr>, user: Addr)
    requires Agree(n, d, done) && user !in done && Unwindable(n, user)
    ensures DissolveAll(d, user).Ok? <==> NukeUser(n, user).Ok? && Paying(n, user)
    ensures DissolveAll(d, user).Ok? ==> Agree(NukeUser(n, user).value, DissolveAll(d, user).value, done + {user})
  {
    hide Shares, Locked, DissolveAll, NukeUser, Released, Agree, MaUstShare;
    SameRecord(n, d, done, user);
    if user in n.users && n.users[user].totalUst > 0 {
      DissolveAllReleases(d, user);
      NukeUserForm(n, user);
      var info := n.users[user];
      var amount := SumSeq(info.positions, Shares(n.state, n.lockups));
      var unlocked := SumSeq(info.positions, Locked(n.lockups));
      if NukeUser(n, user).Ok? {
        var after := info.(totalUst := info.totalUst - unlocked, maUstShare := info.maUstShare - amount,
                           positions := []);
        ReleasedAgree(n, d, done, user, if after.totalUst == 0 then None else Some(after),
                      info.(maUstShare := info.maUstShare - amount, positions := []),
                      (set id | id in info.positions), amount);
      }
    } else {
      NothingToUnwind(n, d, done, user);
    }
  }

  lemma SameRecord(n: World, d: World, done: set<Addr>, user: Addr)
    requires Agree(n, d, done) && user !in done
    ensures user in n.users <==> user in d.users
    ensures user in n.users ==>
              n.users[user] == d.users[user] && n.lockups == d.lockups && n.state == d.state && n.ledger == d.ledger
  {
    assert user in n.users.Keys + d.users.Keys <==> user in n.users || user in d.users;
  }

  lemma NothingToUnwind(n: World, d: World, done: set<Addr>, user: Addr)
    requires Agree(n, d, done) && user !in done && Unwindable(n, user)
    requires user in n.users ==> n.users[user].totalUst == 0
    ensures NukeUser(n, user) == Ok(n.(users := n.users - {user})) && DissolveAll(d, user) == Ok(d)
    ensures Agree(n.(users := n.users - {user}), d, done + {user})
  {
  }

  /** Unwinding a user leaves the others unwindable. */
  lemma OthersUnwindable(w: World, user: Addr, other: Addr)
    requires Unwindable(w, user) && Unwindable(w, other) && user != other && NukeUser(w, user).Ok?
    ensures Unwindable(NukeUser(w, user).value, other)
  {
    hide Shares;
    var r := NukeUser(w, user).value;
    if other in r.users {
      SumSeqSame(w.users[other].positions, Locked(w.lockups), Locked(r.lockups));
    }
  }

  lemma OthersPaying(w: World, user: Addr, other: Addr)
    requires Unwindable(w, user) && Unwindable(w, other) && user != other && NukeUser(w, user).Ok?
    ensures Paying(NukeUser(w, user).value, other) <==> Paying(w, other)
  {
    var r := NukeUser(w, user).value;
    SameRatio(w.state, r.state);
    hide MaUstShare, Shares, Locked;
    assert Lookup(r.users, other) == Lookup(w.users, other);
    assert forall id :: id in Lookup(w.users, other).positions ==> LockupOf(r.lockups, id) == LockupOf(w.lockups, id);
  }

  lemma {:induction false} NukeRefinesFrom(n: World, d: World, done: set<Addr>, page: seq<Addr>)
    requires Agree(n, d, done) && Distinct(page) && (forall u :: u in page ==> u !in done && Unwindable(n, u))
    ensures DissolveUsers(d, page).Ok? <==> Nuke(n, page).Ok? && forall u :: u in page ==> Paying(n, u)
    ensures DissolveUsers(d, page).Ok? ==>
              Agree(Nuke(n, page).value, DissolveUsers(d, page).value, done + (set u | u in page))
    decreases |page|
  {
    hide NukeUser, DissolveAll, Agree, Unwindable, Paying;
    if page == [] {
      assert done + (set u | u in page) == done;
    } else {
      NukeUserRefines(n, d, done, page[0]);
      if NukeUser(n, page[0]).Ok? {
        var r := NukeUser(n, page[0]).value;
        forall u | u in page[1..] ensures Unwindable(r, u) && (Paying(r, u) <==> Paying(n, u)) {
          OthersUnwindable(n, page[0], u);
          OthersPaying(n, page[0], u);
        }
        assert forall u :: u in page <==> u == page[0] || u in page[1..];
        if DissolveAll(d, page[0]).Ok? {
          NukeRefinesFrom(r, DissolveAll(d, page[0]).value, done + {page[0]}, page[1..]);
        }
        assert done + {page[0]} + (set u | u in page[1..]) == done + (set u | u in page);
      }
    }
  }

  /**
   Dissolving each listed position of each user in turn succeeds exactly when the batch does and every
   one of the positions has a share that is not zero; then the effect is the same.
   */
  lemma NukeRefinesDissolving(w: World, page: seq<Addr>)
    requires Sound(w) && Distinct(page)
    ensures DissolveUsers(w, page).Ok? <==> Nuke(w, page).Ok? && forall u :: u in page ==> Paying(w, u)
    ensures DissolveUsers(w, page).Ok? ==> Agree(Nuke(w, page).value, DissolveUsers(w, page).value, set u | u in page)
  {
    hide Sound, Unwindable, Paying;
    forall u | u in page ensures Unwindable(w, u) {
      SoundUnwindable(w, u);
    }
    NukeRefinesFrom(w, w, {}, page);
    assert {} + (set u | u in page) == set u | u in page;
  }

  // ---------------------------------------------------------------- when a batch succeeds

  /** There is nothing to pay this user, or its maUST share has been materialised and is not used up. */
  predicate CanUnwind(w: World, user: Addr) {
    var info := Lookup(w.users, user);
    info.totalUst == 0 || info.maUstShare > 0 || SumSeq(info.positions, Shares(w.state, w.lockups)) == 0
  }

  lemma OthersCanUnwind(w: World, user: Addr, other: Addr)
    requires Unwindable(w, user) && Unwindable(w, other) && user != other && NukeUser(w, user).Ok?
    ensures CanUnwind(NukeUser(w, user).value, other) <==> CanUnwind(w, other)
  {
    hide MaUstShare, Locked;
    var r := NukeUser(w, user).value;
    if other in w.users {
      SharesByMint(w.state, r.state, r.lockups);
      hide NukeUser;
      OthersShares(w, user, other, r);
    }
  }

  lemma OthersShares(w: World, user: Addr, other: Addr, r: World)
    requires Unwindable(w, user) && Unwindable(w, other) && user != other
    requires NukeUser(w, user) == Ok(r) && other in w.users
    ensures SumSeq(w.users[other].positions, Shares(w.state, r.lockups))
         == SumSeq(w.users[other].positions, Shares(w.state, w.lockups))
  {
    hide MaUstShare, Locked;
    assert forall id :: id in w.users[other].positions ==> id in r.lockups && r.lockups[id] == w.lockups[id];
    SumSeqSame(w.users[other].positions, Shares(w.state, w.lockups), Shares(w.state, r.lockups));
  }

  /** A batch succeeds exactly when no user of the page has shares left but none materialised. */
  lemma {:induction false} NukeSucceeds(w: World, page: seq<Addr>)
    requires Sound(w) && w.state.finalMaUst > 0 && Distinct(page)
    ensures Nuke(w, page).Ok? <==> forall u :: u in page ==> CanUnwind(w, u)
    decreases |page|
  {
    hide Sound, NukeUser, Unwindable;
    if page != [] {
      NukeUserSound(w, page[0]);
      assert NukeUser(w, page[0]).Ok? <==> CanUnwind(w, page[0]);
      hide CanUnwind;
      if NukeUser(w, page[0]).Ok? {
        var r := NukeUser(w, page[0]).value;
        NukeSucceeds(r, page[1..]);
        forall u | u in page[1..] ensures CanUnwind(r, u) <==> CanUnwind(w, u) {
          SoundUnwindable(w, page[0]);
          SoundUnwindable(w, u);
          OthersCanUnwind(w, page[0], u);
        }
      }
    }
  }
}
