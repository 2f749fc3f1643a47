/** Sign-ups and logins that nothing disturbs, as runs of the machine: they go through, and
    come to what AccountsDb says of one operation run on its own. */
module AccountRuns {
  import opened Options
  import opened Accounts
  import opened AccountsDb
  import opened LoginRaces

  // ---- Sign-up ----

  function SigningUp(id: nat, email: string, key: nat): seq<Step> {
    [BeginSignup(id, email), Insert(id, key)]
  }

  lemma {:induction false} SignupInserts(s: State, id: nat, email: string, key: nat)
    requires s.txs == map[] && key !in s.users
    ensures LegalRun(s, SigningUp(id, email, key))
    ensures Run(s, SigningUp(id, email, key))
            == if HasEmail(s, email) then s
               else Put(s, id, Opening(email, None).(phase := Provision, path := NewUser, user := key, created := true))
  {
    var s1 := Put(s, id, Opening(email, None));
    assert HasEmail(s1, email) == HasEmail(s, email);
    TwoSteps(s, BeginSignup(id, email), Insert(id, key));
    var s2 := Next(s1, Insert(id, key));
    if HasEmail(s, email) { assert s2.txs == map[]; } else { assert s2.txs == map[id := s2.txs[id]]; }
  }

  lemma {:induction false} SignupCommits(s: State, id: nat, email: string, key: nat)
    requires s.txs == map[] && key !in s.grants
    ensures var made := Put(s, id, Opening(email, None).(phase := Provision, path := NewUser, user := key, created := true));
            && LegalRun(made, [ApplyEffects(id), Commit(id)])
            && Run(made, [ApplyEffects(id), Commit(id)])
               == State(s.users[key := User(email, false)], s.grants + multiset{key}, s.links, map[])
  {
    var made := Put(s, id, Opening(email, None).(phase := Provision, path := NewUser, user := key, created := true));
    TwoSteps(made, ApplyEffects(id), Commit(id));
    assert Run(made, [ApplyEffects(id), Commit(id)]).txs == map[];
  }

  // A new email: the user and his grant appear together. A known one: nothing does.
  lemma {:induction false} UndisturbedSignup(s: State, id: nat, email: string, key: nat)
    requires Committed(s) && s.txs == map[] && key !in s.users
    ensures LegalRun(s, SigningUp(id, email, key))
    ensures HasEmail(s, email) ==> Run(s, SigningUp(id, email, key)) == s
    ensures !HasEmail(s, email) ==>
              var steps := SigningUp(id, email, key) + [ApplyEffects(id), Commit(id)];
              && LegalRun(s, steps)
              && Run(s, steps) == State(s.users[key := User(email, false)], s.grants + multiset{key}, s.links, map[])
  {
    SignupInserts(s, id, email, key);
    if !HasEmail(s, email) {
      assert s.grants[key] == 0;
      SignupCommits(s, id, email, key);
      RunSplit(s, SigningUp(id, email, key), [ApplyEffects(id), Commit(id)]);
    }
  }

  // ---- Login ----

  // What a login leaves, by the user and the branch it finds.
  ghost function LoggedIn(s: State, email: string, identity: Identity, user: nat, path: Path): State {
    State(UsersAfter(s, email, user, path), if path == NewUser then s.grants + multiset{user} else s.grants,
          s.links[identity := user], map[])
  }

  // The transaction with its user found, and locked if it was found by its email.
  function Provisioning(email: string, identity: Identity, user: nat, path: Path, locked: bool): Tx {
    Opening(email, Some(identity)).(phase := Provision, path := path, user := user, locked := locked)
  }

  function EndOfLogin(id: nat, path: Path): seq<Step> {
    if path == ExistingOAuth then [ApplyEffects(id), Commit(id)] else [ApplyEffects(id)] + Linking(id)
  }

  // An active user of a known identity: nothing is written.
  lemma {:induction false} EndsKnown(s: State, s1: State, id: nat, email: string, identity: Identity, user: nat)
    requires s.txs == map[] && identity in s.links && s.links[identity] == user
    requires s1 == Put(s, id, Provisioning(email, identity, user, ExistingOAuth, false))
    ensures LegalRun(s1, EndOfLogin(id, ExistingOAuth))
    ensures Run(s1, EndOfLogin(id, ExistingOAuth)) == LoggedIn(s, email, identity, user, ExistingOAuth)
  {
    TwoSteps(s1, ApplyEffects(id), Commit(id));
    assert Run(s1, EndOfLogin(id, ExistingOAuth)).txs == map[] && s.links[identity := user] == s.links;
  }

  // The transaction after its effects.
  function Affected(tx: Tx): Tx {
    tx.(phase := Link, revived := tx.path == Reactivated, locked := tx.locked || tx.path == Reactivated)
  }

  lemma {:induction false} AffectsFound(s: State, id: nat, tx: Tx)
    requires s.txs == map[] && tx.phase == Provision && tx.path in {LinkedExisting, Reactivated} && !tx.revived
    ensures var s1 := Put(s, id, tx);
            && LegalRun(s1, [ApplyEffects(id)]) && Run(s1, [ApplyEffects(id)]) == Put(s, id, Affected(tx))
  {
    var s1 := Put(s, id, tx);
    RunSnoc(s1, [], ApplyEffects(id));
    assert [] + [ApplyEffects(id)] == [ApplyEffects(id)];
    assert Next(s1, ApplyEffects(id)).txs == map[id := Affected(tx)];
  }

  lemma {:induction false} LinksFound(s: State, id: nat, email: string, identity: Identity, user: nat, tx: Tx)
    requires s.txs == map[] && user in s.users && tx.path in {LinkedExisting, Reactivated} && !tx.created && !tx.granted
    requires tx.phase == Link && tx.identity == Some(identity) && tx.user == user && (tx.revived <==> tx.path == Reactivated)
    requires identity in s.links ==> s.links[identity] == user
    ensures LegalRun(Put(s, id, tx), Linking(id))
    ensures Run(Put(s, id, tx), Linking(id)) == LoggedIn(s, email, identity, user, tx.path)
  {
    var s2 := Put(s, id, tx);
    TwoSteps(s2, LinkAccount(id), Commit(id));
    assert [LinkAccount(id)] + [Commit(id)] == [LinkAccount(id), Commit(id)];
    assert Run(s2, Linking(id)).txs == map[];
    assert identity in s.links ==> s.links[identity := user] == s.links;
  }

  // From there to the commit.
  lemma {:induction false} EndsLogin(s: State, s1: State, id: nat, email: string, identity: Identity, user: nat,
                                     path: Path,
                                     locked: bool)
    requires s.txs == map[] && user in s.users && path in {ExistingOAuth, LinkedExisting, Reactivated}
    requires s1 == Put(s, id, Provisioning(email, identity, user, path, locked)) && (path == ExistingOAuth ==> !locked)
    requires identity in s.links ==> s.links[identity] == user
    requires path == ExistingOAuth ==> identity in s.links
    ensures LegalRun(s1, EndOfLogin(id, path))
    ensures Run(s1, EndOfLogin(id, path)) == LoggedIn(s, email, identity, user, path)
  {
    if path == ExistingOAuth {
      EndsKnown(s, s1, id, email, identity, user);
    } else {
      var tx := Provisioning(email, identity, user, path, locked);
      AffectsFound(s, id, tx);
      LinksFound(s, id, email, identity, user, Affected(tx));
      RunSplit(s1, [ApplyEffects(id)], Linking(id));
    }
  }

  // A known identity.
  lemma {:induction false} KnownIdentity(s: State, id: nat, email: string, identity: Identity)
    returns (steps: seq<Step>, path: Path)
    requires Committed(s) && s.txs == map[] && identity in s.links
    ensures path == if s.users[s.links[identity]].deleted then Reactivated else ExistingOAuth
    ensures LegalRun(s, steps) && Run(s, steps) == LoggedIn(s, email, identity, s.links[identity], path)
  {
    var user := s.links[identity];
    path := PathFor(s.users[user], ExistingOAuth);
    var finding := [BeginLogin(id, email, identity), FindLink(id)];
    FindsLink(s, id, email, identity);
    var s1 := Put(s, id, FoundTx(email, identity, user));
    var s2 := Put(s, id, Provisioning(email, identity, user, path, false));
    assert Next(s1, LoadUser(id)).txs == s2.txs;
    RunSnoc(s, finding, LoadUser(id));
    EndsLogin(s, s2, id, email, identity, user, path, false);
    RunSplit(s, finding + [LoadUser(id)], EndOfLogin(id, path));
    steps := (finding + [LoadUser(id)]) + EndOfLogin(id, path);
  }

  // A known email.
  lemma {:induction false} KnownEmail(s: State, id: nat, email: string, identity: Identity)
    returns (steps: seq<Step>, user: nat, path: Path)
    requires s.txs == map[] && identity !in s.links && HasEmail(s, email)
    ensures IsUserOf(s, user, email) && path == if s.users[user].deleted then Reactivated else LinkedExisting
    ensures LegalRun(s, steps) && Run(s, steps) == LoggedIn(s, email, identity, user, path)
  {
    var finding := [BeginLogin(id, email, identity), FindLink(id)];
    Searches(s, id, email, identity);
    var s1 := Put(s, id, Opening(email, Some(identity)).(phase := ByEmail));
    assert HasEmail(s1, email);
    var s2 := Next(s1, SelectByEmail(id));
    user, path := s2.txs[id].user, s2.txs[id].path;
    assert s2.txs == Put(s, id, Provisioning(email, identity, user, path, true)).txs;
    RunSnoc(s, finding, SelectByEmail(id));
    EndsLogin(s, s2, id, email, identity, user, path, true);
    RunSplit(s, finding + [SelectByEmail(id)], EndOfLogin(id, path));
    steps := (finding + [SelectByEmail(id)]) + EndOfLogin(id, path);
  }

  // Neither.
  lemma {:induction false} NewIdentityAndEmail(s: State, id: nat, email: string, identity: Identity, key: nat)
    returns (steps: seq<Step>)
    requires Committed(s) && s.txs == map[] && identity !in s.links && !HasEmail(s, email) && key !in s.users
    ensures LegalRun(s, steps) && Run(s, steps) == LoggedIn(s, email, identity, key, NewUser)
  {
    assert s.grants[key] == 0;
    Creates(s, id, email, identity, key);
    var s1 := Put(s, id, NewUserTx(email, identity, key));
    Links(s1, id, email, identity, key);
    RunSplit(s, Creating(id, email, identity, key), Linking(id));
    steps := Creating(id, email, identity, key) + Linking(id);
    assert s1.txs - {id} == map[];
  }

  // Whatever is committed, a login that nothing disturbs goes through, by the branch and
  // with the effects of one run on its own.
  lemma {:induction false} UndisturbedLogin(s: State, id: nat, email: string, identity: Identity, key: nat)
    returns (steps: seq<Step>, user: nat, path: Path)
    requires Committed(s) && s.txs == map[] && key !in s.users
    ensures IsLogin(s, email, identity, key, user, path)
    ensures LegalRun(s, steps) && Run(s, steps) == LoggedIn(s, email, identity, user, path)
  {
    if identity in s.links {
      steps, path := KnownIdentity(s, id, email, identity);
      user := s.links[identity];
    } else if HasEmail(s, email) {
      steps, user, path := KnownEmail(s, id, email, identity);
    } else {
      steps := NewIdentityAndEmail(s, id, email, identity, key);
      user, path := key, NewUser;
    }
  }

  // ---- Nothing shows before the commit ----

  predicate Publishes(step: Step) { step.Commit? || step.Delete? || step.EnsureGrant? }

  // Whatever transactions do, and however they are rolled back, users, grants and links are
  // as they were until one commits or an account is deleted.
  lemma {:induction false} NothingShows(s: State, steps: seq<Step>)
    requires LegalRun(s, steps) && forall i | 0 <= i < |steps| :: !Publishes(steps[i])
    ensures var s' := Run(s, steps); s'.users == s.users && s'.grants == s.grants && s'.links == s.links
    decreases |steps|
  {
    if steps == [] {
    } else {
      assert !Publishes(steps[0]) && forall i | 0 <= i < |steps[1..]| :: steps[1..][i] == steps[i + 1];
      NothingShows(Next(s, steps[0]), steps[1..]);
    }
  }

  // A transaction that is rolled back gives up its email, its row and its identity: nobody
  // waits for them any longer.
  lemma {:induction false} RollbackFreesKeys(s: State, id: nat, other: nat)
    requires Inv(s) && id in s.txs
    ensures var tx, s' := s.txs[id], Next(s, Rollback(id));
            && s' == s.(txs := s'.txs) && s'.txs.Keys == s.txs.Keys - {id}
            && (forall k | k in s'.txs :: s'.txs[k] == s.txs[k])
            && (tx.created ==> EmailFree(s', other, tx.email))
            && (tx.locked ==> RowFree(s', other, tx.user))
            && (tx.linked && tx.identity.Some? ==> LinkFree(s', other, tx.identity.value))
  {
    forall k | k in s.txs && k != id ensures !Clash(s.txs[id], s.txs[k]) {
    }
  }

}
