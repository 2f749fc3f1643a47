/** Logins that end differently from how they read: one whose identity is another user's,
    and one of a deleted user. */
module LoginRaces {
  import opened Options
  import opened Accounts

  // ---- Composing runs ----

  lemma {:induction false} RunSnoc(s: State, steps: seq<Step>, step: Step)
    requires LegalRun(s, steps) && Enabled(Run(s, steps), step)
    ensures LegalRun(s, steps + [step]) && Run(s, steps + [step]) == Next(Run(s, steps), step)
    decreases |steps|
  {
    if steps == [] {
      assert [] + [step] == [step] && [step][1..] == [];
      assert LegalRun(Next(s, step), []);
    } else {
      assert (steps + [step])[1..] == steps[1..] + [step];
      RunSnoc(Next(s, steps[0]), steps[1..], step);
    }
  }

  lemma {:induction false} RunSplit(s: State, first: seq<Step>, rest: seq<Step>)
    requires LegalRun(s, first) && LegalRun(Run(s, first), rest)
    ensures LegalRun(s, first + rest) && Run(s, first + rest) == Run(Run(s, first), rest)
    decreases |first|
  {
    if first == [] {
      assert [] + rest == rest;
    } else {
      assert (first + rest)[1..] == first[1..] + rest;
      RunSplit(Next(s, first[0]), first[1..], rest);
    }
  }

  // ---- The parts of a login ----

  // A login that finds neither its identity nor its email, up to the link.
  function Creating(id: nat, email: string, identity: Identity, key: nat): seq<Step> {
    [BeginLogin(id, email, identity), FindLink(id)] + [SelectByEmail(id), Insert(id, key)] + [ApplyEffects(id)]
  }

  function Linking(id: nat): seq<Step> { [LinkAccount(id)] + [Commit(id)] }

  // The transaction at that point.
  function NewUserTx(email: string, identity: Identity, key: nat): Tx {
    Tx(email, Some(identity), Link, NewUser, key, true, true, false, false, false)
  }

  lemma {:induction false} TwoSteps(s: State, a: Step, b: Step)
    requires Enabled(s, a) && Enabled(Next(s, a), b)
    ensures LegalRun(s, [a, b]) && Run(s, [a, b]) == Next(Next(s, a), b)
  {
    RunSnoc(s, [], a);
    assert [] + [a] == [a];
    RunSnoc(s, [a], b);
    assert [a] + [b] == [a, b];
  }

  lemma {:induction false} Searches(s: State, id: nat, email: string, identity: Identity)
    requires id !in s.txs && identity !in s.links
    ensures var steps := [BeginLogin(id, email, identity), FindLink(id)];
            LegalRun(s, steps) && Run(s, steps) == Put(s, id, Opening(email, Some(identity)).(phase := ByEmail))
  {
    var begun := Put(s, id, Opening(email, Some(identity)));
    assert Put(begun, id, Opening(email, Some(identity)).(phase := ByEmail)).txs
        == Put(s, id, Opening(email, Some(identity)).(phase := ByEmail)).txs;
    TwoSteps(s, BeginLogin(id, email, identity), FindLink(id));
  }

  lemma {:induction false} Inserts(s: State, id: nat, key: nat)
    requires AtPhase(s, id, ByEmail) && s.txs[id].identity.Some? && !HasEmail(s, s.txs[id].email)
    requires EmailFree(s, id, s.txs[id].email) && KeyIsNew(s, key)
    ensures var steps := [SelectByEmail(id), Insert(id, key)];
            && LegalRun(s, steps)
            && Run(s, steps)
               == Put(s, id, s.txs[id].(phase := Provision, path := NewUser, user := key, created := true))
  {
    var tx := s.txs[id];
    assert forall u :: !IsUserOf(s, u, tx.email);
    var s1 := Next(s, SelectByEmail(id));
    assert s1 == Put(s, id, tx.(phase := Create));
    assert !HasEmail(s1, tx.email) && EmailFree(s1, id, tx.email);
    var made := tx.(phase := Provision, path := NewUser, user := key, created := true);
    assert Put(s1, id, made).txs == Put(s, id, made).txs;
    TwoSteps(s, SelectByEmail(id), Insert(id, key));
  }

  lemma {:induction false} Creates(s: State, id: nat, email: string, identity: Identity, key: nat)
    requires id !in s.txs && identity !in s.links && !HasEmail(s, email)
    requires EmailFree(s, id, email) && KeyIsNew(s, key) && key !in s.grants
    ensures LegalRun(s, Creating(id, email, identity, key))
    ensures Run(s, Creating(id, email, identity, key)) == Put(s, id, NewUserTx(email, identity, key))
  {
    var opening := Opening(email, Some(identity)).(phase := ByEmail);
    var s1 := Put(s, id, opening);
    Searches(s, id, email, identity);
    assert !HasEmail(s1, email) && KeyIsNew(s1, key);
    Inserts(s1, id, key);
    RunSplit(s, [BeginLogin(id, email, identity), FindLink(id)], [SelectByEmail(id), Insert(id, key)]);
    var made := opening.(phase := Provision, path := NewUser, user := key, created := true);
    var s2 := Put(s1, id, made);
    assert Next(s2, ApplyEffects(id)).txs == Put(s, id, NewUserTx(email, identity, key)).txs;
    RunSnoc(s, [BeginLogin(id, email, identity), FindLink(id)] + [SelectByEmail(id), Insert(id, key)], ApplyEffects(id));
  }

  // The end of such a login. An identity that is linked by now stays as it is.
  lemma {:induction false} Links(s: State, id: nat, email: string, identity: Identity, key: nat)
    requires id in s.txs && s.txs[id] == NewUserTx(email, identity, key) && LinkFree(s, id, identity)
    ensures LegalRun(s, Linking(id))
    ensures Run(s, Linking(id))
            == State(s.users[key := User(email, false)], s.grants + multiset{key},
                     if identity in s.links then s.links else s.links[identity := key], s.txs - {id})
  {
    assert (s.txs[id := NewUserTx(email, identity, key).(phase := Finish, linked := identity !in s.links)]) - {id}
        == s.txs - {id};
    TwoSteps(s, LinkAccount(id), Commit(id));
  }

  // ---- One identity, two users ----

  function TwoFirstLogins(a: string, b: string, identity: Identity): seq<Step> {
    (Creating(1, a, identity, 1) + Creating(2, b, identity, 2)) + (Linking(1) + Linking(2))
  }

  lemma {:induction false} BothCreate(a: string, b: string, identity: Identity)
    requires a != b
    ensures var steps := Creating(1, a, identity, 1) + Creating(2, b, identity, 2);
            && LegalRun(EMPTY, steps)
            && Run(EMPTY, steps)
               == State(map[], multiset{}, map[], map[1 := NewUserTx(a, identity, 1), 2 := NewUserTx(b, identity, 2)])
  {
    var s1 := Put(EMPTY, 1, NewUserTx(a, identity, 1));
    Creates(EMPTY, 1, a, identity, 1);
    Creates(s1, 2, b, identity, 2);
    RunSplit(EMPTY, Creating(1, a, identity, 1), Creating(2, b, identity, 2));
  }

  lemma {:induction false} BothLink(s: State, a: string, b: string, identity: Identity)
    requires s == State(map[], multiset{}, map[], map[1 := NewUserTx(a, identity, 1), 2 := NewUserTx(b, identity, 2)])
    ensures var steps := Linking(1) + Linking(2);
            && LegalRun(s, steps)
            && Run(s, steps)
               == State(map[1 := User(a, false), 2 := User(b, false)], multiset{1, 2}, map[identity := 1], map[])
  {
    Links(s, 1, a, identity, 1);
    var s1 := Run(s, Linking(1));
    assert s1.links == map[identity := 1] && s1.txs == map[2 := NewUserTx(b, identity, 2)];
    Links(s1, 2, b, identity, 2);
    RunSplit(s, Linking(1), Linking(2));
    var s2 := Run(s1, Linking(2));
    assert s2.users == map[1 := User(a, false), 2 := User(b, false)] && s2.txs == map[];
  }

  // Two first logins with one identity and two emails: both miss the link and create a
  // user. The second one's link is refused, silently: it is logged in as a user of its
  // own, and the next login with that identity will be the other's.
  lemma {:induction false} IdentityOfAnotherUser(a: string, b: string, identity: Identity)
    requires a != b
    ensures LegalRun(EMPTY, TwoFirstLogins(a, b, identity))
    ensures Run(EMPTY, TwoFirstLogins(a, b, identity))
            == State(map[1 := User(a, false), 2 := User(b, false)], multiset{1, 2}, map[identity := 1], map[])
  {
    var first := Creating(1, a, identity, 1) + Creating(2, b, identity, 2);
    BothCreate(a, b, identity);
    BothLink(Run(EMPTY, first), a, b, identity);
    RunSplit(EMPTY, first, Linking(1) + Linking(2));
  }

  // ---- A login of a deleted user ----

  function OvertakenLogin(id: nat, email: string, identity: Identity, user: nat): seq<Step> {
    ([BeginLogin(id, email, identity), FindLink(id)] + [LoadUser(id), Delete(user)]) + [ApplyEffects(id), Commit(id)]
  }

  // That login's transaction, once it has found the link and once it has read the user.
  function FoundTx(email: string, identity: Identity, user: nat): Tx {
    Opening(email, Some(identity)).(phase := Found, user := user)
  }

  function ReadTx(email: string, identity: Identity, user: nat): Tx {
    FoundTx(email, identity, user).(phase := Provision, path := ExistingOAuth)
  }

  lemma {:induction false} FindsLink(s: State, id: nat, email: string, identity: Identity)
    requires id !in s.txs && identity in s.links
    ensures var steps := [BeginLogin(id, email, identity), FindLink(id)];
            LegalRun(s, steps) && Run(s, steps) == Put(s, id, FoundTx(email, identity, s.links[identity]))
  {
    var begun := Put(s, id, Opening(email, Some(identity)));
    var found := FoundTx(email, identity, s.links[identity]);
    assert Put(begun, id, found).txs == Put(s, id, found).txs;
    TwoSteps(s, BeginLogin(id, email, identity), FindLink(id));
  }

  lemma {:induction false} ReadsThenLoses(s: State, id: nat, email: string, identity: Identity, u: nat)
    requires id !in s.txs && u in s.users && !s.users[u].deleted && RowFree(s, id, u)
    ensures var steps := [LoadUser(id), Delete(u)];
            var s1 := Put(s, id, FoundTx(email, identity, u));
            && LegalRun(s1, steps)
            && Run(s1, steps)
               == Put(s, id, ReadTx(email, identity, u)).(users := s.users[u := s.users[u].(deleted := true)])
  {
    var s1 := Put(s, id, FoundTx(email, identity, u));
    var s2 := Put(s, id, ReadTx(email, identity, u));
    assert Next(s1, LoadUser(id)).txs == s2.txs;
    TwoSteps(s1, LoadUser(id), Delete(u));
  }

  lemma {:induction false} CommitsAnyway(s: State, id: nat, email: string, identity: Identity, u: nat)
    requires id !in s.txs
    ensures var steps := [ApplyEffects(id), Commit(id)];
            var s1 := Put(s, id, ReadTx(email, identity, u));
            LegalRun(s1, steps) && Run(s1, steps) == s
  {
    var s1 := Put(s, id, ReadTx(email, identity, u));
    assert (s1.txs[id := ReadTx(email, identity, u).(phase := Finish)]) - {id} == s.txs;
    TwoSteps(s1, ApplyEffects(id), Commit(id));
  }

  // A known identity's branch locks nothing: while no transaction has locked its user's
  // row, a deletion between the read and the commit leaves him deleted and logged in.
  lemma {:induction false} DeletionOvertakesLogin(s: State, id: nat, identity: Identity, email: string)
    requires id !in s.txs && identity in s.links && s.links[identity] in s.users
    requires !s.users[s.links[identity]].deleted && RowFree(s, id, s.links[identity])
    ensures var u := s.links[identity];
            var steps := OvertakenLogin(id, email, identity, u);
            && LegalRun(s, steps)
            && Run(s, steps) == s.(users := s.users[u := s.users[u].(deleted := true)])
  {
    var u := s.links[identity];
    var first, second := [BeginLogin(id, email, identity), FindLink(id)], [LoadUser(id), Delete(u)];
    FindsLink(s, id, email, identity);
    ReadsThenLoses(s, id, email, identity, u);
    RunSplit(s, first, second);
    CommitsAnyway(s.(users := s.users[u := s.users[u].(deleted := true)]), id, email, identity, u);
    RunSplit(s, first + second, [ApplyEffects(id), Commit(id)]);
  }

  // From the empty tables: a first login, and a second one overtaken.
  lemma {:induction false} DeletedAndLoggedIn(email: string, identity: Identity)
    ensures var steps := (Creating(1, email, identity, 1) + Linking(1)) + OvertakenLogin(2, email, identity, 1);
            && LegalRun(EMPTY, steps)
            && Run(EMPTY, steps)
               == State(map[1 := User(email, true)], multiset{1}, map[identity := 1], map[])
  {
    var s1 := Put(EMPTY, 1, NewUserTx(email, identity, 1));
    Creates(EMPTY, 1, email, identity, 1);
    Links(s1, 1, email, identity, 1);
    RunSplit(EMPTY, Creating(1, email, identity, 1), Linking(1));
    var s2 := State(map[1 := User(email, false)], multiset{1}, map[identity := 1], map[]);
    assert Run(s1, Linking(1)) == s2;
    DeletionOvertakesLogin(s2, 2, identity, email);
    RunSplit(EMPTY, Creating(1, email, identity, 1) + Linking(1), OvertakenLogin(2, email, identity, 1));
  }
}
