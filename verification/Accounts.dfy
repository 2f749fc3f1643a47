/** Sign-up, OAuth login and soft deletion as transactions that run at once. A step is
    one statement; what a transaction has written is seen by others when it commits,
    and until then a unique key it has taken, or a row it has locked, makes them wait. */
module Accounts {
  import opened Options

  datatype User = User(email: string, deleted: bool)

  datatype Identity = Identity(provider: string, id: string)

  datatype Path = Undecided | ExistingOAuth | LinkedExisting | Reactivated | NewUser

  // Start: look up the OAuth account; Found: load its user; ByEmail: select the user for
  // update; Create: insert; Reselect: select again after a lost race; Provision: the side
  // effects on the user; Link: the OAuth account; Finish: commit.
  datatype Phase = Start | Found | ByEmail | Create | Reselect | Provision | Link | Finish

  // `identity` is None for a sign-up. `created`, `granted`, `revived` and `linked` are
  // what it has written; `locked` says that it holds the lock of the row of `user`.
  datatype Tx = Tx(email: string, identity: Option<Identity>, phase: Phase, path: Path, user: nat,
                   created: bool, granted: bool, revived: bool, linked: bool, locked: bool)

  // What is committed (`grants` holds the owner of each free grant), and the transactions.
  datatype State = State(users: map<nat, User>, grants: multiset<nat>, links: map<Identity, nat>, txs: map<nat, Tx>)

  const EMPTY := State(map[], multiset{}, map[], map[])

  datatype Step =
    | BeginSignup(id: nat, email: string)
    | BeginLogin(id: nat, email: string, identity: Identity)
    | FindLink(id: nat)
    | LoadUser(id: nat)
    | SelectByEmail(id: nat)
    | Insert(id: nat, user: nat)
    | ApplyEffects(id: nat)
    | LinkAccount(id: nat)
    | Commit(id: nat)
    | Rollback(id: nat)
    | Delete(user: nat)
    | EnsureGrant(user: nat)

  predicate IsUserOf(s: State, u: nat, email: string) { u in s.users && s.users[u].email == email }

  predicate HasEmail(s: State, email: string) { exists u | u in s.users :: IsUserOf(s, u, email) }

  // ---- Waiting ----

  ghost predicate EmailFree(s: State, id: nat, email: string) {
    forall k | k in s.txs && k != id :: !(s.txs[k].created && s.txs[k].email == email)
  }

  ghost predicate RowFree(s: State, id: nat, u: nat) {
    forall k | k in s.txs && k != id :: !(s.txs[k].locked && s.txs[k].user == u)
  }

  ghost predicate LinkFree(s: State, id: nat, identity: Identity) {
    forall k | k in s.txs && k != id :: !(s.txs[k].linked && s.txs[k].identity == Some(identity))
  }

  // A generated key is new.
  ghost predicate KeyIsNew(s: State, u: nat) {
    u !in s.users && forall k | k in s.txs :: !(s.txs[k].created && s.txs[k].user == u)
  }

  predicate AtPhase(s: State, id: nat, phase: Phase) { id in s.txs && s.txs[id].phase == phase }

  ghost predicate Enabled(s: State, step: Step) {
    match step
    case BeginSignup(id, _) => id !in s.txs
    case BeginLogin(id, _, _) => id !in s.txs
    case FindLink(id) => AtPhase(s, id, Start)
    case LoadUser(id) => AtPhase(s, id, Found) && s.txs[id].user in s.users
    case SelectByEmail(id) =>
      && (AtPhase(s, id, ByEmail) || AtPhase(s, id, Reselect))
      && forall u | IsUserOf(s, u, s.txs[id].email) :: RowFree(s, id, u)
    case Insert(id, u) => AtPhase(s, id, Create) && EmailFree(s, id, s.txs[id].email) && KeyIsNew(s, u)
    case ApplyEffects(id) =>
      AtPhase(s, id, Provision) && (s.txs[id].path == Reactivated ==> RowFree(s, id, s.txs[id].user))
    case LinkAccount(id) =>
      AtPhase(s, id, Link) && s.txs[id].identity.Some? && LinkFree(s, id, s.txs[id].identity.value)
    case Commit(id) => AtPhase(s, id, Finish)
    case Rollback(id) => id in s.txs
    case Delete(u) => forall k | k in s.txs :: !(s.txs[k].locked && s.txs[k].user == u)
    case EnsureGrant(u) => u in s.users
  }

  // ---- Effects ----

  function Put(s: State, id: nat, tx: Tx): State { s.(txs := s.txs[id := tx]) }

  function End(s: State, id: nat): State { s.(txs := s.txs - {id}) }

  // The branch taken for a user that exists.
  function PathFor(user: User, found: Path): Path { if user.deleted then Reactivated else found }

  ghost function SelectNext(s: State, id: nat): State
    requires id in s.txs
  {
    var tx := s.txs[id];
    if HasEmail(s, tx.email) then
      var u :| IsUserOf(s, u, tx.email);
      Put(s, id, tx.(phase := Provision, path := PathFor(s.users[u], LinkedExisting), user := u, locked := true))
    else if tx.phase == ByEmail then Put(s, id, tx.(phase := Create))
    else End(s, id)
  }

  // CreateUser fails on a taken email; CreateOAuthUserOrNoop returns no row.
  function InsertNext(s: State, id: nat, u: nat): State
    requires id in s.txs
  {
    var tx := s.txs[id];
    if !HasEmail(s, tx.email) then Put(s, id, tx.(phase := Provision, path := NewUser, user := u, created := true))
    else if tx.identity.Some? then Put(s, id, tx.(phase := Reselect))
    else End(s, id)
  }

  function EffectsNext(s: State, id: nat): State
    requires id in s.txs
  {
    var tx := s.txs[id];
    match tx.path
    case NewUser =>
      Put(s, id, tx.(phase := if tx.identity.Some? then Link else Finish, granted := tx.user !in s.grants))
    case Reactivated => Put(s, id, tx.(phase := Link, revived := true, locked := true))
    case LinkedExisting => Put(s, id, tx.(phase := Link))
    case ExistingOAuth => Put(s, id, tx.(phase := Finish))
    case Undecided => End(s, id)
  }

  function CommitNext(s: State, id: nat): State
    requires id in s.txs
  {
    var tx := s.txs[id];
    var users :=
      if tx.created then s.users[tx.user := User(tx.email, false)]
      else if tx.revived && tx.user in s.users then s.users[tx.user := s.users[tx.user].(deleted := false)]
      else s.users;
    State(users,
          if tx.granted then s.grants + multiset{tx.user} else s.grants,
          if tx.linked && tx.identity.Some? then s.links[tx.identity.value := tx.user] else s.links,
          s.txs - {id})
  }

  function Opening(email: string, identity: Option<Identity>): Tx {
    Tx(email, identity, if identity.Some? then Start else Create, Undecided, 0, false, false, false, false, false)
  }

  ghost function Next(s: State, step: Step): State
    requires Enabled(s, step)
  {
    match step
    case BeginSignup(id, email) => Put(s, id, Opening(email, None))
    case BeginLogin(id, email, identity) => Put(s, id, Opening(email, Some(identity)))
    case FindLink(id) =>
      var tx := s.txs[id];
      if tx.identity.Some? && tx.identity.value in s.links
      then Put(s, id, tx.(phase := Found, user := s.links[tx.identity.value]))
      else Put(s, id, tx.(phase := ByEmail))
    case LoadUser(id) =>
      Put(s, id, s.txs[id].(phase := Provision, path := PathFor(s.users[s.txs[id].user], ExistingOAuth)))
    case SelectByEmail(id) => SelectNext(s, id)
    case Insert(id, u) => InsertNext(s, id, u)
    case ApplyEffects(id) => EffectsNext(s, id)
    case LinkAccount(id) =>
      Put(s, id, s.txs[id].(phase := Finish, linked := s.txs[id].identity.value !in s.links))
    case Commit(id) => CommitNext(s, id)
    case Rollback(id) => End(s, id)
    case EnsureGrant(u) => if u in s.grants then s else s.(grants := s.grants + multiset{u})
    case Delete(u) => if u in s.users then s.(users := s.users[u := s.users[u].(deleted := true)]) else s
  }

  ghost predicate LegalRun(s: State, steps: seq<Step>)
    decreases |steps|
  {
    steps == [] || (Enabled(s, steps[0]) && LegalRun(Next(s, steps[0]), steps[1..]))
  }

  ghost function Run(s: State, steps: seq<Step>): State
    requires LegalRun(s, steps)
    decreases |steps|
  {
    if steps == [] then s else Run(Next(s, steps[0]), steps[1..])
  }

  // ---- Invariants ----

  // What is committed: every user owns exactly one free grant and his email alone.
  ghost predicate Committed(s: State) {
    && (forall a, b | a in s.users && b in s.users && s.users[a].email == s.users[b].email :: a == b)
    && (forall u: nat :: s.grants[u] == if u in s.users then 1 else 0)
    && (forall i | i in s.links :: s.links[i] in s.users)
  }

  predicate LinkedTo(s: State, identity: Option<Identity>, u: nat) {
    identity.Some? && identity.value in s.links && s.links[identity.value] == u
  }

  // What a transaction knows of its user.
  predicate TxOk(s: State, tx: Tx) {
    && (tx.path == Undecided <==> tx.phase in {Start, Found, ByEmail, Create, Reselect})
    && (tx.phase == Found ==> tx.user in s.users)
    && (tx.phase == Reselect ==> HasEmail(s, tx.email) && tx.identity.Some?)
    && (tx.created <==> tx.path == NewUser)
    && (tx.created ==> tx.user !in s.users && !HasEmail(s, tx.email))
    && (tx.granted <==> tx.created && tx.phase in {Link, Finish})
    && (tx.path in {ExistingOAuth, LinkedExisting, Reactivated} ==> tx.user in s.users)
    && (tx.phase == Link ==> tx.identity.Some?)
    && (tx.linked ==> tx.phase == Finish && tx.identity.Some?)
    && (tx.locked ==> tx.user in s.users && tx.path in {LinkedExisting, Reactivated})
    && (tx.path in {ExistingOAuth, LinkedExisting, Reactivated} || tx.phase in {Start, Found, ByEmail} ==>
          tx.identity.Some?)
    && (tx.path == LinkedExisting ==> tx.locked && !s.users[tx.user].deleted && s.users[tx.user].email == tx.email)
    && (tx.path == Reactivated && tx.phase in {Link, Finish} ==> tx.locked && tx.revived)
    && (tx.revived ==> tx.path == Reactivated)
    && (tx.phase == Found || tx.path == ExistingOAuth ==> LinkedTo(s, tx.identity, tx.user))
    && (tx.linked ==> tx.identity.value !in s.links)
    && (tx.phase == Finish && tx.identity.Some? ==> tx.linked || tx.identity.value in s.links)
  }

  // Two transactions that hold the same key, row or link.
  predicate Clash(a: Tx, b: Tx) {
    || (a.created && b.created && (a.email == b.email || a.user == b.user))
    || (a.locked && b.locked && a.user == b.user)
    || (a.linked && b.linked && a.identity == b.identity)
  }

  ghost predicate TxsOk(s: State) {
    && (forall k | k in s.txs :: TxOk(s, s.txs[k]))
    && (forall j, k | j in s.txs && k in s.txs && j != k :: !Clash(s.txs[j], s.txs[k]))
  }

  ghost predicate Inv(s: State) { Committed(s) && TxsOk(s) }

  lemma {:induction false} EmailsStay(s: State, s': State, email: string)
    requires s'.users.Keys == s.users.Keys && forall v | v in s.users :: s'.users[v].email == s.users[v].email
    ensures HasEmail(s', email) == HasEmail(s, email)
  {
  }

  lemma {:induction false} SameForTx(s: State, s': State, tx: Tx)
    requires s'.users == s.users && s'.links == s.links && TxOk(s, tx)
    ensures TxOk(s', tx)
  {
  }

  // A transaction that has committed nothing changes one entry of `txs`.
  lemma {:induction false} PutKeeps(s: State, id: nat, tx: Tx)
    requires Inv(s) && TxOk(s, tx)
    requires forall k | k in s.txs && k != id :: !Clash(tx, s.txs[k])
    ensures Inv(Put(s, id, tx))
  {
    var s' := Put(s, id, tx);
    forall k | k in s'.txs ensures TxOk(s', s'.txs[k]) {
      SameForTx(s, s', if k == id then tx else s.txs[k]);
    }
  }

  lemma {:induction false} EndKeeps(s: State, id: nat)
    requires Inv(s)
    ensures Inv(End(s, id))
  {
    var s' := End(s, id);
    forall k | k in s'.txs ensures TxOk(s', s'.txs[k]) {
      SameForTx(s, s', s.txs[k]);
    }
  }

  lemma {:induction false} SelectKeeps(s: State, id: nat)
    requires Inv(s) && Enabled(s, SelectByEmail(id))
    ensures Inv(Next(s, SelectByEmail(id)))
  {
    var tx := s.txs[id];
    assert TxOk(s, tx);
    if HasEmail(s, tx.email) {
      var tx' := Next(s, SelectByEmail(id)).txs[id];
      assert IsUserOf(s, tx'.user, tx.email) && RowFree(s, id, tx'.user);
      PutKeeps(s, id, tx');
    } else if tx.phase == ByEmail {
      PutKeeps(s, id, tx.(phase := Create));
    }
  }

  lemma {:induction false} InsertKeeps(s: State, id: nat, u: nat)
    requires Inv(s) && Enabled(s, Insert(id, u))
    ensures Inv(Next(s, Insert(id, u)))
  {
    var tx := s.txs[id];
    assert TxOk(s, tx);
    if !HasEmail(s, tx.email) {
      PutKeeps(s, id, tx.(phase := Provision, path := NewUser, user := u, created := true));
    } else if tx.identity.Some? {
      PutKeeps(s, id, tx.(phase := Reselect));
    } else {
      EndKeeps(s, id);
    }
  }

  lemma {:induction false} EffectsKeep(s: State, id: nat)
    requires Inv(s) && Enabled(s, ApplyEffects(id))
    ensures Inv(Next(s, ApplyEffects(id)))
  {
    var tx := s.txs[id];
    assert TxOk(s, tx);
    assert tx.created ==> s.grants[tx.user] == 0;
    var s' := EffectsNext(s, id);
    if tx.path != Undecided {
      PutKeeps(s, id, s'.txs[id]);
    }
  }

  // A commit publishes a user together with his grant.
  lemma {:induction false} CommitKeepsCommitted(s: State, id: nat)
    requires Inv(s) && Enabled(s, Commit(id))
    ensures Committed(CommitNext(s, id))
  {
    var tx := s.txs[id];
    var s' := CommitNext(s, id);
    assert TxOk(s, tx);
    assert tx.created <==> tx.granted;
    forall u: nat ensures s'.grants[u] == if u in s'.users then 1 else 0 {
      assert s.grants[u] == if u in s.users then 1 else 0;
    }
    forall a, b | a in s'.users && b in s'.users && s'.users[a].email == s'.users[b].email ensures a == b {
      if tx.created {
        assert a != tx.user ==> s.users[a].email != tx.email;
        assert b != tx.user ==> s.users[b].email != tx.email;
      }
    }
  }

  lemma {:induction false} CommitEmails(s: State, id: nat, email: string)
    requires Inv(s) && Enabled(s, Commit(id))
    ensures HasEmail(CommitNext(s, id), email)
            <==> HasEmail(s, email) || (s.txs[id].created && s.txs[id].email == email)
  {
    var tx := s.txs[id];
    var s' := CommitNext(s, id);
    assert TxOk(s, tx);
    if HasEmail(s, email) {
      var u :| u in s.users && IsUserOf(s, u, email);
      assert IsUserOf(s', u, email);
    }
    if tx.created { assert IsUserOf(s', tx.user, tx.email); }
    if HasEmail(s', email) {
      var u :| u in s'.users && IsUserOf(s', u, email);
      assert u == tx.user || IsUserOf(s, u, email);
    }
  }

  lemma {:induction false} CommitKeepsTx(s: State, id: nat, k: nat)
    requires Inv(s) && Enabled(s, Commit(id)) && k in s.txs && k != id
    ensures TxOk(CommitNext(s, id), s.txs[k])
  {
    assert TxOk(s, s.txs[id]) && TxOk(s, s.txs[k]);
    CommitEmails(s, id, s.txs[k].email);
  }

  lemma {:induction false} CommitKeepsTxs(s: State, id: nat)
    requires Inv(s) && Enabled(s, Commit(id))
    ensures TxsOk(CommitNext(s, id))
  {
    var s' := CommitNext(s, id);
    forall k | k in s'.txs ensures TxOk(s', s'.txs[k]) {
      CommitKeepsTx(s, id, k);
    }
  }

  lemma {:induction false} DeleteKeeps(s: State, u: nat)
    requires Inv(s) && Enabled(s, Delete(u))
    ensures Inv(Next(s, Delete(u)))
  {
    var s' := Next(s, Delete(u));
    assert forall v | v in s.users :: v in s'.users && s'.users[v].email == s.users[v].email;
    forall k | k in s'.txs ensures TxOk(s', s'.txs[k]) {
      assert TxOk(s, s.txs[k]);
      EmailsStay(s, s', s.txs[k].email);
    }
  }

  lemma {:induction false} ReadKeeps(s: State, step: Step)
    requires Inv(s) && Enabled(s, step) && (step.FindLink? || step.LoadUser? || step.LinkAccount?)
    ensures Inv(Next(s, step))
  {
    assert TxOk(s, s.txs[step.id]);
    PutKeeps(s, step.id, Next(s, step).txs[step.id]);
  }

  lemma {:induction false} StepKeepsInv(s: State, step: Step)
    requires Inv(s) && Enabled(s, step)
    ensures Inv(Next(s, step))
  {
    match step
    case BeginSignup(id, email) => PutKeeps(s, id, Opening(email, None));
    case BeginLogin(id, email, identity) => PutKeeps(s, id, Opening(email, Some(identity)));
    case FindLink(id) => ReadKeeps(s, step);
    case LoadUser(id) => ReadKeeps(s, step);
    case SelectByEmail(id) => SelectKeeps(s, id);
    case Insert(id, u) => InsertKeeps(s, id, u);
    case ApplyEffects(id) => EffectsKeep(s, id);
    case LinkAccount(id) => ReadKeeps(s, step);
    case Commit(id) =>
      CommitKeepsCommitted(s, id);
      CommitKeepsTxs(s, id);
    case Rollback(id) => EndKeeps(s, id);
    case Delete(u) => DeleteKeeps(s, u);
    case EnsureGrant(u) => assert s.grants[u] == 1;
  }

  lemma {:induction false} RunKeepsInv(s: State, steps: seq<Step>)
    requires Inv(s) && LegalRun(s, steps)
    ensures Inv(Run(s, steps))
    decreases |steps|
  {
    if steps == [] {
    } else {
      StepKeepsInv(s, steps[0]);
      RunKeepsInv(Next(s, steps[0]), steps[1..]);
    }
  }

  // ---- Main results ----

  // Every interleaving of sign-ups, logins, roll-backs and deletions: each user has
  // exactly one free grant, no grant lacks its user, and no two users share an email.
  lemma {:induction false} EveryUserHasOneGrant(steps: seq<Step>)
    requires LegalRun(EMPTY, steps)
    ensures var s := Run(EMPTY, steps);
            && (forall u: nat :: s.grants[u] == if u in s.users then 1 else 0)
            && (forall a, b | a in s.users && b in s.users && s.users[a].email == s.users[b].email :: a == b)
            && (forall i | i in s.links :: s.links[i] in s.users)
  {
    RunKeepsInv(EMPTY, steps);
  }

  // A login that lost the race for the email finds the winner's row.
  lemma {:induction false} LostRaceFindsUser(steps: seq<Step>, id: nat)
    requires LegalRun(EMPTY, steps)
    requires var s := Run(EMPTY, steps); Enabled(s, SelectByEmail(id)) && s.txs[id].phase == Reselect
    ensures var s := Run(EMPTY, steps);
            var s' := Next(s, SelectByEmail(id));
            && id in s'.txs && s'.txs[id].phase == Provision && s'.txs[id].locked
            && IsUserOf(s, s'.txs[id].user, s.txs[id].email)
  {
    RunKeepsInv(EMPTY, steps);
    var s := Run(EMPTY, steps);
    assert TxOk(s, s.txs[id]);
  }

  // A login that commits: its user exists and has his one free grant. The identity is
  // linked, and to this user exactly if no other one had it when the link was inserted:
  // a conflict there is ignored. He is active unless the login took the branch for a
  // known identity, which locks nothing, and the account is deleted at the commit.
  lemma {:induction false} CommittedLogin(steps: seq<Step>, id: nat)
    requires LegalRun(EMPTY, steps)
    requires var s := Run(EMPTY, steps); Enabled(s, Commit(id)) && s.txs[id].identity.Some?
    ensures var s := Run(EMPTY, steps);
            var tx := s.txs[id];
            var s' := Next(s, Commit(id));
            && tx.user in s'.users && s'.grants[tx.user] == 1
            && tx.identity.value in s'.links
            && (s'.links[tx.identity.value] == tx.user
                <==> tx.identity.value !in s.links || s.links[tx.identity.value] == tx.user)
            && (tx.path == ExistingOAuth ==> LinkedTo(s, tx.identity, tx.user))
            && (s'.users[tx.user].deleted <==> tx.path == ExistingOAuth && tx.user in s.users && s.users[tx.user].deleted)
            && (tx.path in {NewUser, LinkedExisting} ==> s'.users[tx.user].email == tx.email)
  {
    RunKeepsInv(EMPTY, steps);
    var s := Run(EMPTY, steps);
    assert TxOk(s, s.txs[id]);
    StepKeepsInv(s, Commit(id));
  }

  // A sign-up that commits makes its user, with the email and one grant, and nothing else.
  lemma {:induction false} CommittedSignup(steps: seq<Step>, id: nat)
    requires LegalRun(EMPTY, steps)
    requires var s := Run(EMPTY, steps); Enabled(s, Commit(id)) && s.txs[id].identity.None?
    ensures var s := Run(EMPTY, steps);
            var tx := s.txs[id];
            var s' := Next(s, Commit(id));
            && tx.user !in s.users && !HasEmail(s, tx.email)
            && s'.users == s.users[tx.user := User(tx.email, false)]
            && s'.grants == s.grants + multiset{tx.user} && s'.links == s.links
  {
    RunKeepsInv(EMPTY, steps);
    var s := Run(EMPTY, steps);
    assert TxOk(s, s.txs[id]);
  }

  lemma {:induction false} StepKeepsLinks(s: State, step: Step, identity: Identity)
    requires Inv(s) && Enabled(s, step) && identity in s.links
    ensures identity in Next(s, step).links && Next(s, step).links[identity] == s.links[identity]
  {
    if step.Commit? { assert TxOk(s, s.txs[step.id]); }
  }

  // An identity belongs to one user for good.
  lemma {:induction false} LinksArePermanent(s: State, steps: seq<Step>, identity: Identity)
    requires Inv(s) && LegalRun(s, steps) && identity in s.links
    ensures identity in Run(s, steps).links && Run(s, steps).links[identity] == s.links[identity]
    decreases |steps|
  {
    if steps == [] {
    } else {
      StepKeepsInv(s, steps[0]);
      StepKeepsLinks(s, steps[0], identity);
      LinksArePermanent(Next(s, steps[0]), steps[1..], identity);
    }
  }
}
