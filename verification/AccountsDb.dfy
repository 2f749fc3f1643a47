/** The account tables, updated in place, each operation run on its own. */
module AccountsDb {
  import opened Options
  import opened Splitter
  import opened Accounts

  const MIN_PASSWORD: nat := 8
  const MAX_PASSWORD: nat := 72

  datatype SignupError = MissingFields | PasswordLength | DuplicateEmail

  // strings.ToLower, one character at a time by the given table.
  function Lowered(lower: char -> char, s: string): (r: string)
    ensures |r| == |s| && forall i | 0 <= i < |s| :: r[i] == lower(s[i])
  {
    seq(|s|, i requires 0 <= i < |s| => lower(s[i]))
  }

  function NormalizeEmail(lower: char -> char, email: string): string { Lowered(lower, TrimSpace(email)) }

  // `passwordBytes` is the length of the password.
  function SignupObjection(s: State, lower: char -> char, email: string, passwordBytes: nat, name: string):
    Option<SignupError>
  {
    var normal := NormalizeEmail(lower, email);
    if normal == "" || passwordBytes == 0 || TrimSpace(name) == "" then Some(MissingFields)
    else if passwordBytes < MIN_PASSWORD || passwordBytes > MAX_PASSWORD then Some(PasswordLength)
    else if HasEmail(s, normal) then Some(DuplicateEmail)
    else None
  }

  // The address without the spaces around it, in lower case.
  lemma {:induction false} NormalizeIs(lower: char -> char, lead: string, address: string, trail: string)
    requires AllSpace(lead) && IsTrimmed(address) && AllSpace(trail)
    ensures var normal := NormalizeEmail(lower, (lead + address) + trail);
            |normal| == |address| && forall i | 0 <= i < |address| :: normal[i] == lower(address[i])
  {
    TrimSpaceIs(lead, address, trail);
  }

  // What is wrong first is reported, and nothing only if nothing is.
  lemma {:induction false} SignupObjectionIs(s: State, lower: char -> char, email: string, passwordBytes: nat,
                                             name: string)
    ensures SignupObjection(s, lower, email, passwordBytes, name)
            == if AllSpace(email) || passwordBytes == 0 || AllSpace(name) then Some(MissingFields)
               else if !(8 <= passwordBytes <= 72) then Some(PasswordLength)
               else if HasEmail(s, NormalizeEmail(lower, email)) then Some(DuplicateEmail)
               else None
  {
    var _, _ := TrimSpaceFacts(email);
    var _, _ := TrimSpaceFacts(name);
    assert NormalizeEmail(lower, email) == "" <==> TrimSpace(email) == "";
  }

  predicate SameInLowerCase(lower: char -> char, a: string, b: string) {
    |a| == |b| && forall i | 0 <= i < |a| :: lower(a[i]) == lower(b[i])
  }

  lemma {:induction false} SameAddress(lower: char -> char, lead: string, address: string, trail: string, again: string)
    requires AllSpace(lead) && IsTrimmed(address) && AllSpace(trail) && IsTrimmed(again)
    requires SameInLowerCase(lower, address, again)
    ensures NormalizeEmail(lower, (lead + address) + trail) == NormalizeEmail(lower, again)
  {
    NormalizeIs(lower, lead, address, trail);
    assert ("" + again) + "" == again;
    NormalizeIs(lower, "", again, "");
  }

  // Once an address has signed up, it is taken, with whatever spaces it had around it and in
  // whatever case it comes again.
  lemma {:induction false} AddressIsTaken(s: State, lower: char -> char, lead: string, address: string, trail: string,
                                          again: string, key: nat, passwordBytes: nat, name: string)
    requires AllSpace(lead) && IsTrimmed(address) && AllSpace(trail) && IsTrimmed(again)
    requires SameInLowerCase(lower, address, again)
    requires IsUserOf(s, key, NormalizeEmail(lower, (lead + address) + trail))
    ensures SignupObjection(s, lower, again, passwordBytes, name).Some?
  {
    SameAddress(lower, lead, address, trail, again);
    assert HasEmail(s, NormalizeEmail(lower, again));
  }

  // Which user a login finds, and by which branch: the one its identity is linked to, or
  // else the one with its email, or else a new one.
  predicate IsLogin(s: State, email: string, identity: Identity, key: nat, user: nat, path: Path) {
    if identity in s.links then
      && user == s.links[identity] && user in s.users
      && path == if s.users[user].deleted then Reactivated else ExistingOAuth
    else if HasEmail(s, email) then
      && IsUserOf(s, user, email)
      && path == if s.users[user].deleted then Reactivated else LinkedExisting
    else user == key && path == NewUser
  }

  // A new user is added, a deleted one revived, and nobody else touched.
  function UsersAfter(s: State, email: string, user: nat, path: Path): map<nat, User> {
    if path == NewUser then s.users[user := User(email, false)]
    else if path == Reactivated && user in s.users then s.users[user := s.users[user].(deleted := false)]
    else s.users
  }

  // The user that a login returns is active afterwards, and his email and identity fit.
  lemma {:induction false} LoginFindsItsUser(s: State, email: string, identity: Identity, key: nat, user: nat,
                                             path: Path)
    requires Committed(s) && key !in s.users && IsLogin(s, email, identity, key, user, path)
    ensures var users := UsersAfter(s, email, user, path);
            && user in users && !users[user].deleted
            && (identity !in s.links ==> users[user].email == email)
            && (identity in s.links ==> user == s.links[identity])
  {
  }

  // Reviving users and linking identities keeps what is committed.
  lemma {:induction false} StaysCommitted(s: State, s': State)
    requires Committed(s) && s'.grants == s.grants && s'.users.Keys == s.users.Keys
    requires forall u | u in s.users :: s'.users[u].email == s.users[u].email
    requires forall i | i in s'.links :: s'.links[i] in s.users
    ensures Committed(s')
  {
  }

  class Database {
    var users: map<nat, User>
    var grants: multiset<nat>
    var links: map<Identity, nat>
    var logins: map<nat, nat>    // auth_sessions: the user of each token

    ghost function View(): State reads this { State(users, grants, links, map[]) }

    // One free grant for each user, one user for each email.
    ghost predicate Valid() reads this { Committed(View()) }

    constructor ()
      ensures Valid() && View() == EMPTY && logins == map[]
    {
      users, grants, links, logins := map[], multiset{}, map[], map[];
    }

    // A user and his grant appear together.
    method CreateUser(email: string, key: nat)
      requires Valid() && key !in users && !HasEmail(View(), email)
      modifies this`users, this`grants
      ensures Valid()
      ensures users == old(users)[key := User(email, false)] && grants == old(grants) + multiset{key}
    {
      assert grants[key] == 0;
      assert forall u | u in users :: users[u].email != email by {
        forall u | u in users ensures users[u].email != email { assert !IsUserOf(View(), u, email); }
      }
      ghost var before := grants;
      users, grants := users[key := User(email, false)], grants + multiset{key};
      assert forall u: nat | u != key :: grants[u] == before[u];
    }

    method FindByEmail(email: string) returns (found: Option<nat>)
      ensures found.Some? ==> IsUserOf(View(), found.value, email)
      ensures found.None? ==> !HasEmail(View(), email)
    {
      if u :| u in users && users[u].email == email {
        found := Some(u);
      } else {
        found := None;
      }
    }

    // The first objection is reported and nothing changes; otherwise the user appears
    // under the normalised email, with his grant.
    method Signup(lower: char -> char, email: string, passwordBytes: nat, name: string, key: nat)
      returns (error: Option<SignupError>)
      requires Valid() && key !in users
      modifies this`users, this`grants
      ensures Valid()
      ensures error == SignupObjection(old(View()), lower, email, passwordBytes, name)
      ensures error.Some? ==> users == old(users) && grants == old(grants)
      ensures error.None? ==>
                && users == old(users)[key := User(NormalizeEmail(lower, email), false)]
                && grants == old(grants) + multiset{key}
    {
      var normal := NormalizeEmail(lower, email);
      if normal == "" || passwordBytes == 0 || TrimSpace(name) == "" { return Some(MissingFields); }
      if passwordBytes < MIN_PASSWORD || passwordBytes > MAX_PASSWORD { return Some(PasswordLength); }
      var taken := FindByEmail(normal);
      if taken.Some? { return Some(DuplicateEmail); }
      CreateUser(normal, key);
      return None;
    }

    // Find, link, reactivate or create. The caller gets the user of the identity's link
    // or, for a new identity, the one user with that email, created if need be; either
    // way he is active, the identity is his, and he is logged in under the new token.
    method OAuthLogin(lower: char -> char, rawEmail: string, identity: Identity, key: nat, token: nat)
      returns (user: nat, path: Path)
      requires Valid() && key !in users && token !in logins
      modifies this
      ensures Valid() && user in users && links == old(links)[identity := user]
      ensures logins == old(logins)[token := user]
      ensures IsLogin(old(View()), NormalizeEmail(lower, rawEmail), identity, key, user, path)
      ensures users == UsersAfter(old(View()), NormalizeEmail(lower, rawEmail), user, path)
      ensures grants == if path == NewUser then old(grants) + multiset{key} else old(grants)
    {
      user, path := FindOrCreate(NormalizeEmail(lower, rawEmail), identity, key);
      ApplyEffects(user, path, identity);
      logins := logins[token := user];
    }

    method ApplyEffects(user: nat, path: Path, identity: Identity)
      requires Valid() && user in users && path != Undecided
      modifies this`users, this`links
      ensures Valid()
      ensures users == if path == Reactivated then old(users)[user := old(users)[user].(deleted := false)]
                       else old(users)
      ensures links == if path != ExistingOAuth && identity !in old(links) then old(links)[identity := user]
                       else old(links)
    {
      ghost var before := View();
      if path == Reactivated { users := users[user := users[user].(deleted := false)]; }
      if path != ExistingOAuth && identity !in links { links := links[identity := user]; }
      StaysCommitted(before, View());
    }

    method FindOrCreate(email: string, identity: Identity, key: nat) returns (user: nat, path: Path)
      requires Valid() && key !in users
      modifies this`users, this`grants
      ensures Valid() && user in users
      ensures IsLogin(old(View()), email, identity, key, user, path)
      ensures users == if path == NewUser then old(users)[key := User(email, false)] else old(users)
      ensures grants == if path == NewUser then old(grants) + multiset{key} else old(grants)
    {
      if identity in links {
        user := links[identity];
        return user, if users[user].deleted then Reactivated else ExistingOAuth;
      }
      var found := FindByEmail(email);
      if found.Some? {
        user := found.value;
        return user, if users[user].deleted then Reactivated else LinkedExisting;
      }
      CreateUser(email, key);
      return key, NewUser;
    }

    // Marks the user deleted and ends all his logins, and nobody else's.
    method DeleteAccount(user: nat)
      requires Valid()
      modifies this`users, this`logins
      ensures Valid() && View() == Next(old(View()), Delete(user))
      ensures forall t :: t in logins <==> t in old(logins) && old(logins)[t] != user
      ensures forall t | t in logins :: logins[t] == old(logins)[t]
    {
      if user in users { users := users[user := users[user].(deleted := true)]; }
      logins := map t | t in logins && logins[t] != user :: logins[t];
    }
  }
}
