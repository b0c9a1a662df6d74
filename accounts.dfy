// The account registry: the uniqueness checks run by sign-up, the credential
// lookup run by log-in, and what the two promise each other.

module Accounts {
  import opened Records

  /** Index of the first account that `pick` accepts: what `Array.find` returns. */
  function FirstIndex(users: seq<User>, pick: User -> bool): (r: Option<nat>)
    ensures r.Some? ==> r.value < |users| && pick(users[r.value])
    ensures r.Some? ==> forall j :: 0 <= j < r.value ==> !pick(users[j])
    ensures r.None? <==> forall j :: 0 <= j < |users| ==> !pick(users[j])
  {
    if users == [] then None
    else if pick(users[0]) then Some(0)
    else match FirstIndex(users[1..], pick)
      case None => None
      case Some(i) => Some(i + 1)
  }

  /** The log-in test: the identifier is the username or the email, and the
      password is equal. */
  predicate Matches(u: User, identifier: string, password: string)
  {
    (u.username == identifier || u.email == identifier) && u.password == password
  }

  /** The account log-in selects: the first one that matches, if any. */
  function Authenticate(users: seq<User>, identifier: string, password: string): (r: Option<User>)
    ensures r.Some? <==> exists i :: 0 <= i < |users| && Matches(users[i], identifier, password)
    ensures r.Some? ==> exists i :: 0 <= i < |users| && users[i] == r.value && Matches(r.value, identifier, password)
                          && forall j :: 0 <= j < i ==> !Matches(users[j], identifier, password)
  {
    match FirstIndex(users, u => Matches(u, identifier, password))
    case None => None
    case Some(i) => Some(users[i])
  }

  /** Why sign-up refuses. */
  datatype SignupError = DuplicateUsername | DuplicateEmail

  /** The two checks of sign-up, username first: `None` when both pass. */
  function CheckSignup(users: seq<User>, username: string, email: string): (r: Option<SignupError>)
    ensures r == Some(DuplicateUsername) <==> exists i :: 0 <= i < |users| && users[i].username == username
    ensures r == Some(DuplicateEmail) <==>
      (forall i :: 0 <= i < |users| ==> users[i].username != username) &&
      (exists i :: 0 <= i < |users| && users[i].email == email)
    ensures r == None <==> forall i :: 0 <= i < |users| ==> users[i].username != username && users[i].email != email
  {
    if FirstIndex(users, (u: User) => u.username == username).Some? then Some(DuplicateUsername)
    else if FirstIndex(users, (u: User) => u.email == email).Some? then Some(DuplicateEmail)
    else None
  }

  /** The record sign-up appends: the given credentials and default preferences. */
  function NewUser(id: string, username: string, email: string, password: string, joinedAt: string): User
  {
    User(id, username, email, password, joinedAt, DEFAULT_PREFERENCES)
  }

  /** No two accounts share a username, and no two share an email. */
  ghost predicate DistinctAccounts(users: seq<User>)
  {
    forall i, j :: 0 <= i < j < |users| ==> users[i].username != users[j].username && users[i].email != users[j].email
  }

  /** Appending the record of an accepted sign-up keeps usernames and emails distinct. */
  lemma SignupKeepsAccountsDistinct(users: seq<User>, id: string, username: string, email: string, password: string, joinedAt: string)
    requires DistinctAccounts(users)
    requires CheckSignup(users, username, email) == None
    ensures DistinctAccounts(users + [NewUser(id, username, email, password, joinedAt)])
  {
  }

  /** Log-in against a registry with one more account at the end: an earlier
      match still wins, and the new account is reached only when none exists. */
  lemma {:induction false} AuthenticateAfterAppend(users: seq<User>, u: User, identifier: string, password: string)
    ensures Authenticate(users + [u], identifier, password) ==
      if Authenticate(users, identifier, password).Some? then Authenticate(users, identifier, password)
      else if Matches(u, identifier, password) then Some(u)
      else None
  {
    FirstIndexAfterAppend(users, u, (v: User) => Matches(v, identifier, password));
  }

  lemma {:induction false} FirstIndexAfterAppend(users: seq<User>, u: User, pick: User -> bool)
    ensures FirstIndex(users + [u], pick) ==
      if FirstIndex(users, pick).Some? then FirstIndex(users, pick)
      else if pick(u) then Some(|users|)
      else None
  {
    if users != [] {
      assert (users + [u])[1..] == users[1..] + [u];
      FirstIndexAfterAppend(users[1..], u, pick);
    }
  }

  /** After an accepted sign-up, logging in with the new username or the new
      email and the new password succeeds. */
  lemma SignupThenLogin(users: seq<User>, id: string, username: string, email: string, password: string, joinedAt: string)
    requires CheckSignup(users, username, email) == None
    ensures Authenticate(users + [NewUser(id, username, email, password, joinedAt)], username, password).Some?
    ensures Authenticate(users + [NewUser(id, username, email, password, joinedAt)], email, password).Some?
  {
    var u := NewUser(id, username, email, password, joinedAt);
    AuthenticateAfterAppend(users, u, username, password);
    AuthenticateAfterAppend(users, u, email, password);
  }

  /** The identifier is compared with usernames and emails alike, so log-in with
      a new account's username can select an older account whose email is that
      string and whose password is the same. */
  lemma LoginCanSelectEarlierAccount()
    ensures var older := NewUser("1", "ann", "bob", "pw", "t0");
            CheckSignup([older], "bob", "bob@x") == None &&
            Authenticate([older, NewUser("2", "bob", "bob@x", "pw", "t1")], "bob", "pw") == Some(older)
  {
  }
}
