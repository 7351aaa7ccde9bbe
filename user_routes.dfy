/**
 * The user routes: list every user, add a user built from five body
 * fields, and the login decision (look the email up, then compare the
 * password as plain text).
 */
module UserRoutes {
  import opened Types
  import opened UserSchema

  datatype LoginResult = UserNotFound | InvalidPassword | LoggedIn(user: UserDoc)

  /** `findOne({ email })`: the position of the first user with that email. */
  function FindByEmail(users: seq<UserDoc>, email: string): (r: Option<nat>)
    ensures r.Some? ==> r.value < |users| && users[r.value].email == Some(email)
    ensures r.Some? ==> forall j :: 0 <= j < r.value ==> users[j].email != Some(email)
    ensures r.None? <==> forall j :: 0 <= j < |users| ==> users[j].email != Some(email)
  {
    if users == [] then None
    else if users[0].email == Some(email) then Some(0)
    else match FindByEmail(users[1..], email)
      case None => None
      case Some(k) => Some(k + 1)
  }

  /** POST /login: unknown email first, then a password that is not exactly the stored one. */
  function Login(users: seq<UserDoc>, email: string, password: Option<string>): (r: LoginResult)
    ensures r == UserNotFound <==> forall j :: 0 <= j < |users| ==> users[j].email != Some(email)
    ensures r.LoggedIn? ==> r.user in users && r.user.email == Some(email) && r.user.password == password
  {
    match FindByEmail(users, email)
    case None => UserNotFound
    case Some(k) => if users[k].password != password then InvalidPassword else LoggedIn(users[k])
  }

  /** No two stored users share an email. */
  ghost predicate EmailsUnique(users: seq<UserDoc>)
  {
    forall i, j :: 0 <= i < j < |users| ==> users[i].email != users[j].email
  }

  /**
   * With unique emails, login succeeds exactly when some user has that
   * email and that password, and reports a password error exactly when
   * the user with that email has a different one.
   */
  lemma LoginDecision(users: seq<UserDoc>, email: string, password: Option<string>)
    requires EmailsUnique(users)
    ensures Login(users, email, password).LoggedIn? <==>
      exists j :: 0 <= j < |users| && users[j].email == Some(email) && users[j].password == password
    ensures Login(users, email, password) == InvalidPassword <==>
      exists j :: 0 <= j < |users| && users[j].email == Some(email) && users[j].password != password
  {
    var found := FindByEmail(users, email);
    if found.Some? {
      var k := found.value;
      forall j | 0 <= j < |users| && users[j].email == Some(email)
        ensures j == k
      {
      }
    }
  }

  /** An email that no user has never yields a password error. */
  lemma UnknownEmailNeverPasswordError(users: seq<UserDoc>, email: string, password: Option<string>)
    requires forall j :: 0 <= j < |users| ==> users[j].email != Some(email)
    ensures Login(users, email, password) == UserNotFound
  {
  }

  class UserStore {
    var users: seq<UserDoc>
    var nextId: Id

    /** Every stored user passed validation, ids are fresh, and the unique indexes hold. */
    ghost predicate Valid()
      reads this
    {
      && (forall j :: 0 <= j < |users| ==> ValidUser(users[j]) && users[j].id < nextId)
      && (forall i, j :: 0 <= i < j < |users| ==>
            users[i].id != users[j].id && users[i].username != users[j].username && users[i].email != users[j].email)
    }

    constructor ()
      ensures Valid() && users == []
    {
      users := [];
      nextId := 0;
    }

    /** GET /: every stored user. */
    method List() returns (all: seq<UserDoc>)
      ensures all == users
    {
      all := users;
    }

    /** POST /add: saves the user built from the body when it validates and its username and email are new. */
    method Add(body: UserBody) returns (ok: bool)
      requires Valid()
      modifies this
      ensures Valid() && EmailsUnique(users)
      ensures ok <==> ValidUser(NewUser(old(nextId), body)) && UniqueAmong(NewUser(old(nextId), body), old(users))
      ensures users == if ok then old(users) + [NewUser(old(nextId), body)] else old(users)
    {
      var u := NewUser(nextId, body);
      ok := ValidUser(u) && forall j :: 0 <= j < |users| ==> users[j].username != u.username && users[j].email != u.email;
      if ok {
        users := users + [u];
        nextId := nextId + 1;
      }
    }
  }
}
