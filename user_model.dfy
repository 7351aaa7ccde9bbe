/**
 * The server's user schema: required, trimmed and unique fields, length
 * minimums, and the role enumeration with its default. Construction
 * applies the trimming setters and the role default; saving validates.
 */
module UserSchema {
  import opened Types
  import opened Text

  datatype UserBody = UserBody(
    username: Option<string>,
    password: Option<string>,
    email: Option<string>,
    role: Option<string>,
    department: Option<string>)

  datatype UserDoc = UserDoc(
    id: Id,
    username: Option<string>,
    password: Option<string>,
    email: Option<string>,
    role: Option<string>,
    department: Option<string>)

  const DefaultRole: string := "user"

  function TrimField(s: Option<string>): (r: Option<string>)
    ensures r.Some? <==> s.Some?
    ensures s.Some? ==> r == Some(Trim(s.value))
  {
    if s.Some? then Some(Trim(s.value)) else None
  }

  /**
   * `new User({...})`: username, email and department pass through the
   * trimming setter, the password is kept as sent, and an absent role
   * takes the default.
   */
  function NewUser(id: Id, body: UserBody): (u: UserDoc)
    ensures u.id == id && u.password == body.password
    ensures u.username == TrimField(body.username) && u.email == TrimField(body.email)
    ensures u.department == TrimField(body.department)
    ensures body.role.None? ==> u.role == Some(DefaultRole)
    ensures body.role.Some? ==> u.role == body.role
  {
    UserDoc(id, TrimField(body.username), body.password, TrimField(body.email),
            if body.role.Some? then body.role else Some(DefaultRole), TrimField(body.department))
  }

  /** What a save accepts, field by field. */
  predicate ValidUser(u: UserDoc)
  {
    && RequiredString(u.username) && |u.username.value| >= 3
    && RequiredString(u.password) && |u.password.value| >= 8
    && RequiredString(u.email)
    && u.role.Some? && u.role.value in RoleNames
    && RequiredString(u.department)
  }

  /** The unique indexes: no stored user already has this username or email. */
  predicate UniqueAmong(u: UserDoc, users: seq<UserDoc>)
  {
    forall j :: 0 <= j < |users| ==> users[j].username != u.username && users[j].email != u.email
  }

  /** Stored username, email and department are already trimmed. */
  lemma {:induction false} NewUserFieldsTrimmed(id: Id, body: UserBody)
    ensures TrimField(NewUser(id, body).username) == NewUser(id, body).username
    ensures TrimField(NewUser(id, body).email) == NewUser(id, body).email
    ensures TrimField(NewUser(id, body).department) == NewUser(id, body).department
  {
    if body.username.Some? { TrimIdempotent(body.username.value); }
    if body.email.Some? { TrimIdempotent(body.email.value); }
    if body.department.Some? { TrimIdempotent(body.department.value); }
  }

  /** A username shorter than three characters once trimmed is refused. */
  lemma ShortUsernameRefused(id: Id, body: UserBody)
    requires body.username.Some? && |Trim(body.username.value)| < 3
    ensures !ValidUser(NewUser(id, body))
  {
  }

  /** In particular a username of white space only trims to "" and is refused. */
  lemma {:induction false} BlankUsernameRefused(id: Id, body: UserBody)
    requires body.username.Some?
    requires forall i :: 0 <= i < |body.username.value| ==> IsSpace(body.username.value[i])
    ensures !ValidUser(NewUser(id, body))
  {
    TrimEmptyIffAllSpace(body.username.value);
    ShortUsernameRefused(id, body);
  }

  /** Without a role in the body, a valid user is a plain `user`. */
  lemma DefaultRoleIsUser(id: Id, body: UserBody)
    requires body.role.None?
    ensures ValidUser(NewUser(id, body)) ==> ParseRole(NewUser(id, body).role.value) == Some(UserRole)
  {
  }

  /** A saved user's role is exactly one of the three names. */
  lemma ValidUserHasRole(u: UserDoc)
    requires ValidUser(u)
    ensures ParseRole(u.role.value).Some?
  {
  }
}
