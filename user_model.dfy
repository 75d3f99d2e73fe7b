/** The User schema of backend/src/models/user.ts. */
module UserModel {
  import opened Wrappers
  import opened Schema

  datatype User = User(
    username: string,
    uid: Option<string>,
    accessToken: string,
    roles: seq<string>)

  /** The schema's constraint on a stored user that no later update can undo. The access token
      is required on creation only: sign-in overwrites it without validation. */
  predicate Valid(u: User)
  {
    u.username != ""
  }

  /** The document a handler hands to `User.create`; `roles` absent takes the default. */
  datatype UserDoc = UserDoc(
    username: string,
    uid: Option<string>,
    accessToken: string,
    roles: Option<seq<string>>)

  const DefaultRoles: seq<string> := ["user"]

  function Failures(d: UserDoc): seq<PathError>
  {
    RequiredString("username", d.username) + RequiredString("accessToken", d.accessToken)
  }

  /** Schema validation of a new user: username and access token are required, and roles
      default to ["user"]. */
  function Validate(d: UserDoc): (r: Result<User, DbError>)
    ensures r.Ok? <==> d.username != "" && d.accessToken != ""
    ensures r.Ok? ==> Valid(r.value)
    ensures r.Ok? ==> r.value.username == d.username && r.value.uid == d.uid && r.value.accessToken == d.accessToken
    ensures r.Ok? ==> r.value.roles == if d.roles.None? then DefaultRoles else d.roles.value
    ensures r.Err? ==> r.error == ValidationFailed("User", Failures(d)) && Failures(d) != []
  {
    if Failures(d) != [] then Err(ValidationFailed("User", Failures(d)))
    else Ok(User(d.username, d.uid, d.accessToken, if d.roles.None? then DefaultRoles else d.roles.value))
  }
}
