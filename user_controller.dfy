/** Sign-in and sign-out of backend/src/controllers/userController.ts. Sign-in checks the Pi
    access token with the platform (`/v2/me`, a parameter here), then upserts the user keyed by
    the platform's `uid` and stores the user in the session. */
module UserController {
  import opened Wrappers
  import opened Ids
  import opened Query
  import opened Schema
  import opened ErrorMiddleware
  import opened UserModel
  import opened Store
  import opened Http

  /** The platform's user in the sign-in body. */
  datatype AuthUser = AuthUser(uid: string, username: string, roles: Option<seq<string>>)

  /** The `authResult` of the sign-in body; `user` is `None` when it carries no user. */
  datatype AuthResult = AuthResult(accessToken: string, user: Option<AuthUser>)

  /** A successful sign-in: the signed-in user and the `morphtoken` cookie it sets. */
  datatype SignedIn = SignedIn(user: UserRef, cookie: string)

  /** The user `User.create` receives for a first sign-in. */
  function NewUserDoc(a: AuthResult): UserDoc
    requires a.user.Some?
  {
    UserDoc(a.user.value.username, Some(a.user.value.uid), a.accessToken, a.user.value.roles)
  }

  /** The user record a first sign-in creates. */
  function FirstSignIn(a: AuthResult): User
    requires a.user.Some?
  {
    User(a.user.value.username, Some(a.user.value.uid), a.accessToken,
         if a.user.value.roles.None? then DefaultRoles else a.user.value.roles.value)
  }

  /** The state after user `u` receives a new access token, and nothing else changes. */
  function Reissued(s: State, u: UserRef, token: string): State
    requires u < |s.users|
  {
    s.(users := s.users[u := s.users[u].(accessToken := token)])
  }

  /** `signin`: `auth` is `None` when the body has no `authResult`, `me` the platform's answer.
      A failed platform check goes to `next`; errors after it are not caught. */
  function SigninOutcome(s: State, auth: Option<AuthResult>, me: Result<(), AppError>): (r: Outcome<SignedIn>)
    ensures r.reply.Done? || r.reply.Next? || r.reply.Unhandled?
    ensures !r.reply.Done? ==> r.state == s
    ensures auth.None? ==> r.reply == Next(OtherError(ReadOfUndefined("accessToken")))
    ensures auth.Some? && me.Err? ==> r.reply == Next(OtherError(me.error))
    ensures auth.Some? && me.Ok? && auth.value.user.None? ==> r.reply == Unhandled(OtherError(ReadOfUndefined("uid")))
    ensures r.reply.Done? ==>
      && auth.Some? && me.Ok? && auth.value.user.Some?
      && var a := auth.value;
      && var u := r.reply.value.user;
      && r.reply.status == 200 && r.reply.value.cookie == a.accessToken
      && u < |r.state.users| && r.state.users[u].uid == Some(a.user.value.uid)
      && r.state.users[u].accessToken == a.accessToken
      && (UserByUid(s, a.user.value.uid).Some? ==>
            u == UserByUid(s, a.user.value.uid).value && r.state == Reissued(s, u, a.accessToken))
      && (UserByUid(s, a.user.value.uid).None? ==>
            u == |s.users| && r.state == s.(users := s.users + [FirstSignIn(a)]))
    ensures r.reply.Unhandled? && auth.Some? && auth.value.user.Some? ==>
      UserByUid(s, auth.value.user.value.uid).None? && NewUser(s, NewUserDoc(auth.value)).Err?
      && r.reply.err == StoreError(NewUser(s, NewUserDoc(auth.value)).error)
    ensures auth.Some? && me.Ok? && auth.value.user.Some? && UserByUid(s, auth.value.user.value.uid).Some? ==>
      var u := UserByUid(s, auth.value.user.value.uid).value;
      r == Outcome(Reissued(s, u, auth.value.accessToken), Done(200, SignedIn(u, auth.value.accessToken)))
    ensures auth.Some? && me.Ok? && auth.value.user.Some? && UserByUid(s, auth.value.user.value.uid).None?
            && NewUser(s, NewUserDoc(auth.value)).Ok? ==>
      r.reply == Done(200, SignedIn(|s.users|, auth.value.accessToken))
    ensures auth.Some? && me.Ok? && auth.value.user.Some? && UserByUid(s, auth.value.user.value.uid).None?
            && NewUser(s, NewUserDoc(auth.value)).Err? ==>
      r == Outcome(s, Unhandled(StoreError(NewUser(s, NewUserDoc(auth.value)).error)))
  {
    if auth.None? then Outcome(s, Next(OtherError(ReadOfUndefined("accessToken"))))
    else if me.Err? then Outcome(s, Next(OtherError(me.error)))
    else
      var a := auth.value;
      if a.user.None? then Outcome(s, Unhandled(OtherError(ReadOfUndefined("uid"))))
      else
        match UserByUid(s, a.user.value.uid)
        case Some(u) =>
          assert WithUid(Some(a.user.value.uid))(s.users[u]);
          Outcome(Reissued(s, u, a.accessToken), Done(200, SignedIn(u, a.accessToken)))
        case None =>
          match NewUser(s, NewUserDoc(a))
          case Err(e) => Outcome(s, Unhandled(StoreError(e)))
          case Ok(rec) => Outcome(s.(users := s.users + [rec]), Done(200, SignedIn(|s.users|, a.accessToken)))
  }

  lemma SigninKeepsInv(s: State, auth: Option<AuthResult>, me: Result<(), AppError>)
    requires Inv(s)
    ensures Inv(SigninOutcome(s, auth, me).state)
  {
    var r := SigninOutcome(s, auth, me);
    if r.reply.Done? {
      var a := auth.value;
      match UserByUid(s, a.user.value.uid)
      case Some(u) => SetAccessTokenKeeps(s, u, a.accessToken);
      case None => InsertUserKeeps(s, NewUser(s, NewUserDoc(a)).value);
    }
  }

  /** Sign-in is an upsert: once a `uid` has signed in, signing in again with it, under any
      access token, finds the same user and creates none. */
  lemma SigninTwiceKeepsOneUser(s: State, a: AuthResult, me: Result<(), AppError>, token: string, me': Result<(), AppError>)
    requires SigninOutcome(s, Some(a), me).reply.Done? && me'.Ok?
    ensures var first := SigninOutcome(s, Some(a), me);
            var second := SigninOutcome(first.state, Some(a.(accessToken := token)), me');
            && second.reply == Done(200, SignedIn(first.reply.value.user, token))
            && |second.state.users| == |first.state.users|
  {
    var first := SigninOutcome(s, Some(a), me);
    var uid := a.user.value.uid;
    var u := first.reply.value.user;
    if UserByUid(s, uid).Some? {
      FindFirstAgree(s.users, WithUid(Some(uid)), first.state.users, WithUid(Some(uid)));
    } else {
      FindFirstAppend(s.users, FirstSignIn(a), WithUid(Some(uid)));
    }
    assert UserByUid(first.state, uid) == Some(u);
  }

  /** The session of backend/src/types/express-session.d.ts: the signed-in user, if any. */
  class Session {
    var currentUser: Option<User>

    constructor ()
      ensures currentUser.None?
    {
      currentUser := None;
    }

    /** `signout`: the session forgets its user, and the answer is always 200. */
    method SignOut() returns (reply: Reply<Message>)
      modifies this
      ensures currentUser.None?
      ensures reply == Done(200, SignedOut)
    {
      currentUser := None;
      reply := Done(200, SignedOut);
    }
  }

  /** The handler: on success the session holds the upserted user record. */
  method Signin(db: Db, session: Session, auth: Option<AuthResult>, me: Result<(), AppError>) returns (reply: Reply<SignedIn>)
    modifies db, session
    ensures reply == SigninOutcome(old(db.Contents()), auth, me).reply
    ensures db.Contents() == SigninOutcome(old(db.Contents()), auth, me).state
    ensures reply.Done? ==> reply.value.user < |db.users| && session.currentUser == Some(db.users[reply.value.user])
    ensures !reply.Done? ==> session.currentUser == old(session.currentUser)
  {
    if auth.None? {
      return Next(OtherError(ReadOfUndefined("accessToken")));
    }
    if me.Err? {
      return Next(OtherError(me.error));
    }
    var a := auth.value;
    if a.user.None? {
      return Unhandled(OtherError(ReadOfUndefined("uid")));
    }
    var existing := UserByUid(db.Contents(), a.user.value.uid);
    var u: UserRef;
    if existing.Some? {
      u := existing.value;
      db.UpdateAccessToken(u, a.accessToken);
    } else {
      var created := db.CreateUser(NewUserDoc(a));
      if created.Err? {
        return Unhandled(StoreError(created.error));
      }
      u := created.value;
    }
    session.currentUser := Some(db.users[u]);
    reply := Done(200, SignedIn(u, a.accessToken));
  }
}
