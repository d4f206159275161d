/**
 * The authentication middleware: `authenticate` (token required),
 * `optionalAuth` (token optional, never an error) and `requireAdmin`. Token
 * verification is the JSON Web Token library's and is the function `verify`.
 */
module AuthMiddleware {
  import opened Common
  import opened Store
  import opened Jwt

  /** verifyToken: the token's claims, or the message of the error it throws. */
  datatype Verification = Verified(claims: Claims) | Rejected(message: string)

  /** `req.user`: always built from the stored user, never from the token's claims. */
  datatype RequestUser = RequestUser(id: Id, email: string, role: Role, profile: Option<Profile>)

  /** The end of a middleware: `next()`, or an error response with its message. */
  datatype Outcome = Next | Deny(status: nat, code: string, message: string)

  /** The request as the middleware sees it. */
  class Request {
    var authorization: Option<string>
    var user: Option<RequestUser>

    constructor (authorization: Option<string>)
      ensures this.authorization == authorization && user.None?
    {
      this.authorization := authorization;
      user := None;
    }
  }

  /** The stored user with their profile, as `findUnique` with the profile included. */
  function StoredUser(users: map<Id, User>, profiles: map<Id, Profile>, id: Id): (u: Option<RequestUser>)
    ensures u.None? <==> id !in users
    ensures u.Some? ==> u.value.id == id && u.value.email == users[id].email && u.value.role == users[id].role
    ensures u.Some? ==> (u.value.profile.None? <==> id !in profiles)
  {
    if id !in users then None
    else Some(RequestUser(id, users[id].email, users[id].role,
                          if id in profiles then Some(profiles[id]) else None))
  }

  /** The token of the header, if it is a non-empty one. */
  function TokenOf(header: Option<string>): Option<string>
  {
    var token := ExtractToken(header);
    if token.Some? && token.value != "" then token else None
  }

  /** A `Bearer ` header with nothing after the space yields the empty token, which counts as no token. */
  lemma EmptyBearerIsNoToken()
    ensures ExtractToken(Some("Bearer ")) == Some("")
    ensures TokenOf(Some("Bearer ")) == None
  {
    ExtractRoundTrip("");
    assert "Bearer " + "" == "Bearer ";
  }

  datatype AuthResult = Authenticated(user: RequestUser) | Denied(status: nat, code: string, message: string)

  /** authenticate's decision: no token, then a failed verification, then a vanished user. */
  function Authentication(users: map<Id, User>, profiles: map<Id, Profile>, header: Option<string>,
                          verify: string -> Verification): (a: AuthResult)
    ensures TokenOf(header).None? ==> a == Denied(401, "NO_TOKEN", "Authentication token is required")
    ensures TokenOf(header).Some? && verify(TokenOf(header).value).Rejected? ==>
      a == Denied(401, "INVALID_TOKEN", verify(TokenOf(header).value).message)
    ensures TokenOf(header).Some? && verify(TokenOf(header).value).Verified?
            && verify(TokenOf(header).value).claims.userId !in users ==>
      a == Denied(401, "USER_NOT_FOUND", "User no longer exists")
    ensures a.Authenticated? ==>
      && TokenOf(header).Some? && verify(TokenOf(header).value).Verified?
      && Some(a.user) == StoredUser(users, profiles, verify(TokenOf(header).value).claims.userId)
  {
    var token := TokenOf(header);
    if token.None? then Denied(401, "NO_TOKEN", "Authentication token is required")
    else
      match verify(token.value)
      case Rejected(message) => Denied(401, "INVALID_TOKEN", message)
      case Verified(claims) =>
        var u := StoredUser(users, profiles, claims.userId);
        if u.None? then Denied(401, "USER_NOT_FOUND", "User no longer exists") else Authenticated(u.value)
  }

  /** authenticate: `req.user` is set exactly when `next()` is called. */
  method Authenticate(req: Request, db: Db, verify: string -> Verification) returns (outcome: Outcome)
    modifies req`user
    ensures var a := Authentication(db.users, db.profiles, req.authorization, verify);
      && (a.Authenticated? ==> outcome == Next && req.user == Some(a.user))
      && (a.Denied? ==> outcome == Deny(a.status, a.code, a.message) && req.user == old(req.user))
  {
    var a := Authentication(db.users, db.profiles, req.authorization, verify);
    if a.Denied? {
      return Deny(a.status, a.code, a.message);
    }
    req.user := Some(a.user);
    outcome := Next;
  }

  /**
   * The role the handlers see is the stored one: two tokens for the same user
   * authenticate alike whatever email and role their claims carry.
   */
  lemma StaleClaimsIgnored(users: map<Id, User>, profiles: map<Id, Profile>, header: Option<string>,
                           v1: string -> Verification, v2: string -> Verification)
    requires TokenOf(header).Some?
    requires v1(TokenOf(header).value).Verified? && v2(TokenOf(header).value).Verified?
    requires v1(TokenOf(header).value).claims.userId == v2(TokenOf(header).value).claims.userId
    ensures Authentication(users, profiles, header, v1) == Authentication(users, profiles, header, v2)
    ensures Authentication(users, profiles, header, v1).Authenticated? ==>
      var id := v1(TokenOf(header).value).claims.userId;
      Authentication(users, profiles, header, v1).user.role == users[id].role
  {
  }

  /** optionalAuth's user: set only when the token verifies and the user exists. */
  function OptionalUser(users: map<Id, User>, profiles: map<Id, Profile>, header: Option<string>,
                        verify: string -> Verification): Option<RequestUser>
  {
    var token := TokenOf(header);
    if token.None? then None
    else
      match verify(token.value)
      case Rejected(_) => None
      case Verified(claims) => StoredUser(users, profiles, claims.userId)
  }

  /** optionalAuth sets the user that authenticate would accept, and no other. */
  lemma OptionalAgreesWithAuthenticate(users: map<Id, User>, profiles: map<Id, Profile>, header: Option<string>,
                                       verify: string -> Verification)
    ensures forall u :: OptionalUser(users, profiles, header, verify) == Some(u) <==>
      Authentication(users, profiles, header, verify) == Authenticated(u)
    ensures OptionalUser(users, profiles, header, verify).None? <==>
      Authentication(users, profiles, header, verify).Denied?
  {
  }

  /** optionalAuth: `next()` always, with `req.user` set only by a verified token of an existing user. */
  method OptionalAuth(req: Request, db: Db, verify: string -> Verification) returns (outcome: Outcome)
    modifies req`user
    ensures outcome == Next
    ensures var u := OptionalUser(db.users, db.profiles, req.authorization, verify);
      req.user == if u.Some? then u else old(req.user)
  {
    outcome := Next;
    var token := TokenOf(req.authorization);
    if token.None? {
      return;
    }
    match verify(token.value)
    case Rejected(_) =>
    case Verified(claims) =>
      var u := StoredUser(db.users, db.profiles, claims.userId);
      if u.Some? {
        req.user := u;
      }
  }

  /** requireAdmin: no user gives 401, a non-administrator 403. */
  function RequireAdmin(user: Option<RequestUser>): (outcome: Outcome)
    ensures outcome == Next <==> user.Some? && user.value.role == Role.ADMIN
    ensures user.None? ==> outcome == Deny(401, "NOT_AUTHENTICATED", "Authentication required")
    ensures user.Some? && user.value.role != Role.ADMIN ==> outcome == Deny(403, "FORBIDDEN", "Admin access required")
  {
    if user.None? then Deny(401, "NOT_AUTHENTICATED", "Authentication required")
    else if user.value.role != Role.ADMIN then Deny(403, "FORBIDDEN", "Admin access required")
    else Next
  }

  /**
   * `authenticate` then `requireAdmin` lets a request through exactly when its
   * token names an existing user whose stored role is ADMIN.
   */
  lemma AdminRoutesNeedStoredAdmin(users: map<Id, User>, profiles: map<Id, Profile>, header: Option<string>,
                                   verify: string -> Verification)
    ensures var a := Authentication(users, profiles, header, verify);
      (a.Authenticated? && RequireAdmin(Some(a.user)) == Next) <==>
      (&& TokenOf(header).Some? && verify(TokenOf(header).value).Verified?
       && verify(TokenOf(header).value).claims.userId in users
       && users[verify(TokenOf(header).value).claims.userId].role == Role.ADMIN)
  {
  }
}
