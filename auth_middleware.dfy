/**
 * The authentication middlewares: where the token comes from (a bearer
 * header, else the `auth_token` cookie), how AuthRequired and
 * OptionalAuth turn it into the caller's identity, and the role gates
 * that run after them. Signature checking is a parameter: `parse` gives
 * the claims of a token the JWT library accepts.
 */
module AuthMiddleware {
  import opened Wrappers
  import opened Http
  import opened Strings
  import opened UserModel
  import opened Db

  /** What the middlewares read from a request; an absent header is "". */
  datatype Request = Request(verb: string, authorization: string, cookie: Option<string>)

  /** The token of an `Authorization` header of exactly two space-separated parts, the first `Bearer`. */
  function BearerToken(header: string): (t: Option<string>)
    ensures t.Some? <==> header != "" && |Split(header, ' ')| == 2 && Split(header, ' ')[0] == "Bearer"
    ensures t.Some? ==> header == "Bearer" + [' '] + t.value && ' ' !in t.value
  {
    if header == "" then None
    else
      var parts := Split(header, ' ');
      if |parts| == 2 && parts[0] == "Bearer" then Some(parts[1]) else None
  }

  /** A header built from a token without spaces gives that token back. */
  lemma BearerRoundTrip(token: string)
    requires ' ' !in token
    ensures BearerToken("Bearer" + [' '] + token) == Some(token)
  {
    SplitJoin(["Bearer", token], ' ');
    assert Join(["Bearer", token], ' ') == "Bearer" + [' '] + token;
  }

  /** The token the middlewares use, "" when there is none: the header's, else the cookie's. */
  function TokenOf(req: Request): (t: string)
    ensures BearerToken(req.authorization).Some? && BearerToken(req.authorization).value != "" ==>
      t == BearerToken(req.authorization).value
    ensures (BearerToken(req.authorization).None? || BearerToken(req.authorization).value == "") ==>
      t == (if req.cookie.Some? then req.cookie.value else "")
  {
    var fromHeader := BearerToken(req.authorization);
    if fromHeader.Some? && fromHeader.value != "" then fromHeader.value
    else if req.cookie.Some? && req.cookie.value != "" then req.cookie.value
    else ""
  }

  /** What a valid token carries. */
  datatype Claims = Claims(userId: nat, uuid: string, userType: string)

  /** What the middleware puts into the request context. */
  datatype Identity = Identity(user: UserRow, userId: nat, userUuid: string, userType: string)

  /** The three ends of token validation as written: the claims, a refusal, or a panic. */
  datatype Validation = Valid(claims: Claims) | Refused | Panicked

  /**
   * Token validation as written: a debug line first prints the token's
   * first ten and last five bytes, which panics on a token shorter than
   * ten bytes; then a token in the revoked list is refused, and otherwise
   * the JWT library decides.
   */
  function ValidateAsWritten(token: string, revoked: seq<string>, parse: string -> Option<Claims>): (v: Validation)
    ensures v == Panicked <==> ByteLength(token) < 10
    ensures v.Valid? ==> token !in revoked && parse(token) == Some(v.claims)
  {
    if ByteLength(token) < 10 then Panicked
    else if token in revoked then Refused
    else match parse(token)
      case None => Refused
      case Some(c) => Valid(c)
  }

  /** Token validation as intended: the same decision without the panic. */
  function Validate(token: string, revoked: seq<string>, parse: string -> Option<Claims>): (c: Option<Claims>)
    ensures c.Some? <==> token !in revoked && parse(token).Some?
    ensures c.Some? ==> c == parse(token)
  {
    if token in revoked then None else parse(token)
  }

  /** Apart from the panic, the two validations agree. */
  lemma ValidationsAgree(token: string, revoked: seq<string>, parse: string -> Option<Claims>)
    requires ByteLength(token) >= 10
    ensures ValidateAsWritten(token, revoked, parse).Valid? <==> Validate(token, revoked, parse).Some?
    ensures ValidateAsWritten(token, revoked, parse).Valid? ==>
      Validate(token, revoked, parse) == Some(ValidateAsWritten(token, revoked, parse).claims)
  {
  }

  /** The outcome of a middleware: the request goes on, with or without an identity, or is aborted. */
  datatype Outcome = Continue(identity: Option<Identity>) | Aborted(reason: Reason)

  /** The identity of a valid token's user, unless the user is missing or deactivated. */
  function IdentityOf(users: seq<UserRow>, c: Claims): (r: Result<Identity, Reason>)
    ensures r.Ok? <==> 1 <= c.userId <= |users| && users[c.userId - 1].deletedAt.None?
    ensures r.Ok? ==> r.value == Identity(users[c.userId - 1], c.userId, c.uuid, c.userType)
    ensures r == Err(UnknownUser) <==> !(1 <= c.userId <= |users|)
    ensures r.Err? ==> r.error in {UnknownUser, AccountDeactivated}
  {
    match ByKey(users, c.userId)
    case None => Err(UnknownUser)
    case Some(user) =>
      if user.deletedAt.Some? then Err(AccountDeactivated)
      else Ok(Identity(user, c.userId, c.uuid, c.userType))
  }

  /** AuthRequired as written: a short token ends in a panic, which is answered with 500. */
  function AuthRequiredAsWritten(req: Request, users: seq<UserRow>, revoked: seq<string>, parse: string -> Option<Claims>)
    : (o: Outcome)
  {
    if req.verb == "OPTIONS" then Continue(None)
    else
      var token := TokenOf(req);
      if token == "" then Aborted(NotLoggedIn)
      else match ValidateAsWritten(token, revoked, parse)
        case Panicked => Aborted(InternalPanic)
        case Refused => Aborted(BadCredentials)
        case Valid(c) =>
          match IdentityOf(users, c)
          case Err(e) => Aborted(e)
          case Ok(id) => Continue(Some(id))
  }

  /**
   * AuthRequired as intended. OPTIONS requests pass untouched; otherwise a
   * request without a token, with a refused token, whose user is missing
   * or whose user is deactivated is aborted with 401, and any other goes
   * on with the user's identity.
   */
  function AuthRequired(req: Request, users: seq<UserRow>, revoked: seq<string>, parse: string -> Option<Claims>)
    : (o: Outcome)
    ensures req.verb == "OPTIONS" ==> o == Continue(None)
    ensures req.verb != "OPTIONS" ==> (o.Continue? <==>
      TokenOf(req) != "" && Validate(TokenOf(req), revoked, parse).Some?
      && IdentityOf(users, Validate(TokenOf(req), revoked, parse).value).Ok?)
    ensures req.verb != "OPTIONS" && o.Continue? ==>
      o.identity == Some(IdentityOf(users, Validate(TokenOf(req), revoked, parse).value).value)
    ensures o.Aborted? ==> Status(o.reason) == 401
  {
    if req.verb == "OPTIONS" then Continue(None)
    else
      var token := TokenOf(req);
      if token == "" then Aborted(NotLoggedIn)
      else match Validate(token, revoked, parse)
        case None => Aborted(BadCredentials)
        case Some(c) =>
          match IdentityOf(users, c)
          case Err(e) => Aborted(e)
          case Ok(id) => Continue(Some(id))
  }

  /** OptionalAuth as written: it never aborts, except through the panic. */
  function OptionalAuthAsWritten(req: Request, users: seq<UserRow>, revoked: seq<string>, parse: string -> Option<Claims>)
    : (o: Outcome)
  {
    if req.verb == "OPTIONS" then Continue(None)
    else
      var token := TokenOf(req);
      if token == "" then Continue(None)
      else match ValidateAsWritten(token, revoked, parse)
        case Panicked => Aborted(InternalPanic)
        case Refused => Continue(None)
        case Valid(c) =>
          match IdentityOf(users, c)
          case Err(_) => Continue(None)
          case Ok(id) => Continue(Some(id))
  }

  /** OptionalAuth as intended: the request always goes on, with an identity only when every check passes. */
  function OptionalAuth(req: Request, users: seq<UserRow>, revoked: seq<string>, parse: string -> Option<Claims>)
    : (o: Outcome)
    ensures o.Continue?
  {
    if req.verb == "OPTIONS" then Continue(None)
    else
      var token := TokenOf(req);
      if token == "" then Continue(None)
      else match Validate(token, revoked, parse)
        case None => Continue(None)
        case Some(c) =>
          match IdentityOf(users, c)
          case Err(_) => Continue(None)
          case Ok(id) => Continue(Some(id))
  }

  /** OptionalAuth sets the identity AuthRequired would, and none where AuthRequired aborts. */
  lemma OptionalAgreesWithRequired(req: Request, users: seq<UserRow>, revoked: seq<string>, parse: string -> Option<Claims>)
    ensures var required := AuthRequired(req, users, revoked, parse);
      OptionalAuth(req, users, revoked, parse).identity == (if required.Continue? then required.identity else None)
  {
  }

  /**
   * A cookie token of three bytes makes both middlewares as written answer
   * 500, where AuthRequired as intended answers 401 and OptionalAuth lets
   * the request on without an identity.
   */
  lemma ShortTokenPanics(users: seq<UserRow>, revoked: seq<string>, parse: string -> Option<Claims>)
    requires parse("abc").None?
    ensures var req := Request("GET", "", Some("abc"));
      && AuthRequiredAsWritten(req, users, revoked, parse) == Aborted(InternalPanic)
      && OptionalAuthAsWritten(req, users, revoked, parse) == Aborted(InternalPanic)
      && AuthRequired(req, users, revoked, parse) == Aborted(BadCredentials)
      && OptionalAuth(req, users, revoked, parse) == Continue(None)
  {
    var req := Request("GET", "", Some("abc"));
    assert BearerToken("").None?;
    assert TokenOf(req) == "abc";
    AsciiByteLength("abc");
  }

  /** With a token of ten bytes or more, each middleware as written behaves as intended. */
  lemma LongTokensUnaffected(req: Request, users: seq<UserRow>, revoked: seq<string>, parse: string -> Option<Claims>)
    requires ByteLength(TokenOf(req)) >= 10
    ensures AuthRequiredAsWritten(req, users, revoked, parse) == AuthRequired(req, users, revoked, parse)
    ensures OptionalAuthAsWritten(req, users, revoked, parse) == OptionalAuth(req, users, revoked, parse)
  {
    ValidationsAgree(TokenOf(req), revoked, parse);
  }

  /** A revoked token never yields an identity. */
  lemma RevokedTokenRefused(req: Request, users: seq<UserRow>, revoked: seq<string>, parse: string -> Option<Claims>)
    requires req.verb != "OPTIONS" && TokenOf(req) != "" && TokenOf(req) in revoked
    ensures AuthRequired(req, users, revoked, parse) == Aborted(BadCredentials)
    ensures OptionalAuth(req, users, revoked, parse) == Continue(None)
  {
  }

  // ----------------------------------------------------------- role gates

  /** A role gate over the user in the context: None lets the request on. */
  function AdminRequired(identity: Option<Identity>): (r: Option<Reason>)
    ensures r.None? <==> identity.Some? && identity.value.user.userType == Admin
    ensures identity.None? ==> r == Some(NotLoggedIn)
    ensures identity.Some? && r.Some? ==> r == Some(WrongRole)
  {
    if identity.None? then Some(NotLoggedIn)
    else if identity.value.user.userType != Admin then Some(WrongRole)
    else None
  }

  function EmployerRequired(identity: Option<Identity>): (r: Option<Reason>)
    ensures r.None? <==> identity.Some? && identity.value.user.userType in {Employer, Admin}
    ensures identity.None? ==> r == Some(NotLoggedIn)
    ensures identity.Some? && r.Some? ==> r == Some(WrongRole)
  {
    if identity.None? then Some(NotLoggedIn)
    else if identity.value.user.userType != Employer && identity.value.user.userType != Admin then Some(WrongRole)
    else None
  }

  function WorkerRequired(identity: Option<Identity>): (r: Option<Reason>)
    ensures r.None? <==> identity.Some? && identity.value.user.userType in {Worker, Admin}
    ensures identity.None? ==> r == Some(NotLoggedIn)
    ensures identity.Some? && r.Some? ==> r == Some(WrongRole)
  {
    if identity.None? then Some(NotLoggedIn)
    else if identity.value.user.userType != Worker && identity.value.user.userType != Admin then Some(WrongRole)
    else None
  }

  /**
   * The gates nest: whoever passes the admin gate passes the other two,
   * and only an admin passes both the employer and the worker gate.
   */
  lemma GatesNest(identity: Option<Identity>)
    ensures AdminRequired(identity).None? ==> EmployerRequired(identity).None? && WorkerRequired(identity).None?
    ensures EmployerRequired(identity).None? && WorkerRequired(identity).None? <==> AdminRequired(identity).None?
  {
  }

  /**
   * Behind AuthRequired, a gate that lets a request on has the identity of
   * a stored user who is not deactivated.
   */
  lemma GatedUserIsActive(req: Request, users: seq<UserRow>, revoked: seq<string>, parse: string -> Option<Claims>)
    requires req.verb != "OPTIONS"
    requires AuthRequired(req, users, revoked, parse).Continue?
    ensures var id := AuthRequired(req, users, revoked, parse).identity;
      && id.Some? && 1 <= id.value.userId <= |users|
      && id.value.user == users[id.value.userId - 1] && id.value.user.deletedAt.None?
  {
  }
}
