/** The server's own handlers: its `authenticateJWT` gate, and
    GET /api/user/credentials/:userId, the one route it guards. The routers
    import a middleware of the same name from another file, which this model
    assumes behaves as this gate does. */
module Server {
  import opened Common
  import opened Strings
  import opened Crypto
  import Users

  const BearerPrefix: string := "Bearer "

  /** `req.header('Authorization')?.replace('Bearer ', '')`: an absent header
      stays absent; otherwise the first occurrence of "Bearer " is removed,
      wherever it is. */
  function ExtractToken(header: Option<string>): (t: Option<string>)
    ensures t.None? <==> header.None?
    ensures t.Some? ==> |t.value| <= |header.value|
  {
    match header
    case None => None
    case Some(h) => RemoveFirstShape(h, BearerPrefix); Some(RemoveFirst(h, BearerPrefix))
  }

  /** The header a client builds, `Bearer ${token}`, yields the token back. */
  lemma ExtractBearer(token: string)
    ensures ExtractToken(Some(BearerPrefix + token)) == Some(token)
  {
    RemoveFirstPrefix(BearerPrefix, token);
  }

  /** A header without "Bearer " is taken whole as the token; one with it loses
      exactly those seven characters. */
  lemma ExtractShape(h: string)
    ensures !Contains(h, BearerPrefix) ==> ExtractToken(Some(h)) == Some(h)
    ensures Contains(h, BearerPrefix) ==> |ExtractToken(Some(h)).value| == |h| - 7
  {
    RemoveFirstShape(h, BearerPrefix);
  }

  /** What the gate decides for a request. */
  datatype Verdict = Rejected(status: int) | Accepted(claims: Claims)

  /** The decision `authenticateJWT` takes. `env` is `JWT_SECRET`, and the key
      is `SigningSecret(env)`, the one `Users.Login` signs with.
      `verify(token, key)` stands for `jwt.verify`: the decoded claims, or
      `None` for a bad signature, an expired or a malformed token. */
  function Authenticate(header: Option<string>, env: Option<string>, verify: (string, string) -> Option<Claims>): (v: Verdict)
    ensures header.None? ==> v == Rejected(403)
    ensures ExtractToken(header) == Some("") ==> v == Rejected(403)
    ensures v.Rejected? ==> v.status == 403
    ensures v.Accepted? <==>
      (ExtractToken(header).Some? && ExtractToken(header).value != ""
       && verify(ExtractToken(header).value, SigningSecret(env)).Some?)
    ensures v.Accepted? ==> verify(ExtractToken(header).value, SigningSecret(env)) == Some(v.claims)
  {
    match ExtractToken(header)
    case None => Rejected(403)
    case Some(token) =>
      if token == "" then Rejected(403)
      else match verify(token, SigningSecret(env))
        case None => Rejected(403)
        case Some(claims) => Accepted(claims)
  }

  /** A client that sends `Bearer ${token}` with a non-empty token is admitted
      exactly when the token verifies, as the identity inside it. */
  lemma BearerAdmitted(token: string, env: Option<string>, verify: (string, string) -> Option<Claims>)
    requires token != ""
    ensures Authenticate(Some(BearerPrefix + token), env, verify) ==
      (match verify(token, SigningSecret(env)) case None => Rejected(403) case Some(c) => Accepted(c))
  {
    ExtractBearer(token);
  }

  /** A token issued by login is signed with the very key the gate verifies
      under, and carries the claims of the account that logged in. */
  lemma LoginKeyIsGateKey(users: seq<Users.User>, email: string, password: string, env: Option<string>)
    requires Users.Login(users, email, password, env).Ok?
    ensures Users.Login(users, email, password, env).value.token.secret == SigningSecret(env)
    ensures Users.Login(users, email, password, env).value.token.claims.email == email
  {
  }

  /** The login-to-gate round trip. `encode` is the token's compact text. If
      `verify` accepts every non-empty encoded token under the key it was
      signed with, giving back its claims (a token within its hour), then the
      `Bearer` header a client builds from a login token is admitted as the
      account that logged in. */
  lemma LoginTokenAdmitted(users: seq<Users.User>, email: string, password: string, env: Option<string>,
                           encode: Token -> string, verify: (string, string) -> Option<Claims>)
    requires Users.Login(users, email, password, env).Ok?
    requires forall t: Token :: encode(t) != "" && verify(encode(t), t.secret) == Some(t.claims)
    ensures var s := Users.Login(users, email, password, env).value;
      Authenticate(Some(BearerPrefix + encode(s.token)), env, verify) == Accepted(Claims(s.userId, email))
  {
    var s := Users.Login(users, email, password, env).value;
    BearerAdmitted(encode(s.token), env, verify);
  }

  /** The parts of an Express request and response the gate touches. */
  class Exchange {
    /** `req.user`. */
    var user: Option<Claims>
    /** How many times the gate has called `next()`. */
    var nextCalls: nat
    /** The status sent with `res.sendStatus`, if any. */
    var sentStatus: Option<int>

    constructor ()
      ensures user.None? && nextCalls == 0 && sentStatus.None?
    {
      user, nextCalls, sentStatus := None, 0, None;
    }

    /** `authenticateJWT(req, res, next)`. */
    method Gate(header: Option<string>, env: Option<string>, verify: (string, string) -> Option<Claims>)
      modifies this
      ensures Authenticate(header, env, verify).Rejected? ==>
        sentStatus == Some(403) && user == old(user) && nextCalls == old(nextCalls)
      ensures Authenticate(header, env, verify).Accepted? ==>
        user == Some(Authenticate(header, env, verify).claims) && nextCalls == old(nextCalls) + 1
        && sentStatus == old(sentStatus)
    {
      var token := ExtractToken(header);
      if token.None? || token.value == "" {
        sentStatus := Some(403);
        return;
      }
      var decoded := verify(token.value, SigningSecret(env));
      if decoded.None? {
        sentStatus := Some(403);
        return;
      }
      user := decoded;
      nextCalls := nextCalls + 1;
    }
  }

  /** The body of a successful credentials request. */
  datatype Credentials = Credentials(username: string, email: string, password: Digest)

  /** GET /api/user/credentials/:userId for the caller `callerId`; `query` is
      the users table, `None` when the query fails. */
  function CredentialsFor(query: Option<seq<Users.User>>, callerId: int, userIdParam: string): (reply: Reply<Credentials>)
    ensures ParseInt(userIdParam) != Some(callerId) ==> reply == Err(403, "Unauthorized")
    ensures ParseInt(userIdParam) == Some(callerId) && query.None? ==> reply == Err(500, "Database error")
    ensures (ParseInt(userIdParam) == Some(callerId) && query.Some?
             && forall u :: u in query.value ==> u.user_id != callerId) ==> reply == Err(404, "User not found")
    ensures reply.Ok? ==> reply.status == 200 && query.Some?
    ensures reply.Ok? ==>
      exists u :: u in query.value && u.user_id == callerId && reply.value == Credentials(u.name, u.email, u.password)
  {
    if ParseInt(userIdParam) != Some(callerId) then Err(403, "Unauthorized")
    else match query
      case None => Err(500, "Database error")
      case Some(users) =>
        match Users.FindUser(users, callerId)
        case None => Err(404, "User not found")
        case Some(u) => Ok(200, Credentials(u.name, u.email, u.password))
  }
}
