/**
 * The request guard of src/middleware/auth.ts: `protect` turns the
 * `Authorization` header into an authenticated context or a 401 reply, and
 * `isAdmin` lets a request through only for the ADMIN role.
 *
 * The JWT secret is an explicit optional parameter instead of an environment
 * lookup, and `jwt.verify` is a function parameter: it yields the decoded
 * payload, or None where the library throws (malformed token, bad signature,
 * expired token).
 */
module Middleware {
  import opened Wrappers
  import opened Http
  import opened Strings

  const ADMIN := "ADMIN"
  const USER := "USER"

  /**
   * The payload `protect` attaches as `req.user` (src/types/express.d.ts).
   * The role is a string: the decoded payload is cast, never checked, so
   * the role comparisons below are exact string comparisons.
   */
  datatype AuthContext = AuthContext(id: Id, email: string, role: string, iat: int, exp: int)

  /** How one run of `protect` ends: `next()` with the context attached, a reply, or an exception. */
  datatype Guard =
    | Authenticated(ctx: AuthContext)
    | Rejected(status: int, message: string)
    | Thrown(message: string)

  const BEARER := "Bearer "
  const NO_SECRET := "JWT_SECRET not set in environment variables."
  const NO_TOKEN := "Unauthorized: No token provided"
  const BAD_FORMAT := "Unauthorized: Invalid token format"
  const BAD_TOKEN := "Unauthorized: Invalid token"
  const FORBIDDEN := "Forbidden: Access denied"

  /** `const [, token] = bearer.split(' ')`: the second field, undefined when there is none. */
  function SecondField(s: string): Option<string>
  {
    var fields := Split(s, ' ');
    if |fields| >= 2 then Some(fields[1]) else None
  }

  /** After the prefix "Bearer ", the token is the text up to the next space. */
  lemma BearerToken(rest: string)
    ensures SecondField(BEARER + rest) == Some(FirstWord(rest))
  {
    var s := BEARER + rest;
    assert s[6] == ' ';
    assert s[..6] == "Bearer";
    var i := IndexOf(s, ' ');
    assert i == 6;
    assert s[7..] == rest;
    var fields := Split(rest, ' ');
    if ' ' in rest {
      var j := IndexOf(rest, ' ');
      assert fields[0] == rest[..j];
    }
  }

  /** The token `protect` hands to `verify` for a header that starts with "Bearer ". */
  function Token(header: string): string
    requires StartsWith(header, BEARER)
  {
    FirstWord(header[|BEARER|..])
  }

  /**
   * `protect`: the secret is checked first, then the "Bearer " prefix
   * (case-sensitive), then the second space-separated field, and only then
   * is the token verified.
   */
  function Protect(header: Option<string>, secret: Option<string>,
                   verify: (string, string) -> Option<AuthContext>): (g: Guard)
    ensures !Truthy(secret) ==> g == Thrown(NO_SECRET)
    ensures Truthy(secret) && (header.None? || !StartsWith(header.value, BEARER)) ==>
              g == Rejected(401, NO_TOKEN)
    ensures Truthy(secret) && header.Some? && StartsWith(header.value, BEARER) && Token(header.value) == "" ==>
              g == Rejected(401, BAD_FORMAT)
    ensures g.Authenticated? <==>
              && Truthy(secret) && header.Some? && StartsWith(header.value, BEARER)
              && Token(header.value) != "" && verify(Token(header.value), secret.value).Some?
    ensures g.Authenticated? ==> g.ctx == verify(Token(header.value), secret.value).value
    ensures (&& Truthy(secret) && header.Some? && StartsWith(header.value, BEARER) && Token(header.value) != ""
             && verify(Token(header.value), secret.value).None?) ==> g == Rejected(401, BAD_TOKEN)
  {
    if !Truthy(secret) then Thrown(NO_SECRET)
    else if header.None? || !StartsWith(header.value, BEARER) then Rejected(401, NO_TOKEN)
    else
      var bearer := header.value;
      assert bearer == BEARER + bearer[|BEARER|..];
      BearerToken(bearer[|BEARER|..]);
      var token := SecondField(bearer);
      if token.None? || token.value == "" then Rejected(401, BAD_FORMAT)
      else match verify(token.value, secret.value)
        case Some(user) => Authenticated(user)
        case None => Rejected(401, BAD_TOKEN)
  }

  /** Every run of `protect` with a non-empty secret either calls `next` or replies 401, never both. */
  lemma ProtectEndsOnce(header: Option<string>, secret: string, verify: (string, string) -> Option<AuthContext>)
    requires secret != ""
    ensures var g := Protect(header, Some(secret), verify);
            g.Authenticated? || (g.Rejected? && g.status == 401)
  {
  }

  /** "Bearer " followed by nothing, or by a second space, has an empty token field. */
  lemma EmptyTokenField(secret: string, verify: (string, string) -> Option<AuthContext>)
    requires secret != ""
    ensures Protect(Some("Bearer "), Some(secret), verify) == Rejected(401, BAD_FORMAT)
    ensures Protect(Some("Bearer  x"), Some(secret), verify) == Rejected(401, BAD_FORMAT)
  {
    assert StartsWith("Bearer ", BEARER);
    assert "Bearer "[|BEARER|..] == "";
    var h := "Bearer  x";
    assert StartsWith(h, BEARER);
    assert h[|BEARER|..] == " x";
    assert StartsWith(" x", "") && " x"[0] == ' ';
  }

  /** Only the first word after "Bearer " is verified: "Bearer a b" verifies "a". */
  lemma TokenStopsAtSpace(secret: string, verify: (string, string) -> Option<AuthContext>)
    requires secret != ""
    ensures Protect(Some("Bearer a b"), Some(secret), verify) ==
            if verify("a", secret).Some? then Authenticated(verify("a", secret).value) else Rejected(401, BAD_TOKEN)
  {
    var h := "Bearer a b";
    assert StartsWith(h, BEARER);
    assert h[|BEARER|..] == "a b";
    var w := FirstWord("a b");
    assert w[0] == 'a';
    assert |w| < 2;
    assert w == "a";
  }

  /** The prefix is case-sensitive: "bearer x" is treated as carrying no token. */
  lemma PrefixCaseSensitive(secret: string, verify: (string, string) -> Option<AuthContext>)
    requires secret != ""
    ensures Protect(Some("bearer x"), Some(secret), verify) == Rejected(401, NO_TOKEN)
  {
    assert "bearer x"[0] != BEARER[0];
  }

  /** How `isAdmin` ends: `next()` or a 403 reply. */
  datatype Gate = Proceed | Forbidden(status: int, message: string)

  /** `isAdmin`: `req.user?.role !== 'ADMIN'` denies, so an absent context is denied too. */
  function IsAdmin(user: Option<AuthContext>): (g: Gate)
    ensures g.Proceed? <==> user.Some? && user.value.role == ADMIN
    ensures g.Forbidden? ==> g == Forbidden(403, FORBIDDEN)
  {
    if user.None? || user.value.role != ADMIN then Forbidden(403, FORBIDDEN) else Proceed
  }

  /** A route guarded by `protect, isAdmin` is reached exactly when the token verifies to an ADMIN context. */
  lemma AdminRouteReached(header: Option<string>, secret: Option<string>,
                          verify: (string, string) -> Option<AuthContext>)
    ensures var g := Protect(header, secret, verify);
            (g.Authenticated? && IsAdmin(Some(g.ctx)).Proceed?) <==>
            && Truthy(secret) && header.Some? && StartsWith(header.value, BEARER)
            && Token(header.value) != "" && verify(Token(header.value), secret.value).Some?
            && verify(Token(header.value), secret.value).value.role == ADMIN
  {
  }
}
