/** The two guards of index.js: `verifyJWT` (is there a valid bearer token?)
    and `verifyAdmin` (does the token's email belong to an admin record?). */
module Auth {
  import opened Json
  import opened Strings

  /** The payload `jwt.sign` is given and `jwt.verify` decodes: `{ email }`. */
  datatype Claims = Claims(email: string)

  /** The two-hour token lifetime, in seconds. */
  const TOKEN_LIFETIME: nat := 2 * 60 * 60

  /** The token service with `ACCESS_TOKEN_SECRET` fixed: `sign(claims,
      lifetime)` is `jwt.sign`, `verify(token)` is `jwt.verify` at the current
      time (`None` is the error passed to its callback). Both are opaque
      oracles: signatures and the clock are not modelled. */
  datatype Jwt = Jwt(sign: (Claims, nat) -> string, verify: string -> Option<Claims>)

  /** The verdict of a guard: call `next` with the requester's email, answer
      with a status code, or throw (an unhandled promise rejection: no
      response is sent). */
  datatype Gate = Pass(email: string) | Reject(code: int, message: string) | Fault

  /** The second space-separated part of the header; `None` when there is none. */
  function BearerToken(header: string): (token: Option<string>)
    ensures token.Some? <==> ' ' in header
    ensures token.Some? ==> ' ' !in token.value
  {
    var parts := Split(header, ' ');
    if |parts| >= 2 then Some(parts[1]) else None
  }

  /** `"<scheme> <token>"` yields the token, whatever the scheme word is. */
  lemma BearerRoundTrip(scheme: string, token: string)
    requires ' ' !in scheme && ' ' !in token
    ensures BearerToken(scheme + " " + token) == Some(token)
  {
    SplitAtFirstSeparator(scheme, ' ', token);
    SplitWithoutSeparator(token, ' ');
    assert scheme + " " + token == scheme + [' '] + token;
  }

  /** `verifyJWT` (index.js:19-32). A missing or empty header is 401; a header
      whose second space-separated part is absent or empty (jsonwebtoken's
      "jwt must be provided") or fails verification is 403; only a verified
      token passes, carrying its decoded email. */
  function VerifyJwt(jwt: Jwt, header: Option<string>): (g: Gate)
    ensures !g.Fault?
    ensures g == Reject(401, "UnAuthorized access") <==> header.None? || header == Some("")
    ensures g.Reject? && g.code != 401 ==> g == Reject(403, "Forbidden access")
    ensures g.Pass? <==>
              && header.Some? && header.value != ""
              && BearerToken(header.value).Some? && BearerToken(header.value).value != ""
              && jwt.verify(BearerToken(header.value).value).Some?
    ensures g.Pass? ==> jwt.verify(BearerToken(header.value).value) == Some(Claims(g.email))
  {
    if header.None? || header.value == "" then Reject(401, "UnAuthorized access")
    else
      match BearerToken(header.value)
      case None => Reject(403, "Forbidden access")
      case Some(token) =>
        if token == "" then Reject(403, "Forbidden access")
        else
          match jwt.verify(token)
          case None => Reject(403, "Forbidden access")
          case Some(claims) => Pass(claims.email)
  }

  /** The stored role is the string 'admin' (strict equality: a missing role is not). */
  predicate IsAdmin(account: Doc) {
    Get(account, "role") == Some(Str("admin"))
  }

  /** `verifyAdmin` (index.js:46-55): passes exactly on a stored role of
      'admin', answers 403 on any other role, and throws when the requester
      has no record (reading a field of the missing record throws). */
  function VerifyAdmin(users: map<string, Doc>, requester: string): (g: Gate)
    ensures g.Pass? <==> requester in users && IsAdmin(users[requester])
    ensures g.Pass? ==> g.email == requester
    ensures g.Fault? <==> requester !in users
    ensures g.Reject? ==> g == Reject(403, "forbidden")
  {
    if requester !in users then Fault
    else if IsAdmin(users[requester]) then Pass(requester)
    else Reject(403, "forbidden")
  }

  /** `verifyJWT, verifyAdmin` chained in front of a handler: the second guard
      runs only when the first passes, on the token's email. */
  function AdminGuard(jwt: Jwt, users: map<string, Doc>, header: Option<string>): (g: Gate)
    ensures !VerifyJwt(jwt, header).Pass? ==> g == VerifyJwt(jwt, header)
    ensures g.Pass? <==>
              && VerifyJwt(jwt, header).Pass?
              && VerifyJwt(jwt, header).email in users
              && IsAdmin(users[VerifyJwt(jwt, header).email])
    ensures g.Pass? ==> g.email == VerifyJwt(jwt, header).email
    ensures g.Fault? <==> VerifyJwt(jwt, header).Pass? && VerifyJwt(jwt, header).email !in users
  {
    match VerifyJwt(jwt, header)
    case Pass(email) => VerifyAdmin(users, email)
    case other => other
  }

  /** A token issued by `jwt.sign` for `{ email }` and accepted by
      `jwt.verify` authenticates a request sent as `Bearer <token>` with that
      email. */
  lemma IssuedTokenAuthenticates(jwt: Jwt, email: string, scheme: string)
    requires ' ' !in scheme
    requires ' ' !in jwt.sign(Claims(email), TOKEN_LIFETIME) && jwt.sign(Claims(email), TOKEN_LIFETIME) != ""
    requires jwt.verify(jwt.sign(Claims(email), TOKEN_LIFETIME)) == Some(Claims(email))
    ensures VerifyJwt(jwt, Some(scheme + " " + jwt.sign(Claims(email), TOKEN_LIFETIME))) == Pass(email)
  {
    BearerRoundTrip(scheme, jwt.sign(Claims(email), TOKEN_LIFETIME));
  }
}
