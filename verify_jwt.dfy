/** The verifyJwt request middleware: bearer-token extraction, signature
    verification (an external function here), dispatch on the claimed role,
    and the mapping of everything thrown inside its try block to a 400. */
module JwtMiddleware {
  import opened Common

  const BEARER := "Bearer "

  /** `pat` occurs in `s` at index `i`. */
  predicate OccursAt(s: string, pat: string, i: nat)
  {
    i + |pat| <= |s| && s[i..i + |pat|] == pat
  }

  /** The index of the first occurrence of `pat` in `s`, as String.prototype.indexOf finds it. */
  function IndexOf(s: string, pat: string): (r: Option<nat>)
    ensures r.Some? ==> OccursAt(s, pat, r.value)
    ensures r.Some? ==> forall j: nat :: j < r.value ==> !OccursAt(s, pat, j)
    ensures r.None? ==> forall j: nat :: !OccursAt(s, pat, j)
    decreases |s|
  {
    if |s| < |pat| then None
    else if s[..|pat|] == pat then Some(0)
    else
      var rest := IndexOf(s[1..], pat);
      assert forall j: nat :: 1 <= j && OccursAt(s, pat, j) ==> OccursAt(s[1..], pat, j - 1) by {
        forall j: nat | 1 <= j && OccursAt(s, pat, j) ensures OccursAt(s[1..], pat, j - 1) {
          assert s[1..][j - 1..j - 1 + |pat|] == s[j..j + |pat|];
        }
      }
      assert !OccursAt(s, pat, 0) by { assert s[0..|pat|] == s[..|pat|]; }
      match rest
      case None => None
      case Some(i) =>
        assert s[1..][i..i + |pat|] == s[i + 1..i + 1 + |pat|];
        Some(i + 1)
  }

  /** `s.replace(pat, replacement)` for a string pattern: only the first occurrence is replaced. */
  function ReplaceFirst(s: string, pat: string, replacement: string): (r: string)
    ensures IndexOf(s, pat).None? ==> r == s
    ensures IndexOf(s, pat).Some? ==>
      var i := IndexOf(s, pat).value;
      && |r| == |s| - |pat| + |replacement|
      && r[..i] == s[..i]
      && r[i..i + |replacement|] == replacement
      && r[i + |replacement|..] == s[i + |pat|..]
  {
    match IndexOf(s, pat)
    case None => s
    case Some(i) => s[..i] + replacement + s[i + |pat|..]
  }

  /** The token verifyJwt works with: the Authorization header with its first
      "Bearer " removed; an absent header or an empty result yields None. */
  function ExtractToken(authorization: Option<string>): (token: Option<string>)
    ensures authorization.None? ==> token.None?
    ensures token.Some? ==> token.value != ""
    ensures authorization.Some? && OccursAt(authorization.value, BEARER, 0) ==>
      token == if |authorization.value| == |BEARER| then None else Some(authorization.value[|BEARER|..])
    ensures authorization.Some? && (forall j: nat :: !OccursAt(authorization.value, BEARER, j)) ==>
      token == if authorization.value == "" then None else Some(authorization.value)
    ensures token.Some? ==> authorization.Some? && |token.value| + |BEARER| >= |authorization.value|
    ensures authorization.Some? && IndexOf(authorization.value, BEARER).Some? ==>
      var i := IndexOf(authorization.value, BEARER).value;
      var stripped := authorization.value[..i] + authorization.value[i + |BEARER|..];
      token == if stripped == "" then None else Some(stripped)
  {
    match authorization
    case None => None
    case Some(header) =>
      var stripped := ReplaceFirst(header, BEARER, "");
      assert OccursAt(header, BEARER, 0) ==> stripped == header[|BEARER|..] by {
        if OccursAt(header, BEARER, 0) {
          assert IndexOf(header, BEARER) == Some(0);
          assert header[..0] + "" + header[|BEARER|..] == header[|BEARER|..];
        }
      }
      if stripped == "" then None else Some(stripped)
  }

  /** The decoded payload: the subject id and the role, as strings. */
  datatype Claims = Claims(id: string, role: string)

  /** The error classes of the token library: TokenExpiredError and
      NotBeforeError are subclasses of JsonWebTokenError, so they are tested
      first. */
  datatype JwtErrorKind = TokenExpired | NotBefore | OtherJwtError

  /** What the external `verify(token, secret)` gives back. */
  datatype Verification = Verified(claims: Claims) | Rejected(kind: JwtErrorKind)

  /** What the try block can throw: a token error, an ApiError of its own,
      or the cast error findById raises for an id that is not an ObjectId. */
  datatype Thrown = JwtThrown(kind: JwtErrorKind) | ApiThrown(error: HttpError) | CastFailed

  /** The catch block: every error becomes a 400, token errors with their own
      message and everything else, the handler's own 404 included, as
      "Internal Server Error". */
  function CaughtToError(thrown: Thrown): (e: HttpError)
    ensures e.HttpError? && e.status == 400
    ensures thrown == JwtThrown(TokenExpired) <==> e.message == "Token has expired"
    ensures thrown == JwtThrown(NotBefore) <==> e.message == "Token not yet valid"
    ensures thrown == JwtThrown(OtherJwtError) <==> e.message == "Malformed token"
    ensures !thrown.JwtThrown? <==> e.message == "Internal Server Error"
  {
    match thrown
    case JwtThrown(TokenExpired) => HttpError(400, "Token has expired")
    case JwtThrown(NotBefore) => HttpError(400, "Token not yet valid")
    case JwtThrown(OtherJwtError) => HttpError(400, "Malformed token")
    case _ => HttpError(400, "Internal Server Error")
  }

  /** The part of the Express request the middleware reads and writes:
      the Authorization header, req.customer, req.admin, and how many times
      `next` has been called. */
  class Request<C, A> {
    var authorization: Option<string>
    var customer: Option<C>
    var admin: Option<A>
    var nextCalls: nat

    constructor (authorization: Option<string>)
      ensures this.authorization == authorization && customer.None? && admin.None? && nextCalls == 0
    {
      this.authorization := authorization;
      customer, admin, nextCalls := None, None, 0;
    }
  }

  /** verifyJwt. `verify` is the signature check with the configured secret,
      `isObjectId` says whether findById can cast an id, and `customers` and
      `admins` are the two collections. The result is what the middleware
      throws, or None when it returns normally. */
  method VerifyJwt<C, A>(req: Request<C, A>, verify: string -> Verification, isObjectId: string -> bool,
                         customers: map<Id, C>, admins: map<Id, A>)
    returns (thrown: Option<HttpError>)
    modifies req`customer, req`admin, req`nextCalls
    ensures ExtractToken(req.authorization).None? ==>
      thrown == Some(HttpError(401, "Unauthorized request"))
      && req.customer == old(req.customer) && req.admin == old(req.admin) && req.nextCalls == old(req.nextCalls)
    ensures ExtractToken(req.authorization).Some? ==>
      var token := ExtractToken(req.authorization).value;
      match verify(token)
      case Rejected(kind) =>
        thrown == Some(CaughtToError(JwtThrown(kind)))
        && req.customer == old(req.customer) && req.admin == old(req.admin) && req.nextCalls == old(req.nextCalls)
      case Verified(claims) =>
        if claims.role == "customer" then
          if isObjectId(claims.id) && claims.id in customers then
            thrown.None? && req.customer == Some(customers[claims.id])
            && req.admin == old(req.admin) && req.nextCalls == old(req.nextCalls) + 1
          else
            thrown == Some(HttpError(400, "Internal Server Error"))
            && req.customer == old(req.customer) && req.admin == old(req.admin) && req.nextCalls == old(req.nextCalls)
        else if claims.role == "admin" then
          if isObjectId(claims.id) && claims.id in admins then
            thrown.None? && req.admin == Some(admins[claims.id])
            && req.customer == old(req.customer) && req.nextCalls == old(req.nextCalls) + 1
          else
            thrown == Some(HttpError(400, "Internal Server Error"))
            && req.customer == old(req.customer) && req.admin == old(req.admin) && req.nextCalls == old(req.nextCalls)
        else
          thrown.None?
          && req.customer == old(req.customer) && req.admin == old(req.admin) && req.nextCalls == old(req.nextCalls)
    ensures thrown.Some? ==> thrown.value.HttpError? && thrown.value.status in {400, 401}
  {
    var incomingAccessToken := ExtractToken(req.authorization);
    if incomingAccessToken.None? {
      return Some(HttpError(401, "Unauthorized request"));
    }
    var caught: Option<Thrown> := None;
    match verify(incomingAccessToken.value) {
      case Rejected(kind) =>
        caught := Some(JwtThrown(kind));
      case Verified(decoded) =>
        if decoded.role == "customer" {
          if !isObjectId(decoded.id) {
            caught := Some(CastFailed);
          } else if decoded.id !in customers {
            caught := Some(ApiThrown(HttpError(404, "User not found")));
          } else {
            req.customer := Some(customers[decoded.id]);
            req.nextCalls := req.nextCalls + 1;
            return None;
          }
        } else if decoded.role == "admin" {
          if !isObjectId(decoded.id) {
            caught := Some(CastFailed);
          } else if decoded.id !in admins {
            caught := Some(ApiThrown(HttpError(404, "User not found")));
          } else {
            req.admin := Some(admins[decoded.id]);
            req.nextCalls := req.nextCalls + 1;
          }
        }
    }
    match caught {
      case None => thrown := None;
      case Some(t) => thrown := Some(CaughtToError(t));
    }
  }
}
