/** The NestJS auth service: the signed payload, password verification, the
    login cookie and its expiry arithmetic, and the one-time-token flows
    (forgot password, verify email) driven by the user's stored jwtToken. */
module Auth {
  import opened Common

  /** A user document. `jwtToken` is None when the field is unset. */
  datatype User = User(id: Id, email: string, fullName: string, password: string, jwtToken: Option<string>, verified: bool)

  /** What is signed: the user's _id and email, nothing else. */
  datatype JwtPayload = JwtPayload(id: Id, email: string)

  /** The arguments of jwtService.sign: payload, secret and lifetime. */
  datatype SignRequest = SignRequest(payload: JwtPayload, secret: string, expiresIn: string)

  const TOKEN_LIFETIME := "7d"

  function TokenRequest(user: User, secret: string): SignRequest
  {
    SignRequest(JwtPayload(user.id, user.email), secret, TOKEN_LIFETIME)
  }

  /** generateJwtToken; `sign` is the token library's signing function and
      `secret` the configured JWT_SECRET. */
  function GenerateJwtToken(user: User, secret: string, sign: SignRequest -> string): (token: string)
    ensures token == sign(SignRequest(JwtPayload(user.id, user.email), secret, "7d"))
  {
    sign(TokenRequest(user, secret))
  }

  /** The token carries exactly the id and the email with a 7-day lifetime:
      users that agree on those two fields and are signed in the same
      second get the same token, whatever their password, name,
      verification state or stored token. `sign` stands for signing at one
      instant: the library also writes iat and exp from the clock. */
  lemma TokenDependsOnIdAndEmailOnly(a: User, b: User, secret: string, sign: SignRequest -> string)
    requires a.id == b.id && a.email == b.email
    ensures TokenRequest(a, secret).payload == JwtPayload(a.id, a.email)
    ensures TokenRequest(a, secret).expiresIn == "7d"
    ensures GenerateJwtToken(a, secret, sign) == GenerateJwtToken(b, secret, sign)
  {
  }

  /** Milliseconds in 7 days: 60 * 60 * 24 * 7 * 1000. */
  const WEEK_MS := 604800000
  /** The largest time value a Date can hold (ECMAScript TimeClip). */
  const MAX_TIME_VALUE := 8640000000000000

  /** Date.prototype.setMilliseconds(ms) on a Date whose time value is `t`:
      the millisecond part of `t` is replaced by `ms` (carrying into the
      seconds and beyond when `ms` is 1000 or more), and a result beyond the
      Date range is an invalid date (None). The millisecond part is the
      non-negative remainder modulo 1000, as Dafny's `%` computes it. The
      conversion to local time and back is left out: the server's offset
      from UTC is taken to be the same whole number of seconds at `t` and
      at the result (a server running in UTC, for one). */
  function SetMilliseconds(t: int, ms: int): (r: Option<int>)
    ensures r.Some? <==> -MAX_TIME_VALUE <= t - t % 1000 + ms <= MAX_TIME_VALUE
    ensures r.Some? ==> (r.value - ms) % 1000 == 0 && 0 <= t - (r.value - ms) < 1000
  {
    var v := t - t % 1000 + ms;
    if -MAX_TIME_VALUE <= v <= MAX_TIME_VALUE then Some(v) else None
  }

  /** The cookie expiry login computes at time `now`:
      `date.setMilliseconds(date.getTime() + WEEK_MS)`. */
  function CookieExpiry(now: int): (expires: Option<int>)
    ensures 0 <= now && expires.Some? ==> expires.value >= now + WEEK_MS
    ensures 0 <= now < 1000 ==> expires == Some(now + WEEK_MS)
  {
    SetMilliseconds(now, now + WEEK_MS)
  }

  /** From the first second of 1970 on, the expiry is not 7 days after `now`:
      it lies `now` rounded down to a whole second further out. */
  lemma ExpiryOvershootsWeek(now: int)
    requires 1000 <= now
    ensures CookieExpiry(now) != Some(now + WEEK_MS)
    ensures CookieExpiry(now).Some? ==> CookieExpiry(now).value == (now + WEEK_MS) + (now - now % 1000)
    ensures now <= 4000000000000000 ==> CookieExpiry(now).Some?
  {
    assert now - now % 1000 >= 1000;
  }

  /** A login at 2023-11-14T22:13:20.123Z sets a cookie that expires in 2077. */
  lemma ExpiryExample()
    ensures CookieExpiry(1700000000123) == Some(3400604800123)
  {
  }

  datatype Cookie = Cookie(name: string, value: string, httpOnly: bool, secure: bool,
                           expires: Option<int>, sameSite: string, domain: string)

  const PRODUCTION_DOMAIN := ".gopal-adhikari.com.np"

  /** login: the user is returned unchanged and an access_token cookie is set.
      `production` is NODE_ENV == "production". */
  function Login(user: User, now: int, secret: string, sign: SignRequest -> string, production: bool): (r: (User, Cookie))
    ensures r.0 == user
    ensures r.1.name == "access_token" && r.1.value == GenerateJwtToken(user, secret, sign)
    ensures r.1.httpOnly && r.1.sameSite == "lax" && r.1.secure == production
    ensures r.1.domain == if production then PRODUCTION_DOMAIN else "localhost"
    ensures r.1.expires == CookieExpiry(now)
  {
    var accessToken := GenerateJwtToken(user, secret, sign);
    (user, Cookie("access_token", accessToken, true, production, CookieExpiry(now), "lax",
                  if production then PRODUCTION_DOMAIN else "localhost"))
  }

  /** What sending the reset mail gives back. */
  datatype MailOutcome = Delivered(info: string) | MailFailed(message: string)

  /** The catch block of verifyEmail: a NotFoundException is rethrown as it
      is, every other error becomes a BadRequest with the same message. */
  function RethrownByVerifyEmail(e: HttpError): (r: HttpError)
    ensures r.HttpError? && r.status in {400, 404}
    ensures (e.HttpError? && e.status == 404) <==> (r == e && r.status == 404)
    ensures !(e.HttpError? && e.status == 404) ==> r.status == 400
    ensures r.message == if e.HttpError? then e.message else e.text
  {
    match e
    case HttpError(status, message) => if status == 404 then e else HttpError(400, message)
    case MessageOnly(text) => HttpError(400, text)
  }

  /** Every error verifyEmail's own code raises comes out of its catch block unchanged. */
  lemma VerifyEmailCatchKeepsOwnErrors(message: string)
    ensures RethrownByVerifyEmail(HttpError(400, message)) == HttpError(400, message)
    ensures RethrownByVerifyEmail(HttpError(404, message)) == HttpError(404, message)
  {
  }

  /** The user collection, looked up by email (getUser({ email })). */
  class AuthService {
    var users: map<string, User>

    /** Each user is stored under its own email, as getUser({ email }) finds it. */
    predicate Valid()
      reads this
    {
      forall e :: e in users ==> users[e].email == e
    }

    constructor (users: map<string, User>)
      requires forall e :: e in users ==> users[e].email == e
      ensures this.users == users
      ensures Valid()
    {
      this.users := users;
    }

    /** verifyUser; `compare` is bcrypt's comparison of a plain password with
        a stored hash. For an unknown email the user is null and reading its
        password raises a TypeError. */
    function VerifyUser(email: string, password: string, compare: (string, string) -> bool): (r: Result<User>)
      reads this
      ensures r.Ok? <==> email in users && compare(password, users[email].password)
      ensures r.Ok? ==> r.value == users[email]
      ensures email in users && !compare(password, users[email].password) ==>
        r == Err(HttpError(400, "Invalid email or password"))
    {
      if email !in users then Err(INTERNAL_ERROR)
      else if !compare(password, users[email].password) then Err(HttpError(400, "Invalid email or password"))
      else Ok(users[email])
    }

    /** requestForgotPassword: a fresh token is mailed and then stored as the
        user's jwtToken. The mail goes out before the save, so a failed mail
        stores nothing. */
    method RequestForgotPassword(email: string, secret: string, sign: SignRequest -> string,
                                 sendMail: (string, string, string) -> MailOutcome)
      returns (r: Result<string>)
      modifies this`users
      ensures email !in old(users) ==> r == Err(HttpError(404, "User not found")) && users == old(users)
      ensures email in old(users) ==>
        var user := old(users)[email];
        var token := GenerateJwtToken(user, secret, sign);
        match sendMail(user.fullName, email, token)
        case MailFailed(_) => r == Err(INTERNAL_ERROR) && users == old(users)
        case Delivered(info) => r == Ok(info) && users == old(users)[email := user.(jwtToken := Some(token))]
      ensures old(Valid()) ==> Valid()
    {
      if email !in users {
        return Err(HttpError(404, "User not found"));
      }
      var user := users[email];
      var accessToken := GenerateJwtToken(user, secret, sign);
      var data := sendMail(user.fullName, email, accessToken);
      if data.MailFailed? {
        return Err(INTERNAL_ERROR);
      }
      user := user.(jwtToken := Some(accessToken));
      users := users[email := user];
      r := Ok(data.info);
    }

    /** confirmForgotPassword. `token` is the token the request carries, None
        when absent; it is compared with the stored jwtToken as it is, so an
        absent token matches an unset jwtToken. */
    method ConfirmForgotPassword(token: Option<string>, email: string, password: string, confirmPassword: string)
      returns (r: Result<User>)
      modifies this`users
      ensures email !in old(users) ==> r == Err(HttpError(404, "User not found"))
      ensures email in old(users) && old(users)[email].jwtToken != token ==> r == Err(HttpError(400, "Invalid token"))
      ensures email in old(users) && old(users)[email].jwtToken == token && password != confirmPassword ==>
        r == Err(HttpError(400, "Passsowrd and confirm password do not match"))
      ensures r.Err? ==> users == old(users)
      ensures r.Ok? <==> email in old(users) && old(users)[email].jwtToken == token && password == confirmPassword
      ensures r.Ok? ==>
        var reset := old(users)[email].(password := password, jwtToken := None);
        r.value == reset && users == old(users)[email := reset]
      ensures old(Valid()) ==> Valid()
    {
      if email !in users {
        return Err(HttpError(404, "User not found"));
      }
      var user := users[email];
      if user.jwtToken != token {
        return Err(HttpError(400, "Invalid token"));
      }
      if password != confirmPassword {
        return Err(HttpError(400, "Passsowrd and confirm password do not match"));
      }
      user := user.(password := password, jwtToken := None);
      users := users[email := user];
      r := Ok(user);
    }

    /** verifyEmail: the body of its try block, then its catch block.
        An empty email stands for a missing one. */
    method VerifyEmail(email: string, token: Option<string>)
      returns (r: Result<User>)
      modifies this`users
      ensures email == "" ==> r == Err(HttpError(400, "Email is required"))
      ensures email != "" && email !in old(users) ==> r == Err(HttpError(404, "User not found"))
      ensures email != "" && email in old(users) && old(users)[email].jwtToken != token ==> r == Err(HttpError(400, "Invalid token"))
      ensures r.Err? ==> users == old(users)
      ensures r.Ok? <==> email != "" && email in old(users) && old(users)[email].jwtToken == token
      ensures r.Ok? ==>
        var verified := old(users)[email].(verified := true, jwtToken := None);
        r.value == verified && users == old(users)[email := verified]
      ensures old(Valid()) ==> Valid()
    {
      var thrown: Option<HttpError> := None;
      if email == "" {
        thrown := Some(HttpError(400, "Email is required"));
      } else if email !in users {
        thrown := Some(HttpError(404, "User not found"));
      } else if users[email].jwtToken != token {
        thrown := Some(HttpError(400, "Invalid token"));
      } else {
        var user := users[email].(verified := true, jwtToken := None);
        users := users[email := user];
        return Ok(user);
      }
      r := Err(RethrownByVerifyEmail(thrown.value));
    }
  }

  /** A reset token is single-use: replaying the same token after a
      successful confirmation is rejected and changes nothing. */
  method ReplayedResetFails(service: AuthService, token: string, email: string, password: string)
    returns (first: Result<User>, replay: Result<User>)
    modifies service
    ensures first.Ok? ==> replay == Err(HttpError(400, "Invalid token"))
  {
    first := service.ConfirmForgotPassword(Some(token), email, password, password);
    replay := service.ConfirmForgotPassword(Some(token), email, password, password);
  }

  /** Once the stored token is cleared, a request that carries no token at
      all passes the token check. */
  method ResetWithoutTokenAfterReset(service: AuthService, token: string, email: string, password: string, other: string)
    returns (first: Result<User>, second: Result<User>)
    modifies service
    ensures first.Ok? ==> second.Ok? && second.value.password == other
  {
    first := service.ConfirmForgotPassword(Some(token), email, password, password);
    second := service.ConfirmForgotPassword(None, email, other, other);
  }

  /** The token mailed by requestForgotPassword confirms the reset. */
  method RequestThenConfirm(service: AuthService, email: string, secret: string, sign: SignRequest -> string,
                            sendMail: (string, string, string) -> MailOutcome, password: string)
    returns (requested: Result<string>, confirmed: Result<User>)
    modifies service
    ensures requested.Ok? ==> confirmed.Ok? && confirmed.value.password == password && confirmed.value.jwtToken.None?
  {
    requested := service.RequestForgotPassword(email, secret, sign, sendMail);
    var token := if email in service.users then service.users[email].jwtToken else None;
    confirmed := service.ConfirmForgotPassword(token, email, password, password);
  }
}
