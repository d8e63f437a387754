/**
 * Token issue and validation, the resolution of a bearer token into the
 * current user, and the password login. `users.py` and `main.py` carry the
 * same code for the first two; Login follows `main.py`, whose check calls the
 * bcrypt verifier (the copy in `users.py` is UserRoutes.LoginAsWritten).
 */
module Auth {
  import opened Wrappers
  import opened Http
  import opened Models
  import opened Crypto
  import opened Repository

  const AccessTokenExpireMinutes := 30

  /** The token lifetime in seconds. */
  const AccessTokenLifetime := AccessTokenExpireMinutes * 60

  /** The one response for every token that does not resolve to a user. */
  const CredentialsError := HttpError(401, "Could not validate credentials", true)

  /** The one response for a login that fails for any reason. */
  const LoginError := HttpError(401, "Incorrect email or password", true)

  /** The `token_type` of section 7.1 of RFC 6749 for bearer tokens. */
  const BearerTokenType := "bearer"

  /**
   * The payload `create_access_token` signs: a copy of the caller's claims
   * with `exp`, section 4.1.4 of RFC 7519, set to the token lifetime after
   * `now`. The caller's map is a value and so cannot change.
   */
  function ToEncode(data: Claims, now: int): (claims: Claims)
    ensures claims.Keys == data.Keys + {"exp"}
    ensures forall k :: k in data && k != "exp" ==> claims[k] == data[k]
    ensures claims["exp"] == Number(now + AccessTokenLifetime)
  {
    data["exp" := Number(now + AccessTokenLifetime)]
  }

  /** `create_access_token`: the signed payload; under the round-trip assumption it unsigns to exactly ToEncode. */
  function CreateAccessToken(p: Primitives, key: string, data: Claims, now: int): (token: string)
    ensures SignatureRoundTrips(p) ==> p.unsign(token, key) == Some(ToEncode(data, now))
  {
    p.sign(ToEncode(data, now), key)
  }

  /** `payload.get("sub")`, section 4.1.2 of RFC 7519, when it is a string. */
  function Subject(claims: Claims): Option<string>
  {
    if "sub" in claims && claims["sub"].Text? then Some(claims["sub"].text) else None
  }

  /**
   * `get_current_user`: the user whose email is the token's subject. A token
   * that does not decode, a payload without a subject and a subject no user
   * has all give the same CredentialsError.
   */
  function GetCurrentUser(p: Primitives, key: string, users: seq<User>, token: string, now: int)
    : (r: Result<User, HttpError>)
    ensures r.Err? ==> r.error == CredentialsError
    ensures r.Ok? <==>
      && Decode(p, token, key, now).Some?
      && Subject(Decode(p, token, key, now).value).Some?
      && GetUserByEmail(users, Subject(Decode(p, token, key, now).value).value).Some?
    ensures r.Ok? ==> r.value in users && Subject(Decode(p, token, key, now).value) == Some(r.value.email)
  {
    match Decode(p, token, key, now)
    case None => Err(CredentialsError)
    case Some(payload) =>
      match Subject(payload)
      case None => Err(CredentialsError)
      case Some(email) =>
        match GetUserByEmail(users, email)
        case None => Err(CredentialsError)
        case Some(user) => Ok(user)
  }

  /** The claims a login puts in its token. */
  function SubjectClaims(email: string): Claims
  {
    map["sub" := Text(email)]
  }

  /**
   * A token issued for a registered email resolves to that user from its
   * issue until the end of its lifetime.
   */
  lemma TokenResolvesUntilExpiry(p: Primitives, key: string, users: seq<User>, u: User, issuedAt: int, now: int)
    requires SignatureRoundTrips(p)
    requires UniqueEmails(users) && u in users
    requires now <= issuedAt + AccessTokenLifetime
    ensures GetCurrentUser(p, key, users, CreateAccessToken(p, key, SubjectClaims(u.email), issuedAt), now) == Ok(u)
  {
    var claims := ToEncode(SubjectClaims(u.email), issuedAt);
    assert ClaimsAccepted(claims, now);
    assert Subject(claims) == Some(u.email);
    GetUserByEmailIsExact(users, u);
  }

  /** Once its lifetime has passed, a token resolves to no one, whatever it names. */
  lemma ExpiredTokenIsRejected(p: Primitives, key: string, users: seq<User>, data: Claims, issuedAt: int, now: int)
    requires SignatureRoundTrips(p)
    requires now > issuedAt + AccessTokenLifetime
    ensures GetCurrentUser(p, key, users, CreateAccessToken(p, key, data, issuedAt), now) == Err(CredentialsError)
  {
    assert !ClaimsAccepted(ToEncode(data, issuedAt), now);
  }

  /**
   * `login` (the OAuth 2.0 password grant of section 4.3 of RFC 6749): a
   * bearer token for the user with that email when the password verifies
   * against the stored digest; an unknown email and a wrong password give the
   * same LoginError.
   */
  function Login(p: Primitives, key: string, users: seq<User>, username: string, password: string, now: int)
    : (r: Result<TokenResponse, HttpError>)
    ensures r.Err? ==> r.error == LoginError
    ensures r.Ok? <==>
      GetUserByEmail(users, username).Some? &&
      p.verify(password, GetUserByEmail(users, username).value.hashedPassword)
    ensures r.Ok? ==>
      r.value.tokenType == BearerTokenType &&
      r.value.accessToken == CreateAccessToken(p, key, SubjectClaims(username), now)
  {
    match GetUserByEmail(users, username)
    case None => Err(LoginError)
    case Some(user) =>
      if !p.verify(password, user.hashedPassword) then Err(LoginError)
      else Ok(TokenResponse(CreateAccessToken(p, key, SubjectClaims(user.email), now), BearerTokenType))
  }

  /** A user who gives the password their digest was made from logs in. */
  lemma RegisteredPasswordLogsIn(
    p: Primitives, key: string, users: seq<User>, u: User, password: string, salt: nat, now: int)
    requires HashVerifies(p)
    requires UniqueEmails(users) && u in users
    requires u.hashedPassword == p.hash(password, salt)
    ensures Login(p, key, users, u.email, password, now).Ok?
  {
    GetUserByEmailIsExact(users, u);
  }

  /**
   * The token a login returns resolves, for its lifetime, to the user who
   * logged in.
   */
  lemma LoginTokenResolvesToUser(
    p: Primitives, key: string, users: seq<User>, username: string, password: string, issuedAt: int, now: int)
    requires SignatureRoundTrips(p) && UniqueEmails(users)
    requires Login(p, key, users, username, password, issuedAt).Ok?
    requires now <= issuedAt + AccessTokenLifetime
    ensures GetUserByEmail(users, username).Some?
    ensures GetCurrentUser(p, key, users, Login(p, key, users, username, password, issuedAt).value.accessToken, now)
         == Ok(GetUserByEmail(users, username).value)
  {
    var u := GetUserByEmail(users, username).value;
    TokenResolvesUntilExpiry(p, key, users, u, issuedAt, now);
  }
}
