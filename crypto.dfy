/**
 * The two foreign libraries the authentication code calls, as values passed
 * in: bcrypt (passlib's `hash` and `verify`) and HS256 JWT (python-jose's
 * `encode` and the signature check inside `decode`). The claim checks that
 * `jwt.decode` performs after the signature check are written out in Decode.
 */
module Crypto {
  import opened Wrappers

  /** A JSON claim value: a string, or a number such as the `exp` instant in seconds. */
  datatype Claim = Text(text: string) | Number(number: int)

  /** A JWT payload, section 4 of RFC 7519. */
  type Claims = map<string, Claim>

  /**
   * The primitives: `hash(password, salt)` is a bcrypt digest under the
   * per-call random salt (the salt is a parameter because the model has no
   * randomness); `verify(password, digest)` is the bcrypt check;
   * `sign(claims, key)` encodes and signs a token; `unsign(token, key)` checks
   * the signature and parses the payload, `None` when either fails.
   */
  datatype Primitives = Primitives(
    hash: (string, nat) -> string,
    verify: (string, string) -> bool,
    sign: (Claims, string) -> string,
    unsign: (string, string) -> Option<Claims>)

  /** The one property assumed of bcrypt: a password verifies against each of its own digests. */
  ghost predicate HashVerifies(p: Primitives)
  {
    forall password, salt :: p.verify(password, p.hash(password, salt))
  }

  /** The one property assumed of the JWT signer: a signed payload unsigns to itself under the same key. */
  ghost predicate SignatureRoundTrips(p: Primitives)
  {
    forall claims, key :: p.unsign(p.sign(claims, key), key) == Some(claims)
  }

  /**
   * The claim checks `jwt.decode` makes on a payload whose signature holds:
   * an `exp` claim must be a number no earlier than `now` (the token counts
   * as expired only once `exp < now`), and a `sub` claim must be a string.
   */
  predicate ClaimsAccepted(claims: Claims, now: int)
  {
    && ("exp" in claims ==> claims["exp"].Number? && now <= claims["exp"].number)
    && ("sub" in claims ==> claims["sub"].Text?)
  }

  /** `jwt.decode(token, key)` at time `now`: the payload, or `None` for a `JWTError`. */
  function Decode(p: Primitives, token: string, key: string, now: int): (r: Option<Claims>)
    ensures r.Some? ==> p.unsign(token, key) == r && ClaimsAccepted(r.value, now)
    ensures r.None? <==> p.unsign(token, key).None? || !ClaimsAccepted(p.unsign(token, key).value, now)
  {
    match p.unsign(token, key)
    case None => None
    case Some(claims) => if ClaimsAccepted(claims, now) then Some(claims) else None
  }
}
