/** The two cryptographic libraries the backend calls, as abstract models:
    bcrypt (salted one-way password hashing) and jsonwebtoken (signed tokens). */
module Crypto {
  import opened Common

  /** The cost factor every `bcrypt.hash` call in the backend passes. */
  const SaltRounds: nat := 10

  /** A stored bcrypt hash. The model is an ideal hash: it remembers which
      password it was made from (never revealed to the routes, which only
      call `Compare`), with the random salt and the cost factor beside it. */
  datatype Digest = Bcrypt(rounds: nat, salt: nat, secret: string)

  /** `bcrypt.hash(password, 10)`; the random salt is a parameter. */
  function Hash(password: string, salt: nat): (d: Digest)
    ensures d.rounds == SaltRounds && d.salt == salt
    ensures Compare(password, d)
  {
    Bcrypt(SaltRounds, salt, password)
  }

  /** `bcrypt.compare(password, digest)`. */
  predicate Compare(password: string, d: Digest): (ok: bool)
    ensures ok ==> d == Bcrypt(d.rounds, d.salt, password)
  {
    d.secret == password
  }

  /** A hash accepts exactly the password it was made from, whatever the salt. */
  lemma CompareHash(password: string, candidate: string, salt: nat)
    ensures Compare(candidate, Hash(password, salt)) <==> candidate == password
  {
  }

  /** The claims `jwt.sign` puts into a login token. */
  datatype Claims = Claims(userId: int, email: string)

  /** A signed token, as an opaque value built by `Sign`. */
  datatype Token = Jwt(claims: Claims, secret: string, expiresIn: string)

  const FallbackSecret: string := "fallback_secret_key"

  /** `process.env.JWT_SECRET || 'fallback_secret_key'`: an unset or empty
      variable falls back to the built-in key. */
  function SigningSecret(env: Option<string>): (k: string)
    ensures k != ""
    ensures env.Some? && env.value != "" ==> k == env.value
    ensures env.None? || env.value == "" ==> k == FallbackSecret
  {
    match env
    case Some(v) => if v != "" then v else FallbackSecret
    case None => FallbackSecret
  }

  /** `jwt.sign(claims, secret, { expiresIn: '1h' })`. */
  function Sign(claims: Claims, secret: string): (t: Token)
    ensures t.claims == claims && t.secret == secret && t.expiresIn == "1h"
  {
    Jwt(claims, secret, "1h")
  }
}
