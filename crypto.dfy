/**
 * The two libraries the user model calls into, kept abstract: bcrypt
 * (`hash`, `compare`) and jsonwebtoken (`sign`, `verify`). They are handed
 * to the model as configuration together with the two signing secrets read
 * from the process environment, and `Sound` states what the account logic
 * assumes of them.
 */
module Crypto {
  import opened Wrappers

  /** A MongoDB ObjectId; ids are issued in increasing order. */
  type UserId = nat
  type Secret = string
  type Token = string

  /** A JWT NumericDate: seconds since the epoch, read from the clock when a token is signed. */
  type NumericDate = int

  /**
   * The payloads the two token builders sign. `jwt.sign` adds `iat`, the
   * time of signing, to every payload.
   */
  datatype Claims =
    | AccessClaims(id: UserId, email: string, username: string, fullName: string, iat: NumericDate)
    | RefreshClaims(id: UserId, iat: NumericDate)

  /**
   * `hash(p)` stands for `bcrypt.hash(p, 10)`, `compare(p, h)` for
   * `bcrypt.compare(p, h)`; `sign(c, k)` for `jwt.sign(c, k, ...)` and
   * `verify(t, k)` for `jwt.verify(t, k)`, whose failure carries the
   * library's error message.
   */
  datatype Crypto = Crypto(
    hash: string -> string,
    compare: (string, string) -> bool,
    sign: (Claims, Secret) -> Token,
    verify: (Token, Secret) -> Result<Claims, string>)

  /** Process configuration: the libraries and the ACCESS_TOKEN_SECRET / REFRESH_TOKEN_SECRET pair. */
  datatype Config = Config(crypto: Crypto, accessSecret: Secret, refreshSecret: Secret)

  /**
   * What the model assumes of the libraries: a password matches its own
   * hash and no other, a hash never equals its plaintext, a token verifies
   * under the secret it was signed with and yields the signed claims, it
   * fails under any other secret, and a signed token is never empty.
   */
  ghost predicate Sound(c: Crypto) {
    && (forall p :: c.compare(p, c.hash(p)))
    && (forall p, q :: p != q ==> !c.compare(p, c.hash(q)))
    && (forall p :: c.hash(p) != p)
    && (forall cl, k :: c.verify(c.sign(cl, k), k) == Success(cl))
    && (forall cl, k, k' :: k != k' ==> c.verify(c.sign(cl, k), k').Failure?)
    && (forall cl, k :: c.sign(cl, k) != "")
  }
}
