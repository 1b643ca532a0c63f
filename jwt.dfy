/**
 * The shapes of jsonwebtoken's `sign` and `verify`. Their cryptography is not
 * part of this model: a Signer and a Verifier are parameters, and properties
 * that need a relation between them take that relation as a hypothesis.
 */
module Jwt {
  import opened Wrappers
  import opened Store

  /** The payload `{ _id }` a token asserts. */
  datatype Claims = Claims(id: Id)

  /** `jwt.sign(claims, secret, { expiresIn })` */
  type Signer = (Claims, string, string) -> string

  /**
   * `jwt.verify(token, secret)`: the decoded payload, or None where jsonwebtoken
   * throws (bad signature, malformed token, expired).
   */
  type Verifier = (string, string) -> Option<Claims>

  /** The expiry login asks for. */
  const EXPIRES_IN: string := "7d"

  /**
   * The property jsonwebtoken is relied on for, within a token's lifetime: a
   * token verifies under the key it was signed with, giving back its payload,
   * and under no other key.
   */
  ghost predicate KeyBound(sign: Signer, verify: Verifier) {
    forall c, k, k', e :: verify(sign(c, k, e), k') == if k == k' then Some(c) else None
  }
}
