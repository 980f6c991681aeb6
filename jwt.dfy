/**
 * The JSON Web Token wrapper. Signing and verification are kept abstract:
 * callers receive them as functions.
 */
module Jwt {
  import opened Options

  /** The claims a token carries; the user id is the user's document id. */
  datatype TokenPayload = TokenPayload(userId: nat, email: string, role: string)

  /** `generateToken`: sign a payload (secret and expiry are part of the signer). */
  type Signer = TokenPayload -> string

  /** `verifyToken`: the payload of a valid token, or none (any library error included). */
  type Verifier = string -> Option<TokenPayload>
}
