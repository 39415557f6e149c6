/**
 * The password and token helpers (src/auth/security.py,
 * src/controllers/middleware/auth.py) are outside this model: hashing,
 * verifying and JWT encoding are functions handed to the handlers.
 */
module Credentials {

  /** The payload given to `create_access_token`: subject and expiry delta in minutes. */
  datatype Claims = Claims(sub: string, expiresMinutes: int)

  /** `get_password_hash`, `verify_password(plain, hashed)` and `create_access_token`. */
  datatype Crypto = Crypto(
    hash: string -> string,
    verify: (string, string) -> bool,
    encode: Claims -> string)

  /** The `Token` response of the login routes. */
  datatype Token = Token(accessToken: string, tokenType: string)

  /** `timedelta(minutes=30)` in both login routes. */
  const TokenLifetimeMinutes: int := 30
  const BearerType: string := "bearer"
}
