/**
 * The cryptographic primitives the core relies on, kept uninterpreted: SHA-256 (FIPS 180-4),
 * HMAC-SHA-256 (section 2 of RFC 2104) rendered in lower-case hex, and JWT signing and
 * verification. Every operation that needs one takes it as a parameter, so each property is
 * proved for every possible implementation of the primitive.
 */
module Crypto {
  import opened Wrappers

  type Bytes = seq<bv8>

  /** crypto.createHash('sha256') and crypto.createHmac('sha256', key).digest('hex'). */
  datatype Hasher = Hasher(sha256: string -> Bytes, hmacSha256Hex: (Bytes, string) -> string)

  /** The claims the backend signs: `sub` and `role`, either of which may be undefined. */
  datatype JwtPayload = JwtPayload(sub: Option<string>, role: Option<string>)

  /** What `jwtService.verify` does with a token: the payload, or the name of the error it throws. */
  datatype VerifyOutcome = Verified(payload: JwtPayload) | Rejected(errorName: string)

  /** A verifier accepts exactly what the signer produced (used only by end-to-end lemmas). */
  ghost predicate Inverts(sign: JwtPayload -> string, verify: string -> VerifyOutcome) {
    forall p :: verify(sign(p)) == Verified(p)
  }
}
