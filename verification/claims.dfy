/**
 * The claim mapping carried by a signed compact token (RFC 7519 JWT, signed as RFC 7515 JWS),
 * the typed reads the token engine performs on it, and the signer/verifier it relies on.
 */
module Claims {
  import opened Wrappers

  const Int32Min: int := -0x8000_0000
  const Int32Max: int := 0x7fff_ffff

  predicate IsInt32(n: int) { Int32Min <= n <= Int32Max }

  /** A Java `int`. */
  type Int32 = n: int | IsInt32(n)

  /** A decoded JSON claim value: a number or a string. */
  datatype ClaimValue = Num(n: int) | Text(s: string)

  type ClaimSet = map<string, ClaimValue>

  /**
   * The `(int) claims.get(key)` read. It succeeds only for a number the JSON decoder
   * hands back as an Integer, i.e. one in 32-bit range; a missing key (null unboxing),
   * a string or a wider number (a Long) make the cast throw, which the engine turns
   * into "invalid", so all of those are None here.
   */
  function IntClaim(c: ClaimSet, key: string): Option<int>
  {
    if key in c && c[key].Num? && IsInt32(c[key].n) then Some(c[key].n) else None
  }

  /** The `(String) claims.get(key)` read; None for a missing key or a non-string value. */
  function StrClaim(c: ClaimSet, key: string): Option<string>
  {
    if key in c && c[key].Text? then Some(c[key].s) else None
  }

  /**
   * The keyed JWS signer and verifier. `verify` returns None for every token whose
   * signature, structure or encoding is rejected; all those failures are one outcome.
   */
  datatype Codec = Codec(sign: ClaimSet -> string, verify: string -> Option<ClaimSet>)
  {
    /** Verification recovers exactly the claims that were signed. */
    ghost predicate RoundTrips()
    {
      forall c :: verify(sign(c)) == Some(c)
    }
  }
}
