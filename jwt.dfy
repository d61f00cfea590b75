/**
 * validateToken: jwt.Parse with a key function that refuses every signing
 * method outside the HMAC family and otherwise supplies the shared secret.
 * The jwt library itself is not part of this model; what it learns from a
 * token string is given by an abstract parse function.
 */
module Jwt {

  /** The signing-method families jwt-go knows. */
  datatype SigningFamily = HMAC | RSA | RSAPSS | ECDSA | Unsigned

  /**
   * What jwt.Parse learns from a token string before checking it: either it
   * is malformed (wrong segment count, bad encoding, unknown "alg"), or it
   * names a signing method, carries claims that are currently valid or not,
   * and has a signature that verifies under a given key or not.
   */
  datatype ParsedToken =
    | Malformed
    | Parsed(alg: SigningFamily, claimsValid: bool, verifiesWith: string -> bool)

  /** The shared secret handed out by the key function. */
  const SigningKey := "secretsecret"

  /**
   * `validateToken(accessToken)`: true exactly when the token parses, its
   * method is HMAC (the key function fails otherwise), its claims are valid
   * and its signature verifies under the shared secret.
   */
  function ValidateToken(accessToken: string, parse: string -> ParsedToken): (valid: bool)
    ensures valid <==> parse(accessToken).Parsed? && parse(accessToken).alg == HMAC
                       && parse(accessToken).claimsValid
                       && parse(accessToken).verifiesWith(SigningKey)
  {
    match parse(accessToken)
    case Malformed => false
    case Parsed(alg, claimsValid, verifiesWith) =>
      if alg != HMAC then false   // the key function returns an error
      else claimsValid && verifiesWith(SigningKey)
  }

  /** A token signed with any method outside the HMAC family is refused. */
  lemma NonHmacRejected(accessToken: string, parse: string -> ParsedToken)
    requires parse(accessToken).Parsed? && parse(accessToken).alg != HMAC
    ensures !ValidateToken(accessToken, parse)
  {
  }
}
