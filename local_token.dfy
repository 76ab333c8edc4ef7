/**
 * The client's offline session check: reads the cached token, decodes its
 * payload without any secret, and compares the `exp` claim (a JWT
 * NumericDate in seconds, section 4.1.4 of RFC 7519) with the clock.
 */
module LocalToken {

  import opened Wrappers
  import opened Primitives

  /** The outcome of `jwtDecode(token)`: it throws, or yields a payload object whose `exp` may be absent. */
  datatype Decoded = DecodeError | Payload(exp: Option<int>)

  /** `decoded.exp < Date.now() / 1000`, with the clock in integer milliseconds. */
  predicate Expired(exp: int, nowMs: int) {
    exp * 1000 < nowMs
  }

  /**
   * `verifyTokenLocally`: no (or an empty) stored token, a token that does
   * not decode, or an `exp` strictly in the past give false; everything
   * else, including a payload without `exp`, gives true.
   */
  function VerifyTokenLocally(stored: Option<string>, decoded: Decoded, nowMs: int): (valid: bool)
    ensures stored == None || stored == Some("") ==> !valid
    ensures decoded == DecodeError ==> !valid
    ensures valid <==> stored.Some? && stored.value != "" && decoded.Payload? &&
                       (decoded.exp == None || decoded.exp.value * 1000 >= nowMs)
  {
    if stored.None? || stored.value == "" then false
    else match decoded
      case DecodeError => false
      case Payload(exp) =>
        if exp.Some? && Expired(exp.value, nowMs) then false
        else true
  }

  /** An `exp` equal to the current second is still accepted. */
  lemma ExpiryBoundaryAccepted(token: string, exp: int)
    requires token != ""
    ensures VerifyTokenLocally(Some(token), Payload(Some(exp)), exp * 1000)
    ensures !VerifyTokenLocally(Some(token), Payload(Some(exp)), exp * 1000 + 1)
  {
  }

  /** Once expired, always expired: acceptance at a later time implies acceptance at an earlier one. */
  lemma AcceptanceIsMonotone(stored: Option<string>, decoded: Decoded, earlier: int, later: int)
    requires earlier <= later
    ensures VerifyTokenLocally(stored, decoded, later) ==> VerifyTokenLocally(stored, decoded, earlier)
  {
  }

  /**
   * The result depends on the stored token only through its presence: two
   * tokens that decode alike (for instance the same payload under different
   * signatures) are judged alike.
   */
  lemma SignatureIsIgnored(t1: string, t2: string, decoded: Decoded, nowMs: int)
    requires t1 != "" && t2 != ""
    ensures VerifyTokenLocally(Some(t1), decoded, nowMs) == VerifyTokenLocally(Some(t2), decoded, nowMs)
  {
  }

  /**
   * A session token issued at `issuedMs` passes the offline check six days
   * later and fails it eight days later.
   */
  lemma {:induction false} IssuedSessionLifetime(token: string, userId: nat, issuedMs: nat)
    requires token != ""
    ensures var t := IssueSession(userId, issuedMs);
            VerifyTokenLocally(Some(token), Payload(Some(t.exp)), issuedMs + 6 * 24 * 3600 * 1000) &&
            !VerifyTokenLocally(Some(token), Payload(Some(t.exp)), issuedMs + 8 * 24 * 3600 * 1000)
  {
    var t := IssueSession(userId, issuedMs);
    assert t.exp * 1000 == t.iat * 1000 + SecondsPerWeek * 1000;
  }
}
