/**
 * Properties of the backend that relate several handler calls, each stated
 * as a sequence of calls on one store and proved from the handlers'
 * contracts alone.
 */
module AuthScenarios {

  import opened Wrappers
  import opened Codes
  import opened Primitives
  import opened PendingUserModel
  import opened AuthController

  /** Signing up twice with the same email: the second call reports E001 and changes nothing. */
  method SignupTwiceReportsPending(b: AuthBackend, email: string, password: string, name: string,
                                   now: nat, r1: nat, r2: nat, salt: nat)
      returns (first: Response, second: Response)
    requires b.Valid() && r1 < 900000 && r2 < 900000
    requires email != "" && password != "" && name != ""
    requires email !in b.users && email !in b.pending
    modifies b
    ensures b.Valid()
    ensures first.status == 201 && first.user == None && first.cookie == KeepCookie
    ensures second == Failure(400, AlreadySent, Some(PendingCode))
    ensures email in b.pending && b.pending[email].verificationToken == VerificationCode(r1)
  {
    first := b.Signup(email, password, name, now, r1, salt);
    second := b.Signup(email, password, name, now, r2, salt);
  }

  /**
   * Signing up and then presenting the emailed code before it expires
   * promotes that signup to a verified User, provided no other pending
   * record holds the same code (the lookup is not scoped by email).
   */
  method SignupThenVerify(b: AuthBackend, email: string, password: string, name: string,
                          now: nat, later: nat, r: nat, salt: nat)
      returns (verified: Response)
    requires b.Valid() && r < 900000
    requires email != "" && password != "" && name != ""
    requires email !in b.users && email !in b.pending
    requires forall e :: e in b.pending ==> b.pending[e].verificationToken != VerificationCode(r)
    requires later < now + DayMs
    modifies b
    ensures b.Valid()
    ensures verified.status == 200
    ensures email in b.users && email !in b.pending
    ensures b.users[email].isVerified && b.users[email].name == name
    ensures b.users[email].password == Hash(password, salt)
    ensures Compare(password, b.users[email].password)
    ensures verified.user == Some(WithoutPassword(b.users[email]))
  {
    var code := VerificationCode(r);
    var signedUp := b.Signup(email, password, name, now, r, salt);
    assert CodeMatches(b.pending[email], code, later);
    ghost var before := b.pending;
    verified := b.VerifyEmail(code, later);
    ghost var e :| e in before && CodeMatches(before[e], code, later) && b.users == old(b.users)[e := b.users[e]]
                 && b.pending == before - {e} && b.users[e].email == e && b.users[e].isVerified
                 && b.users[e].name == before[e].name && b.users[e].password == before[e].password
                 && verified.user == Some(WithoutPassword(b.users[e])) && verified.status == 200;
    assert e == email;
  }

  /** A code presented at or after its expiry, with no other live record for it, is refused. */
  method ExpiredCodeIsRefused(b: AuthBackend, email: string, password: string, name: string,
                              now: nat, later: nat, r: nat, salt: nat)
      returns (verified: Response)
    requires b.Valid() && r < 900000
    requires email != "" && password != "" && name != ""
    requires email !in b.users && email !in b.pending
    requires forall e :: e in b.pending ==> b.pending[e].verificationToken != VerificationCode(r)
    requires later >= now + DayMs
    modifies b
    ensures verified == Failure(400, InvalidCode, None)
    ensures email in b.pending && email !in b.users
  {
    var code := VerificationCode(r);
    var signedUp := b.Signup(email, password, name, now, r, salt);
    verified := b.VerifyEmail(code, later);
  }

  /**
   * Requesting a reset and using the token within the hour succeeds once;
   * the same token is refused afterwards, at any time. Assumes no other
   * User already holds the freshly drawn token.
   */
  method ResetTokenIsSingleUse(b: AuthBackend, email: string, bytes: seq<byte>, p1: string, p2: string,
                               now: nat, t1: nat, t2: nat, s1: nat, s2: nat)
      returns (forgot: Response, first: Response, second: Response)
    requires b.Valid() && |bytes| == 20
    requires email != "" && email in b.users
    requires forall e :: e in b.users ==> b.users[e].resetPasswordToken != Some(ToHex(bytes))
    requires t1 < now + HourMs
    modifies b
    ensures b.Valid()
    ensures forgot.status == 200 && first.status == 200
    ensures second == Failure(400, InvalidResetToken, None)
    ensures email in b.users && b.users[email].password == Hash(p1, s1)
  {
    var token := ToHex(bytes);
    forgot := b.ForgotPassword(email, now, bytes);
    assert ResetMatches(b.users[email], token, t1);
    ghost var afterForgot := b.users;
    assert forall e :: e in afterForgot && ResetMatches(afterForgot[e], token, t1) ==> e == email;
    first := b.ResetPassword(token, p1, t1, s1);
    assert forall e :: e in b.users ==> b.users[e].resetPasswordToken != Some(token);
    second := b.ResetPassword(token, p2, t2, s2);
  }
}
