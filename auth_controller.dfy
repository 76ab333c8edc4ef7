/**
 * The backend's authentication handlers over two collections: verified
 * `User` documents and unverified `PendingUser` documents, both keyed by
 * email. Each handler is one atomic step; the clock, the random draws and
 * the bcrypt salt are parameters, and sent emails are recorded in a ghost
 * outbox.
 */
module AuthController {

  import opened Wrappers
  import opened Codes
  import opened Primitives
  import opened PendingUserModel

  const DayMs: nat := 24 * 60 * 60 * 1000
  const HourMs: nat := 60 * 60 * 1000

  /** A verified account. Its fields are those the handlers read and write. */
  datatype User = User(
    id: nat,
    email: string,
    password: PasswordHash,
    name: string,
    isVerified: bool,
    lastLogin: Option<int>,
    verificationToken: Option<string>,
    verificationTokenExpiresAt: Option<int>,
    resetPasswordToken: Option<string>,
    resetPasswordExpiresAt: Option<int>)

  /** A user as sent in a response body: every field but the password hash. */
  datatype UserView = UserView(
    id: nat,
    email: string,
    name: string,
    isVerified: bool,
    lastLogin: Option<int>,
    verificationToken: Option<string>,
    verificationTokenExpiresAt: Option<int>,
    resetPasswordToken: Option<string>,
    resetPasswordExpiresAt: Option<int>)

  /** `{ ...user._doc, password: undefined }` */
  function WithoutPassword(u: User): UserView {
    UserView(u.id, u.email, u.name, u.isVerified, u.lastLogin, u.verificationToken,
             u.verificationTokenExpiresAt, u.resetPasswordToken, u.resetPasswordExpiresAt)
  }

  /** `{ ...user._doc, password, verificationToken, verificationTokenExpiresAt: undefined }` */
  function WithoutPasswordOrCode(u: User): UserView {
    WithoutPassword(u).(verificationToken := None, verificationTokenExpiresAt := None)
  }

  /** An email handed to the mail gateway. */
  datatype Mail =
    | VerificationMail(to: string, code: string)
    | WelcomeMail(to: string, name: string)
    | ResetLinkMail(to: string, url: string)
    | ResetSuccessMail(to: string)

  /** What a response does to the `token` cookie. */
  datatype Cookie = KeepCookie | SetSession(token: SessionToken) | ClearSession

  /** An HTTP response: status, the JSON body's fields, and the cookie action. */
  datatype Response = Response(
    status: nat,
    success: bool,
    message: Option<string>,
    code: Option<string>,
    user: Option<UserView>,
    cookie: Cookie)

  function Failure(status: nat, message: string, code: Option<string>): Response {
    Response(status, false, Some(message), code, None, KeepCookie)
  }

  const AllFieldsRequired := "All fields are required!"
  const UserAlreadyExists := "User already exists"
  const AlreadySent := "A verification email has already been sent. Please verify your email."
  const PendingCode := "E001"
  const VerificationSent := "Verification email sent. Please verify your email to complete registration."
  const InvalidCode := "Invalid or expired verification code"
  const EmailVerified := "Email verified successfully"
  /** The TypeError thrown when the handler assigns to a field of a `null` user. */
  const NullUser := "Cannot set properties of null (setting 'verificationToken')"
  const Resent := "Verification email sent successfully"
  const InvalidCredentials := "Invalid Credentials"
  const LoggedIn := "Logged in successfully"
  const LoggedOut := "Logged out successfully"
  const EmailRequired := "Email is required!"
  const NoSuchUser := "User does not exist!"
  const ResetLinkSent := "Password reset link sent to your email"
  const InvalidResetToken := "Invalid or expired reset token"
  const ResetDone := "Password reset successful"
  const UserNotFound := "User not found"

  /** The filter `{ verificationToken: code, verificationTokenExpiresAt: { $gt: now } }`. */
  predicate CodeMatches(p: PendingUser, code: string, now: int) {
    p.verificationToken == code && p.verificationTokenExpiresAt > now
  }

  predicate CodeIsLive(pending: PendingStore, code: string, now: int) {
    exists e :: e in pending && CodeMatches(pending[e], code, now)
  }

  /** The filter `{ resetPasswordToken: token, resetPasswordExpiresAt: { $gt: now } }`. */
  predicate ResetMatches(u: User, token: string, now: int) {
    u.resetPasswordToken == Some(token) && u.resetPasswordExpiresAt.Some? && u.resetPasswordExpiresAt.value > now
  }

  predicate ResetIsLive(users: map<string, User>, token: string, now: int) {
    exists e :: e in users && ResetMatches(users[e], token, now)
  }

  /** Users are keyed by their (non-empty) email. */
  predicate UsersKeyedByEmail(users: map<string, User>) {
    forall e :: e in users ==> users[e].email == e && e != ""
  }

  /** Ids are distinct and below the next id to hand out. */
  predicate IdsFresh(users: map<string, User>, nextId: nat) {
    && (forall e :: e in users ==> users[e].id < nextId)
    && (forall e1, e2 :: e1 in users && e2 in users && users[e1].id == users[e2].id ==> e1 == e2)
  }

  /** Stored codes and tokens have the shape their generators give them. */
  predicate SecretsWellFormed(users: map<string, User>, pending: PendingStore) {
    && (forall e :: e in pending ==> IsSixDigitCode(pending[e].verificationToken))
    && (forall e :: e in users && users[e].verificationToken.Some? ==> IsSixDigitCode(users[e].verificationToken.value))
    && (forall e :: e in users && users[e].resetPasswordToken.Some? ==>
          |users[e].resetPasswordToken.value| == 40 && AllLowerHex(users[e].resetPasswordToken.value))
  }

  class AuthBackend {
    var users: map<string, User>
    var pending: PendingStore
    /** The id the next created User receives (Mongo's ObjectId generation). */
    var nextId: nat
    /** `process.env.CLIENT_URL`, the base of reset links. */
    const clientUrl: string
    ghost var outbox: seq<Mail>

    /**
     * The store invariant: the pending collection is well formed, users are
     * keyed by email with distinct ids, no email is both a User and a
     * PendingUser, and stored secrets are well shaped.
     */
    ghost predicate Valid()
      reads this
    {
      && WellFormed(pending)
      && UsersKeyedByEmail(users)
      && users.Keys !! pending.Keys
      && IdsFresh(users, nextId)
      && SecretsWellFormed(users, pending)
    }

    constructor (clientUrl: string)
      ensures Valid()
      ensures users == map[] && pending == map[] && outbox == [] && this.clientUrl == clientUrl
    {
      this.clientUrl := clientUrl;
      users, pending, nextId := map[], map[], 0;
      outbox := [];
    }

    /**
     * `signup`: rejects missing fields, an existing User, an existing
     * PendingUser (code E001), in that order and without any change;
     * otherwise saves one PendingUser holding the password's hash and a
     * fresh 6-digit code valid for 24 hours, and emails that code.
     */
    method Signup(email: string, password: string, name: string, now: nat, r: nat, salt: nat)
      returns (resp: Response)
      requires Valid() && r < 900000
      modifies this
      ensures Valid()
      ensures email == "" || password == "" || name == "" ==>
                resp == Failure(400, AllFieldsRequired, None) && unchanged(this)
      ensures email != "" && password != "" && name != "" && email in old(users) ==>
                resp == Failure(400, UserAlreadyExists, None) && unchanged(this)
      ensures email != "" && password != "" && name != "" && email !in old(users) && email in old(pending) ==>
                resp == Failure(400, AlreadySent, Some(PendingCode)) && unchanged(this)
      ensures email != "" && password != "" && name != "" && email !in old(users) && email !in old(pending) ==>
                var code := VerificationCode(r);
                && users == old(users) && nextId == old(nextId)
                && pending == old(pending)[email := PendingUser(email, Hash(password, salt), name, code, now + DayMs)]
                && outbox == old(outbox) + [VerificationMail(email, code)]
                && resp == Response(201, true, Some(VerificationSent), None, None, KeepCookie)
    {
      if email == "" || password == "" || name == "" {
        resp := Failure(400, AllFieldsRequired, None);
        return;
      }
      if email in users {
        resp := Failure(400, UserAlreadyExists, None);
        return;
      }
      if email in pending {
        resp := Failure(400, AlreadySent, Some(PendingCode));
        return;
      }
      var hashed := Hash(password, salt);
      var code := VerificationCode(r);
      var record := PendingUser(email, hashed, name, code, now + DayMs);
      var saved := Save(pending, record);
      pending := saved.store;
      outbox := outbox + [VerificationMail(email, code)];
      resp := Response(201, true, Some(VerificationSent), None, None, KeepCookie);
    }

    /**
     * `verifyEmail`: finds SOME PendingUser whose code equals `code` and
     * whose expiry is strictly after `now` (the lookup is not scoped by
     * email); fails without change if there is none. Otherwise creates a
     * verified User from that record, deletes the record, sends the welcome
     * email and sets the session cookie.
     */
    method VerifyEmail(code: string, now: nat) returns (resp: Response)
      requires Valid()
      modifies this
      ensures Valid()
      ensures !CodeIsLive(old(pending), code, now) ==>
                resp == Failure(400, InvalidCode, None) && unchanged(this)
      ensures CodeIsLive(old(pending), code, now) ==>
                exists e :: e in old(pending) && CodeMatches(old(pending)[e], code, now) &&
                  var p := old(pending)[e];
                  var u := User(old(nextId), p.email, p.password, p.name, true, None, None, None, None, None);
                  && p.email == e
                  && users == old(users)[e := u]
                  && pending == old(pending) - {e}
                  && nextId == old(nextId) + 1
                  && outbox == old(outbox) + [WelcomeMail(e, p.name)]
                  && resp == Response(200, true, Some(EmailVerified), None, Some(WithoutPassword(u)),
                                      SetSession(IssueSession(u.id, now)))
    {
      if !CodeIsLive(pending, code, now) {
        resp := Failure(400, InvalidCode, None);
        return;
      }
      var e :| e in pending && CodeMatches(pending[e], code, now);
      var p := pending[e];
      var u := User(nextId, p.email, p.password, p.name, true, None, None, None, None, None);
      users := users[p.email := u];
      DeleteByEmailIsExact(pending, p.email);
      DeletePreservesWellFormed(pending, p.email);
      pending := pending - {p.email};
      nextId := nextId + 1;
      outbox := outbox + [WelcomeMail(u.email, u.name)];
      resp := Response(200, true, Some(EmailVerified), None, Some(WithoutPassword(u)),
                       SetSession(IssueSession(u.id, now)));
    }

    /**
     * `resendVerifyEmail`: looks the email up among Users only. Without a
     * User the field assignment throws and the answer is 500 with no change;
     * otherwise only that User's code and its expiry are renewed.
     */
    method ResendVerifyEmail(email: string, now: nat, r: nat) returns (resp: Response)
      requires Valid() && r < 900000
      modifies this
      ensures Valid()
      ensures email !in old(users) ==> resp == Failure(500, NullUser, None) && unchanged(this)
      ensures email in old(users) ==>
                var code := VerificationCode(r);
                var u := old(users)[email].(verificationToken := Some(code), verificationTokenExpiresAt := Some(now + DayMs));
                && users == old(users)[email := u]
                && pending == old(pending) && nextId == old(nextId)
                && outbox == old(outbox) + [VerificationMail(email, code)]
                && resp == Response(200, true, Some(Resent), None, Some(WithoutPasswordOrCode(u)), KeepCookie)
    {
      if email !in users {
        resp := Failure(500, NullUser, None);
        return;
      }
      var code := VerificationCode(r);
      var u := users[email].(verificationToken := Some(code), verificationTokenExpiresAt := Some(now + DayMs));
      users := users[email := u];
      outbox := outbox + [VerificationMail(u.email, code)];
      resp := Response(200, true, Some(Resent), None, Some(WithoutPasswordOrCode(u)), KeepCookie);
    }

    /**
     * `login`: an unknown email and a wrong password get the same answer.
     * On success the only stored change is `lastLogin`; a session cookie is
     * set and the user is returned without its password.
     */
    method Login(email: string, password: string, now: nat) returns (resp: Response)
      requires Valid()
      modifies this
      ensures Valid()
      ensures email == "" || password == "" ==> resp == Failure(400, AllFieldsRequired, None) && unchanged(this)
      ensures email != "" && password != "" && !(email in old(users) && Compare(password, old(users)[email].password)) ==>
                resp == Failure(400, InvalidCredentials, None) && unchanged(this)
      ensures email != "" && password != "" && email in old(users) && Compare(password, old(users)[email].password) ==>
                var u := old(users)[email].(lastLogin := Some(now));
                && users == old(users)[email := u]
                && pending == old(pending) && nextId == old(nextId) && outbox == old(outbox)
                && resp == Response(200, true, Some(LoggedIn), None, Some(WithoutPassword(u)),
                                    SetSession(IssueSession(u.id, now)))
    {
      if email == "" || password == "" {
        resp := Failure(400, AllFieldsRequired, None);
        return;
      }
      if email !in users {
        resp := Failure(400, InvalidCredentials, None);
        return;
      }
      if !Compare(password, users[email].password) {
        resp := Failure(400, InvalidCredentials, None);
        return;
      }
      var session := IssueSession(users[email].id, now);
      var u := users[email].(lastLogin := Some(now));
      users := users[email := u];
      resp := Response(200, true, Some(LoggedIn), None, Some(WithoutPassword(u)), SetSession(session));
    }

    /**
     * `forgotPassword`: a missing or unknown email is refused without
     * change; otherwise the User's reset token becomes the hex text of the
     * 20 random bytes, valid for one hour, and the reset link is emailed.
     */
    method ForgotPassword(email: string, now: nat, bytes: seq<byte>) returns (resp: Response)
      requires Valid() && |bytes| == 20
      modifies this
      ensures Valid()
      ensures email == "" ==> resp == Failure(400, EmailRequired, None) && unchanged(this)
      ensures email != "" && email !in old(users) ==> resp == Failure(400, NoSuchUser, None) && unchanged(this)
      ensures email != "" && email in old(users) ==>
                var token := ToHex(bytes);
                var u := old(users)[email].(resetPasswordToken := Some(token), resetPasswordExpiresAt := Some(now + HourMs));
                && users == old(users)[email := u]
                && pending == old(pending) && nextId == old(nextId)
                && outbox == old(outbox) + [ResetLinkMail(email, clientUrl + "/reset-password/" + token)]
                && resp == Response(200, true, Some(ResetLinkSent), None, None, KeepCookie)
    {
      if email == "" {
        resp := Failure(400, EmailRequired, None);
        return;
      }
      if email !in users {
        resp := Failure(400, NoSuchUser, None);
        return;
      }
      var token := ToHex(bytes);
      var u := users[email].(resetPasswordToken := Some(token), resetPasswordExpiresAt := Some(now + HourMs));
      users := users[email := u];
      outbox := outbox + [ResetLinkMail(u.email, clientUrl + "/reset-password/" + token)];
      resp := Response(200, true, Some(ResetLinkSent), None, None, KeepCookie);
    }

    /**
     * `resetPassword`: finds SOME User holding `token` with an expiry
     * strictly after `now`; fails without change if there is none.
     * Otherwise stores the new password's hash and clears both reset
     * fields, so that User no longer matches the token.
     */
    method ResetPassword(token: string, password: string, now: nat, salt: nat) returns (resp: Response)
      requires Valid()
      modifies this
      ensures Valid()
      ensures !ResetIsLive(old(users), token, now) ==>
                resp == Failure(400, InvalidResetToken, None) && unchanged(this)
      ensures ResetIsLive(old(users), token, now) ==>
                exists e :: e in old(users) && ResetMatches(old(users)[e], token, now) &&
                  var u := old(users)[e].(password := Hash(password, salt), resetPasswordToken := None, resetPasswordExpiresAt := None);
                  && users == old(users)[e := u]
                  && pending == old(pending) && nextId == old(nextId)
                  && outbox == old(outbox) + [ResetSuccessMail(e)]
                  && resp == Response(200, true, Some(ResetDone), None, None, KeepCookie)
    {
      if !ResetIsLive(users, token, now) {
        resp := Failure(400, InvalidResetToken, None);
        return;
      }
      var e :| e in users && ResetMatches(users[e], token, now);
      var u := users[e].(password := Hash(password, salt), resetPasswordToken := None, resetPasswordExpiresAt := None);
      users := users[e := u];
      outbox := outbox + [ResetSuccessMail(u.email)];
      resp := Response(200, true, Some(ResetDone), None, None, KeepCookie);
    }

    /**
     * `checkAuth` for the id the session middleware decoded: 200 with that
     * User (without its password) if one has the id, else 400. Reads only.
     */
    method CheckAuth(userId: nat) returns (resp: Response)
      requires Valid()
      ensures resp.status == 200 <==> exists e :: e in users && users[e].id == userId
      ensures forall e :: e in users && users[e].id == userId ==>
                resp == Response(200, true, None, None, Some(WithoutPassword(users[e])), KeepCookie)
      ensures resp.status != 200 ==> resp == Failure(400, UserNotFound, None)
    {
      if e :| e in users && users[e].id == userId {
        resp := Response(200, true, None, None, Some(WithoutPassword(users[e])), KeepCookie);
      } else {
        resp := Failure(400, UserNotFound, None);
      }
    }
  }

  /** `logout`: clears the session cookie and answers 200; no stored record is involved. */
  function Logout(): (resp: Response)
    ensures resp.status == 200 && resp.success && resp.cookie == ClearSession && resp.user == None
  {
    Response(200, true, Some(LoggedOut), None, None, ClearSession)
  }
}
