/**
 * The client-side auth store: one state record updated by shallow merges
 * (`set({...})`), plus the two `localStorage` entries it writes. An action
 * is one atomic step; the HTTP outcome, `navigator.onLine`, the clock and
 * the decoded cached token are inputs.
 */
module AuthStore {

  import opened Wrappers
  import opened LocalToken

  /** The user object the server sends; only these fields are read by the client. */
  datatype ClientUser = ClientUser(email: string, name: string, isVerified: bool)

  /** The JSON body of a response, as far as the store reads it. */
  datatype ResponseData = ResponseData(
    message: Option<string>,
    code: Option<string>,
    user: Option<ClientUser>,
    token: Option<string>)

  /** A request either resolves or is rejected with the server's response body. */
  datatype HttpOutcome = Ok(data: ResponseData) | HttpError(data: ResponseData)

  /** How the action's promise settles: resolved (with a value for `verifyEmail`) or rethrown. */
  datatype ActionResult = Resolved(value: Option<ResponseData>) | Rejected

  /** The store's state record. `token` is only ever written by `setUser`. */
  datatype StoreState = StoreState(
    user: Option<ClientUser>,
    isAuthenticated: bool,
    error: Option<string>,
    errorCode: Option<string>,
    isLoading: bool,
    isCheckingAuth: bool,
    message: Option<string>,
    token: Option<string>)

  /** `message || fallback`: an absent or empty message falls back. */
  function OrElse(message: Option<string>, fallback: string): (r: string)
    ensures message.Some? && message.value != "" ==> r == message.value
    ensures message.None? || message.value == "" ==> r == fallback
  {
    if message.Some? && message.value != "" then message.value else fallback
  }

  /** `localStorage.setItem` stores the string form of its value; `undefined` becomes "undefined". */
  function StorageText(value: Option<string>): (r: string)
    ensures value.Some? ==> r == value.value
    ensures value.None? ==> r == "undefined"
  {
    match value
    case Some(v) => v
    case None => "undefined"
  }

  /** The merge every request action starts with. */
  function Started(s: StoreState): StoreState {
    s.(isLoading := true, error := None)
  }

  class Store {
    var user: Option<ClientUser>
    var isAuthenticated: bool
    var error: Option<string>
    var errorCode: Option<string>
    var isLoading: bool
    var isCheckingAuth: bool
    var message: Option<string>
    var token: Option<string>
    /** `localStorage.getItem("token")` */
    var storedToken: Option<string>
    /** `JSON.parse(localStorage.getItem("user"))` */
    var storedUser: Option<ClientUser>

    function State(): StoreState
      reads this
    {
      StoreState(user, isAuthenticated, error, errorCode, isLoading, isCheckingAuth, message, token)
    }

    /** The store as created, over whatever `localStorage` already holds. */
    constructor (storedToken: Option<string>, storedUser: Option<ClientUser>)
      ensures State() == StoreState(None, false, None, None, false, true, None, None)
      ensures this.storedToken == storedToken && this.storedUser == storedUser
    {
      user, isAuthenticated, error, errorCode := None, false, None, None;
      isLoading, isCheckingAuth, message, token := false, true, None, None;
      this.storedToken, this.storedUser := storedToken, storedUser;
    }

    /** `set({ isLoading: true, error: null })`, the first step of every request action but `checkAuth`. */
    method BeginRequest()
      modifies this
      ensures State() == Started(old(State()))
      ensures isLoading && error == None
      ensures storedToken == old(storedToken) && storedUser == old(storedUser)
    {
      isLoading, error := true, None;
    }

    /** `signup`: success authenticates with the returned user; failure records message and code. */
    method Signup(outcome: HttpOutcome) returns (result: ActionResult)
      modifies this
      ensures !isLoading
      ensures storedToken == old(storedToken) && storedUser == old(storedUser)
      ensures outcome.Ok? ==> (result == Resolved(None) &&
                State() == Started(old(State())).(user := outcome.data.user, isAuthenticated := true, isLoading := false))
      ensures outcome.HttpError? ==> (result == Rejected &&
                State() == Started(old(State())).(error := Some(OrElse(outcome.data.message, "Error signing up")),
                                                  errorCode := outcome.data.code, isLoading := false))
    {
      BeginRequest();
      match outcome
      case Ok(data) =>
        user, isAuthenticated, isLoading := data.user, true, false;
        result := Resolved(None);
      case HttpError(data) =>
        error, errorCode, isLoading := Some(OrElse(data.message, "Error signing up")), data.code, false;
        result := Rejected;
    }

    /** `verifyEmail`: success authenticates and caches the token and user; failure records the message. */
    method VerifyEmail(outcome: HttpOutcome) returns (result: ActionResult)
      modifies this
      ensures !isLoading
      ensures outcome.Ok? ==> (result == Resolved(Some(outcome.data)) &&
                State() == Started(old(State())).(user := outcome.data.user, isAuthenticated := true, isLoading := false) &&
                storedToken == Some(StorageText(outcome.data.token)) && storedUser == outcome.data.user)
      ensures outcome.HttpError? ==> (result == Rejected &&
                State() == Started(old(State())).(error := Some(OrElse(outcome.data.message, "Error verifying email")),
                                                  isLoading := false) &&
                storedToken == old(storedToken) && storedUser == old(storedUser))
    {
      BeginRequest();
      match outcome
      case Ok(data) =>
        user, isAuthenticated, isLoading := data.user, true, false;
        storedToken := Some(StorageText(data.token));
        storedUser := data.user;
        result := Resolved(Some(data));
      case HttpError(data) =>
        error, isLoading := Some(OrElse(data.message, "Error verifying email")), false;
        result := Rejected;
    }

    /** `resendVerifyEmail`: success authenticates with the returned user and caches the token only. */
    method ResendVerifyEmail(outcome: HttpOutcome) returns (result: ActionResult)
      modifies this
      ensures !isLoading
      ensures storedUser == old(storedUser)
      ensures outcome.Ok? ==> (result == Resolved(None) &&
                State() == Started(old(State())).(user := outcome.data.user, isAuthenticated := true, isLoading := false) &&
                storedToken == Some(StorageText(outcome.data.token)))
      ensures outcome.HttpError? ==> (result == Rejected &&
                State() == Started(old(State())).(error := Some(OrElse(outcome.data.message, "Error sending verification email")),
                                                  isLoading := false) &&
                storedToken == old(storedToken))
    {
      BeginRequest();
      match outcome
      case Ok(data) =>
        user, isAuthenticated, isLoading := data.user, true, false;
        storedToken := Some(StorageText(data.token));
        result := Resolved(None);
      case HttpError(data) =>
        error, isLoading := Some(OrElse(data.message, "Error sending verification email")), false;
        result := Rejected;
    }

    /**
     * `checkAuth`: always ends with `isCheckingAuth` false. Online,
     * `isAuthenticated` becomes whether the request succeeded; offline, the
     * result of the local token check, restoring the cached user if valid.
     * It never rejects.
     */
    method CheckAuth(online: bool, outcome: HttpOutcome, decoded: Decoded, nowMs: int) returns (result: ActionResult)
      modifies this
      ensures result == Resolved(None)
      ensures !isCheckingAuth && error == None
      ensures isLoading == old(isLoading) && errorCode == old(errorCode) && message == old(message) && token == old(token)
      ensures storedToken == old(storedToken) && storedUser == old(storedUser)
      ensures online ==> (isAuthenticated == outcome.Ok? &&
                user == (if outcome.Ok? then outcome.data.user else old(user)))
      ensures !online ==> (isAuthenticated == VerifyTokenLocally(old(storedToken), decoded, nowMs) &&
                user == (if isAuthenticated then old(storedUser) else old(user)))
    {
      isCheckingAuth, error := true, None;
      if online {
        match outcome
        case Ok(data) =>
          user, isAuthenticated, isCheckingAuth := data.user, true, false;
        case HttpError(_) =>
          error, isCheckingAuth, isAuthenticated := None, false, false;
      } else {
        var isTokenValid := VerifyTokenLocally(storedToken, decoded, nowMs);
        if isTokenValid {
          isAuthenticated, isCheckingAuth, user := true, false, storedUser;
        } else {
          error, isAuthenticated, isCheckingAuth := None, false, false;
        }
      }
      result := Resolved(None);
    }

    /**
     * `login`. Online success authenticates and caches token and user;
     * online failure sets only the error (and rejects). Offline, no request
     * is made: a valid cached token restores the cached user, otherwise the
     * state becomes unauthenticated with "Error logging in".
     */
    method Login(online: bool, outcome: HttpOutcome, decoded: Decoded, nowMs: int) returns (result: ActionResult)
      modifies this
      ensures !isLoading
      ensures online && outcome.Ok? ==> (result == Resolved(None) &&
                State() == Started(old(State())).(isAuthenticated := true, user := outcome.data.user, isLoading := false) &&
                storedToken == Some(StorageText(outcome.data.token)) && storedUser == outcome.data.user)
      ensures online && outcome.HttpError? ==> (result == Rejected &&
                State() == Started(old(State())).(error := Some(OrElse(outcome.data.message, "Error logging in")), isLoading := false) &&
                storedToken == old(storedToken) && storedUser == old(storedUser))
      ensures !online ==> (result == Resolved(None) &&
                storedToken == old(storedToken) && storedUser == old(storedUser) &&
                State() == (if VerifyTokenLocally(old(storedToken), decoded, nowMs)
                            then Started(old(State())).(isAuthenticated := true, user := old(storedUser), isLoading := false)
                            else Started(old(State())).(error := Some("Error logging in"), isAuthenticated := false, isLoading := false)))
    {
      BeginRequest();
      if online {
        match outcome
        case Ok(data) =>
          isAuthenticated, user, error, isLoading := true, data.user, None, false;
          storedToken := Some(StorageText(data.token));
          storedUser := data.user;
          result := Resolved(None);
        case HttpError(data) =>
          error, isLoading := Some(OrElse(data.message, "Error logging in")), false;
          result := Rejected;
      } else {
        var isTokenValid := VerifyTokenLocally(storedToken, decoded, nowMs);
        if isTokenValid {
          isAuthenticated, user, error, isLoading := true, storedUser, None, false;
        } else {
          error, isAuthenticated, isLoading := Some("Error logging in"), false, false;
        }
        result := Resolved(None);
      }
    }

    /**
     * `logout`: success drops the user and authentication; failure sets
     * "Error logging out" and keeps both. The cached token and user in
     * local storage are left in place either way.
     */
    method Logout(outcome: HttpOutcome) returns (result: ActionResult)
      modifies this
      ensures !isLoading
      ensures storedToken == old(storedToken) && storedUser == old(storedUser)
      ensures outcome.Ok? ==> (result == Resolved(None) &&
                State() == Started(old(State())).(user := None, isAuthenticated := false, isLoading := false))
      ensures outcome.HttpError? ==> (result == Rejected &&
                State() == Started(old(State())).(error := Some("Error logging out"), isLoading := false))
    {
      BeginRequest();
      match outcome
      case Ok(_) =>
        user, isAuthenticated, error, isLoading := None, false, None, false;
        result := Resolved(None);
      case HttpError(_) =>
        error, isLoading := Some("Error logging out"), false;
        result := Rejected;
    }

    /** `forgotPassword`: success shows the server's message; failure records the error. */
    method ForgotPassword(outcome: HttpOutcome) returns (result: ActionResult)
      modifies this
      ensures !isLoading
      ensures storedToken == old(storedToken) && storedUser == old(storedUser)
      ensures outcome.Ok? ==> (result == Resolved(None) &&
                State() == Started(old(State())).(message := outcome.data.message, isLoading := false))
      ensures outcome.HttpError? ==> (result == Rejected &&
                State() == Started(old(State())).(isLoading := false,
                                                  error := Some(OrElse(outcome.data.message, "Error sending reset password email"))))
    {
      BeginRequest();
      match outcome
      case Ok(data) =>
        message, isLoading := data.message, false;
        result := Resolved(None);
      case HttpError(data) =>
        isLoading, error := false, Some(OrElse(data.message, "Error sending reset password email"));
        result := Rejected;
    }

    /** `resetPassword`: success shows the server's message; failure records the error. */
    method ResetPassword(outcome: HttpOutcome) returns (result: ActionResult)
      modifies this
      ensures !isLoading
      ensures storedToken == old(storedToken) && storedUser == old(storedUser)
      ensures outcome.Ok? ==> (result == Resolved(None) &&
                State() == Started(old(State())).(message := outcome.data.message, isLoading := false))
      ensures outcome.HttpError? ==> (result == Rejected &&
                State() == Started(old(State())).(isLoading := false,
                                                  error := Some(OrElse(outcome.data.message, "Error resetting password"))))
    {
      BeginRequest();
      match outcome
      case Ok(data) =>
        message, isLoading := data.message, false;
        result := Resolved(None);
      case HttpError(data) =>
        isLoading, error := false, Some(OrElse(data.message, "Error resetting password"));
        result := Rejected;
    }

    /** `clearErrors`: only `error` changes. */
    method ClearErrors()
      modifies this
      ensures State() == old(State()).(error := None)
      ensures storedToken == old(storedToken) && storedUser == old(storedUser)
    {
      error := None;
    }

    /** `setUser`: caches token and user, then authenticates with them. */
    method SetUser(newUser: Option<ClientUser>, newToken: string)
      modifies this
      ensures State() == old(State()).(user := newUser, isAuthenticated := true, token := Some(newToken))
      ensures storedToken == Some(newToken) && storedUser == newUser
    {
      storedToken := Some(newToken);
      storedUser := newUser;
      user, isAuthenticated, token := newUser, true, Some(newToken);
    }

    /** `setErrorMessage`: sets the error and clears the three flags; `user` is kept. */
    method SetErrorMessage(errorMessage: string)
      modifies this
      ensures State() == old(State()).(error := Some(errorMessage), isAuthenticated := false,
                                       isLoading := false, isCheckingAuth := false)
      ensures user == old(user)
      ensures storedToken == old(storedToken) && storedUser == old(storedUser)
    {
      error, isAuthenticated, isLoading, isCheckingAuth := Some(errorMessage), false, false, false;
    }
  }

  /**
   * Logging out does not clear the cache: after the federated redirect hands
   * the store a user and a token (`setUser`) and the user logs out, an
   * offline `checkAuth` whose cached token still decodes and has not
   * expired authenticates again with the cached user.
   */
  method LogoutKeepsOfflineSession(s: Store, u: ClientUser, t: string, decoded: Decoded, nowMs: int)
    requires t != ""
    requires decoded.Payload? && (decoded.exp == None || decoded.exp.value * 1000 >= nowMs)
    modifies s
    ensures s.isAuthenticated && s.user == Some(u) && !s.isCheckingAuth
  {
    s.SetUser(Some(u), t);
    var b := s.Logout(Ok(ResponseData(None, None, None, None)));
    assert !s.isAuthenticated && s.storedToken == Some(t);
    var c := s.CheckAuth(false, HttpError(ResponseData(None, None, None, None)), decoded, nowMs);
  }

  /**
   * When the login response carries no `token` field, the cache holds the
   * text "undefined", so offline acceptance rests entirely on what decoding
   * that text yields.
   */
  method LoginWithoutTokenCachesUndefined(s: Store, loginData: ResponseData, decoded: Decoded, nowMs: int)
    requires loginData.token == None
    modifies s
    ensures s.isAuthenticated && s.storedToken == Some("undefined")
  {
    var a := s.Login(true, Ok(loginData), decoded, nowMs);
  }
}
