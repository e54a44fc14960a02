/**
 * The login screen: a form holding a username and a password, and the
 * handler of its button, which refuses credentials that are blank after
 * trimming, asks the session manager to log in, and raises an alert when the
 * login fails.
 */
module LoginScreen {
  import opened JsRuntime
  import opened DummyJsonApi
  import opened AuthContext

  const MissingCredentials := "Username and password are required"
  const LoginFailedTitle := "Login Failed"

  /** `Alert.alert(title, message)` */
  datatype Alert = Alert(title: string, message: string)

  /** The alert for credentials that are blank. */
  const MissingCredentialsAlert := Alert("Error", MissingCredentials)

  /** Both fields hold something other than white space. */
  function CanSubmit(username: string, password: string): (r: bool)
    ensures r <==>
      && (exists i | 0 <= i < |username| :: !IsWhiteSpace(username[i]))
      && (exists i | 0 <= i < |password| :: !IsWhiteSpace(password[i]))
  {
    !IsBlank(username) && !IsBlank(password)
  }

  /** The alert raised after a login: only when it failed and the error shown is truthy. */
  function FailureAlert(success: bool, shownError: Option<string>): (r: Option<Alert>)
    ensures r.Some? <==> !success && Truthy(shownError)
    ensures r.Some? ==> r.value == Alert(LoginFailedTitle, shownError.value)
  {
    if !success && Truthy(shownError) then Some(Alert(LoginFailedTitle, shownError.value)) else None
  }

  class LoginForm {
    var username: string
    var password: string

    /** The form as first rendered, filled in with the demo account. */
    constructor ()
      ensures username == "kminchelle" && password == "0lelplR"
    {
      username := "kminchelle";
      password := "0lelplR";
    }

    method SetUsername(text: string)
      modifies this
      ensures username == text && password == old(password)
    {
      username := text;
    }

    method SetPassword(text: string)
      modifies this
      ensures password == text && username == old(username)
    {
      password := text;
    }

    /**
     * `handleLogin` as written: after the login it looks at the error the
     * screen was rendered with, not at the error that login leaves, so a
     * failure raises an alert only when the previous attempt left an error,
     * and then with that earlier message.
     */
    method HandleLogin(auth: AuthProvider, fetch: Request -> HttpReply<AuthBody>, fault: StoreFault)
      returns (alert: Option<Alert>)
      requires auth.Valid()
      modifies auth
      ensures auth.Valid()
      ensures !CanSubmit(username, password) ==> alert == Some(MissingCredentialsAlert) && unchanged(auth)
      ensures CanSubmit(username, password) ==>
        && auth.loginCalls == old(auth.loginCalls) + [(username, password)]
        && auth.error == LoginError(DummyJsonApi.Login(username, password, fetch), fault)
        && !auth.isLoading
        && LoginLeaves(DummyJsonApi.Login(username, password, fetch), fault, old(auth.isLoggedIn),
                       old(auth.userData), old(auth.store), auth.isLoggedIn, auth.userData, auth.store)
        && alert == FailureAlert(auth.error == None, old(auth.error))
    {
      if !CanSubmit(username, password) {
        return Some(MissingCredentialsAlert);
      }
      var shownError := auth.error;
      var success := auth.Login(username, password, fetch, fault);
      alert := FailureAlert(success, shownError);
    }

    /**
     * `handleLogin` as evidently intended: every failed login raises an alert
     * carrying the error that this login left.
     */
    method HandleLoginReportingOutcome(auth: AuthProvider, fetch: Request -> HttpReply<AuthBody>, fault: StoreFault)
      returns (alert: Option<Alert>)
      requires auth.Valid()
      modifies auth
      ensures auth.Valid()
      ensures !CanSubmit(username, password) ==> alert == Some(MissingCredentialsAlert) && unchanged(auth)
      ensures CanSubmit(username, password) ==>
        && auth.loginCalls == old(auth.loginCalls) + [(username, password)]
        && auth.error == LoginError(DummyJsonApi.Login(username, password, fetch), fault)
        && !auth.isLoading
        && LoginLeaves(DummyJsonApi.Login(username, password, fetch), fault, old(auth.isLoggedIn),
                       old(auth.userData), old(auth.store), auth.isLoggedIn, auth.userData, auth.store)
        && (alert.Some? <==> auth.error.Some?)
        && (alert.Some? ==> alert.value == Alert(LoginFailedTitle, auth.error.value))
    {
      if !CanSubmit(username, password) {
        return Some(MissingCredentialsAlert);
      }
      var success := auth.Login(username, password, fetch, fault);
      alert := FailureAlert(success, auth.error);
    }
  }

  /** A server that refuses every login with a message. */
  function Refusing(message: string): Request -> HttpReply<AuthBody> {
    (request: Request) => Response(false, Success(AuthBody(0, "", "", "", "", None, None, None, Some(message))))
  }

  /** A network that never answers. */
  function Offline(): Request -> HttpReply<AuthBody> {
    (request: Request) => Rejected(JsError("TypeError", "Network request failed"))
  }

  /**
   * The stale error, shown on a fresh screen: a first login the server refuses
   * raises no alert as written, and a second one that fails for a different
   * reason raises an alert with the first failure's message.
   */
  method StaleErrorAlert(persisted: map<string, string>)
    returns (first: Option<Alert>, second: Option<Alert>)
    requires TokenKey !in persisted
    ensures first == None
    ensures second == Some(Alert(LoginFailedTitle, "Invalid credentials"))
  {
    RestoreWithoutToken(persisted);
    var form := new LoginForm();
    assert !IsWhiteSpace(form.username[0]) && !IsWhiteSpace(form.password[0]);
    var refused := DummyJsonApi.Login(form.username, form.password, Refusing("Invalid credentials"));
    assert refused.error == Some("Invalid credentials") && refused.token == None;
    var unanswered := DummyJsonApi.Login(form.username, form.password, Offline());
    assert unanswered.error == Some(NetworkError) && unanswered.token == None;
    var auth := new AuthProvider(persisted);
    auth.CheckLoginStatus(NoFault);
    first := form.HandleLogin(auth, Refusing("Invalid credentials"), NoFault);
    assert auth.error == Some("Invalid credentials");
    second := form.HandleLogin(auth, Offline(), NoFault);
    assert auth.error == Some(NetworkError);
  }

  /** The same two failed logins through the intended handler: each is reported with its own message. */
  method EachFailureAlerted(persisted: map<string, string>)
    returns (first: Option<Alert>, second: Option<Alert>)
    requires TokenKey !in persisted
    ensures first == Some(Alert(LoginFailedTitle, "Invalid credentials"))
    ensures second == Some(Alert(LoginFailedTitle, NetworkError))
  {
    RestoreWithoutToken(persisted);
    var form := new LoginForm();
    assert !IsWhiteSpace(form.username[0]) && !IsWhiteSpace(form.password[0]);
    var refused := DummyJsonApi.Login(form.username, form.password, Refusing("Invalid credentials"));
    assert refused.error == Some("Invalid credentials") && refused.token == None;
    var unanswered := DummyJsonApi.Login(form.username, form.password, Offline());
    assert unanswered.error == Some(NetworkError) && unanswered.token == None;
    var auth := new AuthProvider(persisted);
    auth.CheckLoginStatus(NoFault);
    first := form.HandleLoginReportingOutcome(auth, Refusing("Invalid credentials"), NoFault);
    second := form.HandleLoginReportingOutcome(auth, Offline(), NoFault);
  }
}
