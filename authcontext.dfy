/**
 * The session manager (`AuthProvider`): four pieces of in-memory state over a
 * persistent key-value store that holds the token and the serialised user
 * record, and the three operations that change them: restoring the session
 * when the app starts, logging in and logging out. Each operation is one
 * atomic step; the reply of the authentication server and which store call
 * (if any) throws are inputs chosen by the caller.
 */
module AuthContext {
  import opened JsRuntime
  import opened DummyJsonApi
  import UserJson

  const TokenKey := "auth_token"
  const UserDataKey := "user_data"

  const RestoreError := "Failed to restore login session"
  const UnexpectedError := "An unexpected error occurred"
  const LogoutError := "Failed to logout"

  /**
   * Which call to the persistent store throws during one operation, counting
   * that operation's store calls from 0; the calls before it succeed and have
   * their effect, and the throwing call has none.
   */
  datatype StoreFault = NoFault | FailsAt(call: nat)

  /** `AsyncStorage.getItem(key)` when the call does not throw: null for a missing key. */
  function GetItem(store: map<string, string>, key: string): (r: Option<string>)
    ensures r.Some? <==> key in store
    ensures r.Some? ==> r.value == store[key]
  {
    if key in store then Some(store[key]) else None
  }

  /** How restoring the session on start ends. */
  datatype Restored = NoSession | Session(user: User) | RestoreFailed

  /**
   * What `checkLoginStatus` finds: a session only when both stored values are
   * present and non-empty and the user record parses; a failure when either
   * read throws or the record does not parse; no session otherwise.
   */
  function RestoreOutcome(store: map<string, string>, fault: StoreFault): (r: Restored)
    ensures r.Session? <==>
      && fault != FailsAt(0) && fault != FailsAt(1)
      && TokenKey in store && store[TokenKey] != ""
      && UserDataKey in store && store[UserDataKey] != ""
      && UserJson.ParseUser(store[UserDataKey]).Some?
    ensures r.Session? ==> UserJson.ParseUser(store[UserDataKey]) == Some(r.user)
    ensures r.NoSession? <==>
      && fault != FailsAt(0) && fault != FailsAt(1)
      && !(TokenKey in store && store[TokenKey] != "" && UserDataKey in store && store[UserDataKey] != "")
  {
    if fault == FailsAt(0) || fault == FailsAt(1) then RestoreFailed
    else
      var token := GetItem(store, TokenKey);
      var userDataString := GetItem(store, UserDataKey);
      if Truthy(token) && Truthy(userDataString) then
        match UserJson.ParseUser(userDataString.value)
        case None => RestoreFailed
        case Some(u) => Session(u)
      else NoSession
  }

  /** A store written by a successful login restores exactly the user that logged in. */
  lemma RestoreAfterLogin(store: map<string, string>, token: string, u: User)
    requires token != ""
    ensures RestoreOutcome(store[TokenKey := token][UserDataKey := UserJson.SerializeUser(u)], NoFault) == Session(u)
  {
    UserJson.UserRoundTrip(u);
  }

  /** A store without a token restores no session and reports no error, whatever user record it holds. */
  lemma RestoreWithoutToken(store: map<string, string>)
    requires TokenKey !in store
    ensures RestoreOutcome(store, NoFault) == NoSession
  {
  }

  /**
   * The error a login leaves: the client's error (or a generic one) when the
   * reply lacks a token or a user, an unexpected error when a store write
   * throws, and none otherwise.
   */
  function LoginError(response: LoginResponse, fault: StoreFault): (e: Option<string>)
    ensures e.Some? ==> Truthy(e)
    ensures e.None? <==> Truthy(response.token) && response.user.Some? && fault != FailsAt(0) && fault != FailsAt(1)
  {
    if !(Truthy(response.token) && response.user.Some?) then Some(OrElse(response.error, LoginFailed))
    else if fault == FailsAt(0) || fault == FailsAt(1) then Some(UnexpectedError)
    else None
  }

  /**
   * The session and the store a login with `response` leaves, from those
   * before it. Without a token and a user, or when the first store write
   * throws, nothing changes. When the second write throws, the new token is
   * stored next to whatever user record the store already held. Otherwise the
   * token and the user record are stored and the user is logged in.
   */
  ghost predicate LoginLeaves(response: LoginResponse, fault: StoreFault,
                              wasLoggedIn: bool, hadUser: Option<User>, before: map<string, string>,
                              isLoggedIn: bool, userData: Option<User>, after: map<string, string>)
  {
    if !(Truthy(response.token) && response.user.Some?) || fault == FailsAt(0) then
      isLoggedIn == wasLoggedIn && userData == hadUser && after == before
    else if fault == FailsAt(1) then
      isLoggedIn == wasLoggedIn && userData == hadUser && after == before[TokenKey := response.token.value]
    else
      && isLoggedIn && userData == response.user
      && after == before[TokenKey := response.token.value][UserDataKey := UserJson.SerializeUser(response.user.value)]
  }

  class AuthProvider {
    var isLoggedIn: bool
    var isLoading: bool
    var error: Option<string>
    var userData: Option<User>
    /** The persistent store (`AsyncStorage`), as far as this provider sees it. */
    var store: map<string, string>
    /** The credentials `login` was called with, in order. */
    ghost var loginCalls: seq<(string, string)>

    /** A logged-in session always has a user record. */
    ghost predicate Valid()
      reads this
    {
      isLoggedIn ==> userData.Some?
    }

    /** The provider as it is first rendered: logged out, loading, over what earlier runs stored. */
    constructor (persisted: map<string, string>)
      ensures Valid()
      ensures !isLoggedIn && isLoading && error == None && userData == None
      ensures store == persisted && loginCalls == []
    {
      isLoggedIn := false;
      isLoading := true;
      error := None;
      userData := None;
      store := persisted;
      loginCalls := [];
    }

    /** `checkLoginStatus`, run once when the provider mounts. */
    method CheckLoginStatus(fault: StoreFault)
      requires Valid()
      modifies this
      ensures Valid()
      ensures !isLoading && store == old(store) && loginCalls == old(loginCalls)
      ensures match RestoreOutcome(old(store), fault)
        case Session(u) => isLoggedIn && userData == Some(u) && error == old(error)
        case NoSession => isLoggedIn == old(isLoggedIn) && userData == old(userData) && error == old(error)
        case RestoreFailed =>
          isLoggedIn == old(isLoggedIn) && userData == old(userData) && error == Some(RestoreError)
    {
      if fault == FailsAt(0) || fault == FailsAt(1) {
        error := Some(RestoreError);
      } else {
        var token := GetItem(store, TokenKey);
        var userDataString := GetItem(store, UserDataKey);
        if Truthy(token) && Truthy(userDataString) {
          var user := UserJson.ParseUser(userDataString.value);
          if user.None? {
            error := Some(RestoreError);
          } else {
            userData := user;
            isLoggedIn := true;
          }
        }
      }
      isLoading := false;
    }

    /**
     * `login(username, password)`. Clears the error, asks the authentication
     * client, and on a reply with both a token and a user writes the token and
     * then the user record to the store before updating the session. A store
     * write that throws leaves the session as it was and reports an unexpected
     * error; when it is the second write, the new token is stored next to
     * whatever user record the store already held. The result is true exactly
     * when the error ends cleared.
     */
    method Login(username: string, password: string, fetch: Request -> HttpReply<AuthBody>, fault: StoreFault)
      returns (success: bool)
      requires Valid()
      modifies this
      ensures Valid()
      ensures !isLoading && loginCalls == old(loginCalls) + [(username, password)]
      ensures error == LoginError(DummyJsonApi.Login(username, password, fetch), fault)
      ensures success <==> error == None
      ensures LoginLeaves(DummyJsonApi.Login(username, password, fetch), fault,
                          old(isLoggedIn), old(userData), old(store), isLoggedIn, userData, store)
    {
      isLoading := true;
      error := None;
      loginCalls := loginCalls + [(username, password)];
      var response := DummyJsonApi.Login(username, password, fetch);
      if Truthy(response.token) && response.user.Some? {
        if fault == FailsAt(0) {
          error := Some(UnexpectedError);
          success := false;
        } else {
          store := store[TokenKey := response.token.value];
          if fault == FailsAt(1) {
            error := Some(UnexpectedError);
            success := false;
          } else {
            store := store[UserDataKey := UserJson.SerializeUser(response.user.value)];
            userData := response.user;
            isLoggedIn := true;
            success := true;
          }
        }
      } else {
        error := Some(OrElse(response.error, LoginFailed));
        success := false;
      }
      isLoading := false;
    }

    /**
     * `logout()`. Removes the token and then the user record, and only after
     * both removals clears the session. A removal that throws reports an error
     * and leaves the user logged in in memory; when it is the second removal,
     * the token is gone but the user record stays. The error of an earlier
     * operation is not cleared.
     */
    method Logout(fault: StoreFault)
      requires Valid()
      modifies this
      ensures Valid()
      ensures !isLoading && loginCalls == old(loginCalls)
      ensures if fault == FailsAt(0) || fault == FailsAt(1) then
          && isLoggedIn == old(isLoggedIn) && userData == old(userData) && error == Some(LogoutError)
          && store == (if fault == FailsAt(0) then old(store) else old(store) - {TokenKey})
        else
          && !isLoggedIn && userData == None && error == old(error)
          && store == old(store) - {TokenKey, UserDataKey}
    {
      isLoading := true;
      if fault == FailsAt(0) {
        error := Some(LogoutError);
      } else {
        store := store - {TokenKey};
        if fault == FailsAt(1) {
          error := Some(LogoutError);
        } else {
          store := store - {UserDataKey};
          userData := None;
          isLoggedIn := false;
        }
      }
      isLoading := false;
    }
  }

  /** The reply carries both a token and a user, so a login with it succeeds unless the store throws. */
  predicate Grants(username: string, password: string, fetch: Request -> HttpReply<AuthBody>) {
    var response := DummyJsonApi.Login(username, password, fetch);
    Truthy(response.token) && response.user.Some?
  }

  /**
   * The app's start: a new provider over the persisted store, then the
   * restore. Loading always ends; the user is logged in exactly when a session
   * is restored, and an error is reported exactly when the restore fails.
   */
  method RestoreOnStart(persisted: map<string, string>, fault: StoreFault)
    returns (isLoggedIn: bool, isLoading: bool, error: Option<string>, userData: Option<User>)
    ensures !isLoading
    ensures isLoggedIn <==> RestoreOutcome(persisted, fault).Session?
    ensures isLoggedIn ==> userData == Some(RestoreOutcome(persisted, fault).user)
    ensures !isLoggedIn ==> userData == None
    ensures error == (if RestoreOutcome(persisted, fault).RestoreFailed? then Some(RestoreError) else None)
  {
    var provider := new AuthProvider(persisted);
    provider.CheckLoginStatus(fault);
    isLoggedIn, isLoading, error, userData := provider.isLoggedIn, provider.isLoading, provider.error, provider.userData;
  }

  /**
   * A successful login survives a restart: a new provider over the store the
   * login wrote restores the same user, logged in and without an error.
   */
  method LoginSurvivesRestart(persisted: map<string, string>, username: string, password: string,
                              fetch: Request -> HttpReply<AuthBody>)
    returns (success: bool, restoredUser: Option<User>, restoredLoggedIn: bool, restoredError: Option<string>)
    requires Grants(username, password, fetch)
    ensures success && restoredLoggedIn && restoredError == None
    ensures restoredUser == DummyJsonApi.Login(username, password, fetch).user
  {
    var first := new AuthProvider(persisted);
    first.CheckLoginStatus(NoFault);
    success := first.Login(username, password, fetch, NoFault);
    var response := DummyJsonApi.Login(username, password, fetch);
    RestoreAfterLogin(persisted, response.token.value, response.user.value);
    assert first.store == persisted[TokenKey := response.token.value]
                                   [UserDataKey := UserJson.SerializeUser(response.user.value)];
    var second := new AuthProvider(first.store);
    second.CheckLoginStatus(NoFault);
    restoredUser, restoredLoggedIn, restoredError := second.userData, second.isLoggedIn, second.error;
  }

  /**
   * Restoring and then logging out with no store failure leaves neither key in
   * the store, whatever it held before, and the rest of the store as it was.
   */
  method RestoreThenLogout(persisted: map<string, string>, restoreFault: StoreFault)
    returns (remaining: map<string, string>, loggedIn: bool)
    ensures TokenKey !in remaining && UserDataKey !in remaining
    ensures remaining == persisted - {TokenKey, UserDataKey}
    ensures !loggedIn
  {
    var provider := new AuthProvider(persisted);
    provider.CheckLoginStatus(restoreFault);
    provider.Logout(NoFault);
    remaining, loggedIn := provider.store, provider.isLoggedIn;
  }

  /**
   * A logout whose second removal throws keeps the user logged in in memory
   * with an error, while the store keeps the user record without its token; a
   * restart over that store then finds no session and reports no error.
   */
  method InterruptedLogout(persisted: map<string, string>, username: string, password: string,
                           fetch: Request -> HttpReply<AuthBody>)
    returns (loggedInAfterLogout: bool, logoutError: Option<string>, restoredLoggedIn: bool, restoredError: Option<string>)
    requires Grants(username, password, fetch)
    ensures loggedInAfterLogout && logoutError == Some(LogoutError)
    ensures !restoredLoggedIn && restoredError == None
  {
    var provider := new AuthProvider(persisted);
    provider.CheckLoginStatus(NoFault);
    var success := provider.Login(username, password, fetch, NoFault);
    provider.Logout(FailsAt(1));
    loggedInAfterLogout, logoutError := provider.isLoggedIn, provider.error;
    var restarted := new AuthProvider(provider.store);
    RestoreWithoutToken(provider.store);
    restarted.CheckLoginStatus(NoFault);
    restoredLoggedIn, restoredError := restarted.isLoggedIn, restarted.error;
  }

  /** A store whose token was written, then removed, then written again, holds only the last token. */
  lemma RewrittenToken(store: map<string, string>, first: string, next: string, record: string)
    ensures (store[TokenKey := first][UserDataKey := record] - {TokenKey})[TokenKey := next]
         == store[TokenKey := next][UserDataKey := record]
  {
  }

  /**
   * A logout interrupted after the token is removed, a restart, and a login by
   * anyone whose second store write throws: that login fails, but it leaves its
   * token next to the first user's record, so the next restart restores the
   * first user.
   */
  method LoginOverStaleRecord(persisted: map<string, string>,
                              firstName: string, firstPassword: string, firstServer: Request -> HttpReply<AuthBody>,
                              nextName: string, nextPassword: string, nextServer: Request -> HttpReply<AuthBody>)
    returns (nextSucceeded: bool, restored: Restored)
    requires Grants(firstName, firstPassword, firstServer) && Grants(nextName, nextPassword, nextServer)
    ensures !nextSucceeded
    ensures restored == Session(DummyJsonApi.Login(firstName, firstPassword, firstServer).user.value)
  {
    var first := DummyJsonApi.Login(firstName, firstPassword, firstServer);
    var next := DummyJsonApi.Login(nextName, nextPassword, nextServer);
    var record := UserJson.SerializeUser(first.user.value);
    var provider := new AuthProvider(persisted);
    provider.CheckLoginStatus(NoFault);
    var firstSucceeded := provider.Login(firstName, firstPassword, firstServer, NoFault);
    assert provider.store == persisted[TokenKey := first.token.value][UserDataKey := record];
    provider.Logout(FailsAt(1));
    var restarted := new AuthProvider(provider.store);
    RestoreWithoutToken(provider.store);
    restarted.CheckLoginStatus(NoFault);
    nextSucceeded := restarted.Login(nextName, nextPassword, nextServer, FailsAt(1));
    RewrittenToken(persisted, first.token.value, next.token.value, record);
    RestoreAfterLogin(persisted, next.token.value, first.user.value);
    restored := RestoreOutcome(restarted.store, NoFault);
  }
}
