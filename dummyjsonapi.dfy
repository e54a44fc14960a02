/**
 * The authentication client of the DummyJSON service: one POST of the
 * credentials as JSON, and the mapping of whatever comes back (an ok or a
 * failed response, a body that is not JSON, no response at all) to a
 * LoginResponse. The client never throws.
 */
module DummyJsonApi {
  import opened JsRuntime
  import Json

  const BaseUrl := "https://dummyjson.com"
  const LoginUrl := BaseUrl + "/auth/login"
  const LoginFailed := "Login failed"
  const NetworkError := "Network error occurred"

  /** The identity the app keeps for a logged-in user; `image` may be absent. */
  datatype User = User(id: int, username: string, email: string, firstName: string, lastName: string, image: Option<string>)

  /** What `login` resolves to: each field may be absent. */
  datatype LoginResponse = LoginResponse(user: Option<User>, token: Option<string>, error: Option<string>)

  /**
   * The fields of the decoded reply body (`data`) that the client reads. The
   * token may come as `token` or as `accessToken`; a failed reply carries `message`.
   */
  datatype AuthBody = AuthBody(
    id: int, username: string, email: string, firstName: string, lastName: string, image: Option<string>,
    token: Option<string>, accessToken: Option<string>, message: Option<string>)

  /** `JSON.stringify({ username, password })`: a JSON object whose first member is the username. */
  function CredentialsJson(username: string, password: string): (body: string)
    ensures body != "" && body[0] == '{' && body[|body| - 1] == '}'
  {
    "{\"username\":" + (Json.Quote(username) + (",\"password\":" + (Json.Quote(password) + "}")))
  }

  /** The request `login` hands to `fetch`: a JSON POST to `/auth/login` with the credentials as its body. */
  function LoginRequest(username: string, password: string): (r: Request)
    ensures r.verb == "POST" && r.url == LoginUrl && r.headers == [("Content-Type", "application/json")]
    ensures r.body.Some?
  {
    Request("POST", LoginUrl, [("Content-Type", "application/json")], Some(CredentialsJson(username, password)))
  }

  /** The user record copied field by field from the reply body. */
  function UserOf(data: AuthBody): User {
    User(data.id, data.username, data.email, data.firstName, data.lastName, data.image)
  }

  /** An ok response whose body decoded. */
  predicate Accepted(reply: HttpReply<AuthBody>) {
    reply.Response? && reply.ok && reply.json.Success?
  }

  /**
   * `DummyJsonApiService.login(username, password)`, where `fetch` stands for the
   * server's and the network's answer to the request. The body is decoded before
   * the status is looked at, so a body that is not JSON counts as a network error
   * even on a failed status.
   */
  function Login(username: string, password: string, fetch: Request -> HttpReply<AuthBody>): (r: LoginResponse)
    ensures r.user.Some? <==> r.error.None?
    ensures r.error.Some? ==> r.token.None? && r.error.value != ""
    ensures var reply := fetch(LoginRequest(username, password));
      Accepted(reply) ==>
        var data := reply.json.value;
        && r.user == Some(UserOf(data))
        && r.token == (if Truthy(data.token) then data.token else data.accessToken)
    ensures var reply := fetch(LoginRequest(username, password));
      reply.Response? && !reply.ok && reply.json.Success? ==>
        r.error == Some(if Truthy(reply.json.value.message) then reply.json.value.message.value else LoginFailed)
    ensures var reply := fetch(LoginRequest(username, password));
      (reply.Rejected? || reply.json.Failure?) ==> r.error == Some(NetworkError)
  {
    match fetch(LoginRequest(username, password))
    case Rejected(_) => LoginResponse(None, None, Some(NetworkError))
    case Response(_, Failure(_)) => LoginResponse(None, None, Some(NetworkError))
    case Response(ok, Success(data)) =>
      if !ok then LoginResponse(None, None, Some(OrElse(data.message, LoginFailed)))
      else LoginResponse(Some(UserOf(data)), if Truthy(data.token) then data.token else data.accessToken, None)
  }

  /** The credentials a server reads from a login request body. */
  function ParseCredentials(body: string): Option<(string, string)> {
    var s1 :- Expect("{\"username\":", body);
    var u :- Json.ParseString(s1);
    var s2 :- Expect(",\"password\":", u.1);
    var p :- Json.ParseString(s2);
    var s3 :- Expect("}", p.1);
    if s3 == "" then Some((u.0, p.0)) else None
  }

  /** The body of the login request carries exactly the username and the password, whatever characters they hold. */
  lemma CredentialsRoundTrip(username: string, password: string)
    ensures ParseCredentials(CredentialsJson(username, password)) == Some((username, password))
    ensures ParseCredentials(LoginRequest(username, password).body.value) == Some((username, password))
  {
    var tail3 := "}";
    var tail2 := Json.Quote(password) + tail3;
    var tail1 := ",\"password\":" + tail2;
    var tail0 := Json.Quote(username) + tail1;
    ExpectLiteral("{\"username\":", tail0);
    Json.QuoteRoundTrip(username, tail1);
    ExpectLiteral(",\"password\":", tail2);
    Json.QuoteRoundTrip(password, tail3);
    ExpectLiteral("}", "");
    assert tail3 == "}" + "";
  }
}
