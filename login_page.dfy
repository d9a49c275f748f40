/** The login form: it posts the credentials, stores the issued tokens on
    success and shows an error message otherwise. */
module LoginPage {
  import opened Types
  import opened Text
  import ApiClient
  import Browser
  import AuthGuard

  /** The payload of a successful login (its declaring file is not part of
      this model; the fields are the ones the page reads). */
  datatype AuthTokenData = AuthTokenData(access_token: string, refresh_token: string)

  const LoginPath := "/Auth/login"
  const HomeRoute := "/"
  const LoginFailed := "Login failed"

  /** The options of the login request: a POST with a JSON content type and
      the body `{ username: email, password }`. */
  function LoginRequest(email: string, password: string): (init: ApiClient.RequestInit)
    ensures init.other == map["method" := "POST"]
    ensures init.headers == Some(map["Content-Type" := "application/json"])
    ensures init.body == Some([("username", email), ("password", password)])
  {
    ApiClient.RequestInit(map["method" := "POST"], Some([("username", email), ("password", password)]),
                          Some(map["Content-Type" := "application/json"]))
  }

  /** `err.message || "Login failed"`. */
  function CaughtMessage(message: string): (r: string)
    ensures r != ""
    ensures message != "" ==> r == message
    ensures message == "" ==> r == LoginFailed
  {
    if message != "" then message else LoginFailed
  }

  class LoginForm {
    var email: string
    var password: string
    var error: Option<string>

    constructor ()
      ensures email == "" && password == "" && error == None
    {
      email := "";
      password := "";
      error := None;
    }

    /** The email field: only the typed text changes. */
    method SetEmail(text: string)
      modifies this`email
      ensures email == text
    {
      email := text;
    }

    /** The password field: only the typed text changes. */
    method SetPassword(text: string)
      modifies this`password
      ensures password == text
    {
      password := text;
    }

    /** The start of `handleLogin`: the previous error is cleared before
        the request is awaited, so none stays on screen while it is pending. */
    method LoginStarted()
      modifies this`error
      ensures error == None
    {
      error := None;
    }

    /** The rest of `handleLogin`, with `reply` what the server does with the
        request: the request is sent, and on its outcome the tokens are
        stored or an error is shown. Returns the request sent. */
    method LoginSettled(baseUrl: Option<string>, b: Browser.Browser, reply: ApiClient.HttpReply<AuthTokenData>)
      returns (sent: ApiClient.HttpRequest)
      modifies this`error, b`storage, b`pushed
      ensures sent == ApiClient.HttpRequest(ApiClient.NormalizeUrl(baseUrl, LoginPath), LoginRequest(email, password))
      ensures reply.OkReply? && reply.json.kind == Success ==>
        && error == old(error)
        && b.storage == old(b.storage)["token" := reply.json.data.access_token]["refresh_token" := reply.json.data.refresh_token]
        && b.pushed == old(b.pushed) + [HomeRoute]
      ensures reply.OkReply? && reply.json.kind != Success ==>
        error == Some(Join(reply.json.message, ", ")) && b.storage == old(b.storage) && b.pushed == old(b.pushed)
      ensures reply.ErrorReply? ==>
        error == Some(ApiClient.ApiErrorMessage(reply.message)) && b.storage == old(b.storage) && b.pushed == old(b.pushed)
      ensures reply.TransportError? ==>
        error == Some(CaughtMessage(reply.reason)) && b.storage == old(b.storage) && b.pushed == old(b.pushed)
    {
      var exchange := ApiClient.FetchWithGeneric(baseUrl, LoginPath, LoginRequest(email, password), reply);
      sent := exchange.request;
      match exchange.outcome {
        case Resolved(result) =>
          if result.kind == Success {
            b.SetItem("token", result.data.access_token);
            b.SetItem("refresh_token", result.data.refresh_token);
            b.Push(HomeRoute);
          } else {
            error := Some(Join(result.message, ", "));
          }
        case Rejected(message) =>
          error := Some(CaughtMessage(message));
      }
    }

    /** `handleLogin` as a whole: the error is cleared, then the attempt
        settles. Returns the request sent. */
    method HandleLogin(baseUrl: Option<string>, b: Browser.Browser, reply: ApiClient.HttpReply<AuthTokenData>)
      returns (sent: ApiClient.HttpRequest)
      modifies this`error, b`storage, b`pushed
      ensures sent == ApiClient.HttpRequest(ApiClient.NormalizeUrl(baseUrl, LoginPath), LoginRequest(email, password))
      ensures reply.OkReply? && reply.json.kind == Success ==>
        && error == None
        && b.storage == old(b.storage)["token" := reply.json.data.access_token]["refresh_token" := reply.json.data.refresh_token]
        && b.pushed == old(b.pushed) + [HomeRoute]
      ensures reply.OkReply? && reply.json.kind != Success ==>
        error == Some(Join(reply.json.message, ", ")) && b.storage == old(b.storage) && b.pushed == old(b.pushed)
      ensures reply.ErrorReply? ==>
        error == Some(ApiClient.ApiErrorMessage(reply.message)) && b.storage == old(b.storage) && b.pushed == old(b.pushed)
      ensures reply.TransportError? ==>
        error == Some(CaughtMessage(reply.reason)) && b.storage == old(b.storage) && b.pushed == old(b.pushed)
    {
      LoginStarted();
      sent := LoginSettled(baseUrl, b, reply);
    }
  }

  /** After a successful login with a non-empty access token, the guard
      finds that token on every guarded page. */
  lemma LoginUnlocksGuard(storage: map<string, string>, tokens: AuthTokenData)
    requires tokens.access_token != ""
    ensures var after := storage["token" := tokens.access_token]["refresh_token" := tokens.refresh_token];
      AuthGuard.GetStoredToken(after) == Some(tokens.access_token)
  {
    var after := storage["token" := tokens.access_token]["refresh_token" := tokens.refresh_token];
    assert "refresh_token" != "token" by {
      assert |"refresh_token"| != |"token"|;
    }
    assert after["token"] == tokens.access_token;
  }
}
