/** The login form (src/screens/LoginScreen.tsx): validation, the request it
    sends with plain `fetch`, and how it reads the answer. */
module Login {
  import opened Wrappers
  import Text
  import opened Forms
  import opened Json
  import ApiConfig
  import G = Gateway
  import Auth

  const UsernameMessage: string := "Invalid username format"
  const PasswordMessage: string := "Invalid password format"
  const DefaultFailure: string := "Invalid username or password"

  datatype Form = Form(username: string, password: string, loading: bool, errors: Errors)

  /** `validateForm()`: the errors it stores; the form is valid when there are none. */
  function Validate(username: string, password: string): (e: Errors)
    ensures UsernameField in e <==> !UsernameOk(username)
    ensures PasswordField in e <==> !PasswordOk(password)
    ensures ConfirmField !in e
    ensures UsernameField in e ==> e[UsernameField] == UsernameMessage
    ensures PasswordField in e ==> e[PasswordField] == PasswordMessage
  {
    ErrorsFor(map[UsernameField := (UsernameOk(username), UsernameMessage),
                  PasswordField := (PasswordOk(password), PasswordMessage)])
  }

  /** Typing a new username or password. */
  function Edit(f: Form, field: Field, text: string): (f': Form)
    requires field != ConfirmField
    ensures field == UsernameField ==> f'.username == text && f'.password == f.password
    ensures field == PasswordField ==> f'.password == text && f'.username == f.username
    ensures f'.errors == ClearOnEdit(f.errors, field)
  {
    var f1 := if field == UsernameField then f.(username := text) else f.(password := text);
    f1.(errors := ClearOnEdit(f.errors, field))
  }

  /** The request: a POST of `{name, password}` to the login endpoint. */
  function LoginFetch(username: string, password: string): (r: G.Fetch)
    ensures r.url == ApiConfig.Url(ApiConfig.UsersLogin)
    ensures r.options.verb == Some(G.POST)
    ensures r.options.body == Some(JObj([("name", JStr(username)), ("password", JStr(password))]))
  {
    G.Fetch(ApiConfig.Url(ApiConfig.UsersLogin),
            G.Options(Some(G.POST), map[G.ContentTypeKey := G.JsonType],
                      Some(JObj([("name", JStr(username)), ("password", JStr(password))]))))
  }

  /** The fields of the answer the form reads. */
  datatype LoginBody = LoginBody(accessToken: Option<string>, refreshToken: Option<string>, message: Option<string>)

  /** The answer: no connection, or a status with a JSON body (`None` when the
      body is not JSON and `response.json()` throws). */
  datatype LoginReply = NetworkDown | Reply(status: int, body: Option<LoginBody>)

  predicate Ok(status: int) {
    200 <= status < 300
  }

  datatype Outcome =
    | FormInvalid
    | UserNotFound
    | SignedIn(accessToken: string, refreshToken: string)
    | LoginFailed(message: string)
    | ConnectionError

  /** `handleLogin()`: the final form, the request sent if any, and what the
      user is shown or where the session goes. */
  function HandleLogin(f: Form, reply: LoginReply): (r: (Form, Option<G.Fetch>, Outcome))
    ensures r.0.errors == Validate(f.username, f.password)
    ensures r.0.username == f.username && r.0.password == f.password
    ensures r.1.Some? <==> Validate(f.username, f.password) == map[]
    ensures r.1.Some? ==> r.1.value == LoginFetch(f.username, f.password) && !r.0.loading
    ensures r.1.None? ==> r.2 == FormInvalid && r.0.loading == f.loading
    ensures r.2.UserNotFound? <==> r.1.Some? && reply.Reply? && reply.status == 404
    ensures r.2.ConnectionError? <==>
      r.1.Some? && (reply.NetworkDown? || (reply.status != 404 && reply.body.None?))
    ensures r.2.SignedIn? <==>
      && r.1.Some? && reply.Reply? && reply.status != 404 && Ok(reply.status)
      && reply.body.Some? && Text.Truthy(reply.body.value.accessToken)
    ensures r.2.SignedIn? ==>
      && r.2.accessToken == reply.body.value.accessToken.value
      && r.2.refreshToken == reply.body.value.refreshToken.GetOr("")
    ensures r.2.LoginFailed? ==>
      r.2.message == (if Text.Truthy(reply.body.value.message) then reply.body.value.message.value else DefaultFailure)
  {
    var errors := Validate(f.username, f.password);
    var checked := f.(errors := errors);
    if errors != map[] then (checked, None, FormInvalid)
    else
      var sent := Some(LoginFetch(f.username, f.password));
      var done := checked.(loading := false);
      match reply
      case NetworkDown => (done, sent, ConnectionError)
      case Reply(status, body) =>
        if status == 404 then (done, sent, UserNotFound)
        else if body.None? then (done, sent, ConnectionError)
        else
          var data := body.value;
          if Ok(status) && Text.Truthy(data.accessToken) then
            (done, sent, SignedIn(data.accessToken.value, data.refreshToken.GetOr("")))
          else
            var message := if Text.Truthy(data.message) then data.message.value else DefaultFailure;
            (done, sent, LoginFailed(message))
  }

  /** A valid form always sends exactly the typed credentials, and an invalid
      one sends nothing. */
  lemma SendsOnlyValidCredentials(f: Form, reply: LoginReply)
    ensures HandleLogin(f, reply).1.Some? <==> UsernameOk(f.username) && PasswordOk(f.password)
  {
    var e := Validate(f.username, f.password);
    if UsernameOk(f.username) && PasswordOk(f.password) {
      assert e == map[];
    } else if !UsernameOk(f.username) {
      assert UsernameField in e;
    } else {
      assert PasswordField in e;
    }
  }

  /** A sign-in whose answer carries no refresh token stores the empty string,
      so the first expiry afterwards ends the session without ever calling the
      refresh endpoint. */
  lemma SignInWithoutRefreshTokenCannotRefresh(s: Auth.Session, f: Form, reply: LoginReply)
    requires !s.isTokenRefreshing
    requires HandleLogin(f, reply).2.SignedIn?
    requires !Text.Truthy(reply.body.value.refreshToken)
    ensures
      var out := HandleLogin(f, reply).2;
      var session := Auth.Login(s, out.accessToken, out.refreshToken);
      Auth.BeginRefresh(session).1 == Auth.Settled(None, [Auth.LogoutCall(Auth.LogoutUrl, out.accessToken)])
  {
  }

  /** Submitting the empty form: both fields are flagged, the username with
      its format message, and nothing is sent. */
  lemma EmptySubmission(f: Form, reply: LoginReply)
    requires f.username == "" && f.password == ""
    ensures
      var r := HandleLogin(f, reply);
      && r.1.None? && r.2 == FormInvalid
      && r.0.errors == map[UsernameField := UsernameMessage, PasswordField := PasswordMessage]
  {
    var e := Validate("", "");
    assert !UsernameOk("") && !PasswordOk("");
    assert e.Keys == {UsernameField, PasswordField};
  }
}
