/** The registration form (src/screens/RegisterScreen.tsx). */
module Register {
  import opened Wrappers
  import Text
  import opened Forms
  import opened Json
  import ApiConfig
  import G = Gateway

  const UsernameMessage: string := "Username must be 3-32 characters (letters, numbers, underscore)"
  const PasswordMessage: string := "Password must be at least 8 characters"
  const ConfirmMessage: string := "Passwords do not match"
  const DefaultFailure: string := "Could not create account. Try another username."

  datatype Form = Form(username: string, password: string, confirmPassword: string, loading: bool, errors: Errors)

  /** `validateForm()`: the three checks are independent, so a short password
      that also differs from its confirmation shows both errors. */
  function Validate(username: string, password: string, confirm: string): (e: Errors)
    ensures UsernameField in e <==> !UsernameOk(username)
    ensures PasswordField in e <==> !PasswordOk(password)
    ensures ConfirmField in e <==> password != confirm
    ensures UsernameField in e ==> e[UsernameField] == UsernameMessage
    ensures PasswordField in e ==> e[PasswordField] == PasswordMessage
    ensures ConfirmField in e ==> e[ConfirmField] == ConfirmMessage
  {
    ErrorsFor(map[UsernameField := (UsernameOk(username), UsernameMessage),
                  PasswordField := (PasswordOk(password), PasswordMessage),
                  ConfirmField := (password == confirm, ConfirmMessage)])
  }

  /** The form is accepted exactly when all three checks pass. */
  lemma ValidExactly(username: string, password: string, confirm: string)
    ensures Validate(username, password, confirm) == map[] <==>
      UsernameOk(username) && PasswordOk(password) && password == confirm
  {
    var e := Validate(username, password, confirm);
    if !UsernameOk(username) {
      assert UsernameField in e;
    } else if !PasswordOk(password) {
      assert PasswordField in e;
    } else if password != confirm {
      assert ConfirmField in e;
    }
  }

  /** Typing into one of the three fields. */
  function Edit(f: Form, field: Field, text: string): (f': Form)
    ensures field == UsernameField ==> f' == f.(username := text, errors := f'.errors)
    ensures field == PasswordField ==> f' == f.(password := text, errors := f'.errors)
    ensures field == ConfirmField ==> f' == f.(confirmPassword := text, errors := f'.errors)
    ensures f'.errors == ClearOnEdit(f.errors, field)
  {
    var f1 := match field
      case UsernameField => f.(username := text)
      case PasswordField => f.(password := text)
      case ConfirmField => f.(confirmPassword := text);
    f1.(errors := ClearOnEdit(f.errors, field))
  }

  /** The request: a POST of `{name, password}`; the confirmation is not sent. */
  function RegisterFetch(username: string, password: string): (r: G.Fetch)
    ensures r.url == ApiConfig.Url(ApiConfig.UsersRegister)
    ensures r.options.verb == Some(G.POST)
    ensures r.options.body == Some(JObj([("name", JStr(username)), ("password", JStr(password))]))
  {
    G.Fetch(ApiConfig.Url(ApiConfig.UsersRegister),
            G.Options(Some(G.POST), map[G.ContentTypeKey := G.JsonType],
                      Some(JObj([("name", JStr(username)), ("password", JStr(password))]))))
  }

  /** The answer: no connection, or `ok` with a JSON body carrying an optional
      `message` (`None` when the body is not JSON). */
  datatype RegisterReply = NetworkDown | Reply(ok: bool, body: Option<Option<string>>)

  datatype Outcome =
    | FormInvalid
    | Registered            // the success alert, whose button goes to the login screen
    | RegisterFailed(message: string)
    | ConnectionError

  /** `handleRegister()`. The body is parsed before `ok` is looked at, so a
      successful answer that is not JSON still shows the connection error. */
  function HandleRegister(f: Form, reply: RegisterReply): (r: (Form, Option<G.Fetch>, Outcome))
    ensures r.0.errors == Validate(f.username, f.password, f.confirmPassword)
    ensures r.1.Some? <==> r.0.errors == map[]
    ensures r.1.Some? ==> r.1.value == RegisterFetch(f.username, f.password) && !r.0.loading
    ensures r.1.None? ==> r.2 == FormInvalid && r.0.loading == f.loading
    ensures r.2.Registered? <==> r.1.Some? && reply.Reply? && reply.ok && reply.body.Some?
    ensures r.2.ConnectionError? <==> r.1.Some? && (reply.NetworkDown? || reply.body.None?)
    ensures r.2.RegisterFailed? ==>
      r.2.message == (if Text.Truthy(reply.body.value) then reply.body.value.value else DefaultFailure)
  {
    var errors := Validate(f.username, f.password, f.confirmPassword);
    var checked := f.(errors := errors);
    if errors != map[] then (checked, None, FormInvalid)
    else
      var sent := Some(RegisterFetch(f.username, f.password));
      var done := checked.(loading := false);
      match reply
      case NetworkDown => (done, sent, ConnectionError)
      case Reply(ok, body) =>
        if body.None? then (done, sent, ConnectionError)
        else if ok then (done, sent, Registered)
        else
          var message := if Text.Truthy(body.value) then body.value.value else DefaultFailure;
          (done, sent, RegisterFailed(message))
  }

  /** A name the registration form accepts is one the login form accepts. */
  lemma RegisteredNamesCanSignIn(f: Form, reply: RegisterReply)
    requires HandleRegister(f, reply).1.Some?
    ensures UsernameOk(f.username) && PasswordOk(f.password)
    ensures f.password == f.confirmPassword
  {
    ValidExactly(f.username, f.password, f.confirmPassword);
  }
}
