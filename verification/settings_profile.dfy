/** The change-name and change-password dialog of the profile settings
    (src/screens/SettingsProfileScreen.tsx). Both changes go through the
    authenticated gateway as PATCH requests. */
module SettingsProfile {
  import opened Wrappers
  import opened Forms
  import opened Json
  import ApiConfig
  import Text
  import G = Gateway

  const UsernameModal: string := "username"
  const PasswordModal: string := "password"

  /** The exact plain-text answer the server gives for a name in use. */
  const NameTakenText: string := "This name is already taken"

  datatype Screen = Screen(
    username: string,
    modalVisible: bool,
    modalType: string,
    inputValue: string,
    confirmPassword: string,
    loading: bool)

  /** `openModal(type, currentValue)`: shows the dialog prefilled with the
      current value and an empty confirmation. */
  function OpenModal(s: Screen, kind: string, currentValue: string): (s': Screen)
    ensures s'.modalVisible && s'.modalType == kind
    ensures s'.inputValue == currentValue && s'.confirmPassword == ""
    ensures s'.username == s.username && s'.loading == s.loading
  {
    s.(modalType := kind, inputValue := currentValue, confirmPassword := "", modalVisible := true)
  }

  /** The PATCH's result: a thrown error (network, or a failed token refresh),
      or a response with its `ok` flag, whether its content type is JSON, and
      its text. */
  datatype PatchReply = Failed | Reply(ok: bool, isJson: bool, text: string)

  /** The alerts the dialog shows. */
  datatype Notice =
    | NameInvalid | NameUnchanged | NameTaken | NameChanged
    | PasswordTooShort | PasswordMismatch | PasswordChanged
    | UnexpectedError

  function EditNameRequest(name: string): G.Request {
    G.PatchRequest(ApiConfig.Url(ApiConfig.UsersEditName), JObj([("newName", JStr(name))]), G.NoOptions)
  }

  function EditPasswordRequest(password: string): G.Request {
    G.PatchRequest(ApiConfig.Url(ApiConfig.UsersEditPassword), JObj([("newPassword", JStr(password))]), G.NoOptions)
  }

  /** The notice for an answer to a change-name request. */
  function NameAnswer(reply: PatchReply): (n: Notice)
    ensures n == NameChanged <==> reply.Reply? && reply.ok
    ensures n == NameTaken <==> reply.Reply? && !reply.ok && !reply.isJson && reply.text == NameTakenText
    ensures n in {NameChanged, NameTaken, UnexpectedError}
  {
    match reply
    case Failed => UnexpectedError
    case Reply(ok, isJson, text) =>
      if ok then NameChanged
      else if isJson then UnexpectedError
      else if text == NameTakenText then NameTaken
      else UnexpectedError
  }

  /** `handleSave()`: the screen afterwards, the request sent if any, and the
      alert shown. `loading` is down afterwards on every path. */
  function HandleSave(s: Screen, reply: PatchReply): (r: (Screen, Option<G.Request>, Option<Notice>))
    ensures !r.0.loading
    ensures r.0.inputValue == s.inputValue && r.0.modalType == s.modalType
    // the name changes only when the server accepted a valid, different name
    ensures r.0.username != s.username ==>
      && s.modalType == UsernameModal && NewNameOk(s.inputValue)
      && r.0.username == s.inputValue && reply.Reply? && reply.ok
    // the dialog closes exactly on success, and a new name is then shown
    ensures r.0.modalVisible != s.modalVisible ==> r.2 == Some(NameChanged) || r.2 == Some(PasswordChanged)
    ensures r.2 == Some(NameChanged) ==> r.0.username == s.inputValue && !r.0.modalVisible
    ensures r.2 == Some(PasswordChanged) ==> !r.0.modalVisible && r.0.username == s.username
    ensures s.modalType == UsernameModal ==>
      && (r.1.Some? <==> NewNameOk(s.inputValue) && s.inputValue != s.username)
      && (r.1.Some? ==> r.1.value == EditNameRequest(s.inputValue) && r.2 == Some(NameAnswer(reply)))
      && (!NewNameOk(s.inputValue) ==> r.2 == Some(NameInvalid))
      && (NewNameOk(s.inputValue) && s.inputValue == s.username ==> r.2 == Some(NameUnchanged))
    ensures s.modalType == PasswordModal ==>
      && (r.1.Some? <==> Text.JsLength(s.inputValue) >= MinPassword && s.inputValue == s.confirmPassword)
      && (r.1.Some? ==> r.1.value == EditPasswordRequest(s.inputValue))
      && (Text.JsLength(s.inputValue) < MinPassword ==> r.2 == Some(PasswordTooShort))
      && (Text.JsLength(s.inputValue) >= MinPassword && s.inputValue != s.confirmPassword ==> r.2 == Some(PasswordMismatch))
      && (r.2 == Some(PasswordChanged) <==> r.1.Some? && reply.Reply? && reply.ok)
    ensures s.modalType != UsernameModal && s.modalType != PasswordModal ==>
      r == (s.(loading := false), None, None)
  {
    var done := s.(loading := false);
    if s.modalType == UsernameModal then
      if !NewNameOk(s.inputValue) then (done, None, Some(NameInvalid))
      else if s.inputValue == s.username then (done, None, Some(NameUnchanged))
      else
        var notice := NameAnswer(reply);
        var after := if notice == NameChanged then done.(username := s.inputValue, modalVisible := false) else done;
        (after, Some(EditNameRequest(s.inputValue)), Some(notice))
    else if s.modalType == PasswordModal then
      if Text.JsLength(s.inputValue) < MinPassword then (done, None, Some(PasswordTooShort))
      else if s.inputValue != s.confirmPassword then (done, None, Some(PasswordMismatch))
      else
        var accepted := reply.Reply? && reply.ok;
        var after := if accepted then done.(modalVisible := false) else done;
        (after, Some(EditPasswordRequest(s.inputValue)), Some(if accepted then PasswordChanged else UnexpectedError))
    else (done, None, None)
  }

  /** Saving a name the server accepted a second time asks the server nothing. */
  lemma SecondSaveIsLocal(s: Screen, first: PatchReply, second: PatchReply)
    requires s.modalType == UsernameModal
    requires HandleSave(s, first).2 == Some(NameChanged)
    ensures HandleSave(HandleSave(s, first).0, second).1 == None
    ensures HandleSave(HandleSave(s, first).0, second).2 == Some(NameUnchanged)
  {
  }

  /** A new name the dialog sends is one registration and login accept. */
  lemma SentNamesAreUsernames(s: Screen, reply: PatchReply)
    requires s.modalType == UsernameModal && HandleSave(s, reply).1.Some?
    ensures UsernameOk(s.inputValue)
  {
    UsernameRulesAgree(s.inputValue);
  }
}
