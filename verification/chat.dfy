/** The group chat (src/screens/GroupChatScreen.tsx): who the user is, the
    socket it opens, the message list it keeps, and the send guard. */
module Chat {
  import opened Wrappers
  import opened Text
  import opened Json
  import ApiConfig

  const Offline: string := "Nie ste pripojený k internetu"
  const NotSignedIn: string := "Nie ste prihlásený"
  const InfoFailed: string := "Nepodarilo sa načítať informácie"
  const ConnectionFailed: string := "Chyba spojenia."

  /** `BASE_URL.replace(/^http/, 'ws') + '/ws'`. */
  function ChatUrl(): string {
    ReplacePrefix(ApiConfig.BaseUrl, "http", "ws") + "/ws"
  }

  /** The scheme swap keeps the secure variant secure: `https` becomes `wss`. */
  lemma SecureStaysSecure(rest: string)
    ensures ReplacePrefix("https" + rest, "http", "ws") == "wss" + rest
  {
    var s := "https" + rest;
    assert s[..4] == "http";
    assert s[4..] == "s" + rest;
  }

  lemma ChatUrlValue()
    ensures ChatUrl() == "ws" + ApiConfig.Authority + "/ws"
  {
    ApiConfig.BaseUrlSplits();
  }

  datatype Message = Message(id: string, senderId: string, senderName: string, text: string, createdAt: string)

  datatype Room = Room(
    groupId: string,
    userId: Option<string>,
    input: string,
    messages: seq<Message>,
    connected: bool,
    hasSocket: bool,
    error: Option<string>)

  function Enter(groupId: string): (r: Room)
    ensures r.messages == [] && !r.connected && r.userId.None?
  {
    Room(groupId, None, "", [], false, false, None)
  }

  /** The `data` object of an answer, whose `id` may be missing. */
  datatype MeData = MeData(id: Option<string>)

  /** The answer to `GET /users/me`: thrown (network, `!ok`, not JSON), or the
      body's `success` and its `data`, which may be missing. */
  datatype MeReply = MeFailed | MeAnswer(success: bool, data: Option<MeData>)

  /** `responseData.success && responseData.data`: the answer the user id is
      taken from. */
  predicate Accepted(reply: MeReply) {
    reply.MeAnswer? && reply.success && reply.data.Some?
  }

  /** `fetchUserInfo()`: the request sent, if any, and the room afterwards. */
  function LoadUser(r: Room, online: bool, token: Option<string>, reply: MeReply): (out: (Room, Option<string>))
    ensures out.1.Some? <==> online && Truthy(token)
    ensures out.1.Some? ==> out.1.value == ApiConfig.Url(ApiConfig.UsersMe)
    ensures !online ==> out.0 == r.(error := Some(Offline))
    ensures online && !Truthy(token) ==> out.0 == r.(error := Some(NotSignedIn))
    ensures out.0.userId != r.userId ==> out.1.Some? && Accepted(reply)
    ensures online && Truthy(token) && Accepted(reply) ==> out.0.error == r.error
    ensures out.1.Some? && Accepted(reply) ==> out.0 == r.(userId := reply.data.value.id)
    ensures out.1.Some? && !Accepted(reply) ==> out.0 == r.(error := Some(InfoFailed))
  {
    if !online then (r.(error := Some(Offline)), None)
    else if !Truthy(token) then (r.(error := Some(NotSignedIn)), None)
    else
      var sent := Some(ApiConfig.Url(ApiConfig.UsersMe));
      if Accepted(reply) then (r.(userId := reply.data.value.id), sent)
      else (r.(error := Some(InfoFailed)), sent)
  }

  /** A successful answer whose `data` has no `id` shows no error but leaves
      the user unknown, so no socket is ever opened for it. */
  lemma DataWithoutIdIsSilent(r: Room, token: string)
    requires token != []
    ensures
      var out := LoadUser(r, true, Some(token), MeAnswer(true, Some(MeData(None))));
      && out.0 == r.(userId := None)
      && OpenSocket(out.0).1.None?
  {
  }

  /** The socket effect: once the user id is known a socket is created and
      kept in `wsRef`. The effect runs again only when the group or the user
      changes. */
  function OpenSocket(r: Room): (out: (Room, Option<string>))
    ensures out.1.Some? <==> Truthy(r.userId)
    ensures out.1.Some? ==> out.1.value == ChatUrl() && out.0 == r.(hasSocket := true)
    ensures out.1.None? ==> out.0 == r
  {
    if Truthy(r.userId) then (r.(hasSocket := true), Some(ChatUrl())) else (r, None)
  }

  /** `onopen`: connected, the error cleared, and the join frame sent. */
  function OnOpen(r: Room): (out: (Room, Json))
    ensures out.0 == r.(connected := true, error := None)
    ensures out.1 == Frame("joinGroup", JObj([("group_id", JStr(r.groupId)), ("user_id", OptStr(r.userId))]))
  {
    (r.(connected := true, error := None),
     Frame("joinGroup", JObj([("group_id", JStr(r.groupId)), ("user_id", OptStr(r.userId))])))
  }

  function OnError(r: Room): (r': Room)
    ensures r' == r.(error := Some(ConnectionFailed), connected := false)
  {
    r.(error := Some(ConnectionFailed), connected := false)
  }

  function OnClose(r: Room): (r': Room)
    ensures r' == r.(connected := false)
  {
    r.(connected := false)
  }

  /** A frame from the server, once parsed. */
  datatype Incoming =
    | Garbage
    | ChatHistory(history: Option<seq<Message>>)
    | NewMessage(message: Message)
    | OtherEvent(name: string)

  /** `onmessage`: the history replaces the list, a new message is appended,
      anything else leaves the list alone. */
  function OnMessage(r: Room, m: Incoming): (r': Room)
    ensures r' == r.(messages := r'.messages)
    ensures m.ChatHistory? ==> r'.messages == m.history.GetOr([])
    ensures m.NewMessage? ==>
      |r'.messages| == |r.messages| + 1 && r'.messages[..|r.messages|] == r.messages && r'.messages[|r.messages|] == m.message
    ensures m.Garbage? || m.OtherEvent? ==> r' == r
  {
    match m
    case ChatHistory(h) => r.(messages := h.GetOr([]))
    case NewMessage(msg) => r.(messages := r.messages + [msg])
    case _ => r
  }

  /** Messages that arrive after the history keep their arrival order behind it. */
  lemma {:induction false} ArrivalsAppend(r: Room, incoming: seq<Message>)
    ensures
      var after := Deliver(r, incoming);
      after.messages == r.messages + incoming
    decreases |incoming|
  {
    if incoming != [] {
      var r1 := OnMessage(r, NewMessage(incoming[0]));
      ArrivalsAppend(r1, incoming[1..]);
      assert r.messages + [incoming[0]] + incoming[1..] == r.messages + incoming;
    }
  }

  function Deliver(r: Room, incoming: seq<Message>): Room
    decreases |incoming|
  {
    if incoming == [] then r else Deliver(OnMessage(r, NewMessage(incoming[0])), incoming[1..])
  }

  /** `sendMessage()`: nothing unless the trimmed input is non-empty, the
      screen is connected and a socket exists; then the trimmed text goes out and the input clears. */
  function SendMessage(r: Room): (out: (Room, Option<Json>))
    ensures out.1.Some? <==> Trim(r.input) != [] && r.connected && r.hasSocket
    ensures out.1.None? ==> out.0 == r
    ensures out.1.Some? ==>
      && out.0 == r.(input := "")
      && out.1.value == Frame("sendMessage", JObj([("message", JStr(Trim(r.input))),
                                                   ("group_id", JStr(r.groupId)),
                                                   ("user_id", OptStr(r.userId))]))
  {
    if Trim(r.input) == [] || !r.connected || !r.hasSocket then (r, None)
    else
      (r.(input := ""),
       Some(Frame("sendMessage", JObj([("message", JStr(Trim(r.input))),
                                       ("group_id", JStr(r.groupId)),
                                       ("user_id", OptStr(r.userId))]))))
  }

  /** A whitespace-only input is never sent, and the text that goes out has no
      surrounding whitespace. */
  lemma SentTextIsTrimmed(r: Room)
    ensures IsBlank(r.input) ==> SendMessage(r).1.None?
    ensures SendMessage(r).1.Some? ==>
      var t := Trim(r.input);
      t != [] && !IsSpace(t[0]) && !IsSpace(t[|t| - 1]) && Trim(t) == t
  {
    TrimIdempotent(r.input);
  }

  /** The retry button of the error banner, as written: the socket is closed
      (`out.1` says whether there was one to close) and forgotten, and the error
      cleared. The socket effect depends on the group and the user only, so
      clearing the error does not run it again. */
  function Retry(r: Room): (out: (Room, bool))
    ensures out.1 <==> r.hasSocket
    ensures !out.0.hasSocket && out.0.error.None?
    ensures out.0 == r.(hasSocket := false, error := None)
  {
    (r.(hasSocket := false, error := None), r.hasSocket)
  }

  /** After the retry, once the old socket's close arrives, nothing typed is
      ever sent, and no `onopen` can follow because no socket is left. */
  lemma AsWrittenRetryNeverReconnects(r: Room, typed: string)
    ensures
      var after := OnClose(Retry(r).0).(input := typed);
      !after.connected && !after.hasSocket && SendMessage(after).1.None?
  {
  }

  /** The retry as its comment intends: the socket effect runs again, so a user
      who is known gets a new socket (the URL in `out.1`). */
  function RetryCorrected(r: Room): (out: (Room, Option<string>))
    ensures out.0.error.None?
    ensures out.1.Some? <==> Truthy(r.userId)
    ensures out.1.Some? ==> out.1.value == ChatUrl() && out.0.hasSocket
    ensures out.0 == r.(hasSocket := Truthy(r.userId), error := None)
  {
    OpenSocket(r.(hasSocket := false, error := None))
  }

  /** With the correction, once the new socket opens a non-blank message goes
      out again. */
  lemma CorrectedRetryReconnects(r: Room, typed: string)
    requires Truthy(r.userId) && !IsBlank(typed)
    ensures
      var reopened := OnOpen(OnClose(RetryCorrected(r).0)).0.(input := typed);
      SendMessage(reopened).1.Some?
  {
  }
}
