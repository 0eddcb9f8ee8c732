/** The notification socket (src/services/WebSocketService.tsx): one shared
    connection with a bounded, exponentially backed-off reconnect. Socket and
    timer callbacks are explicit events; their effects are returned. */
module WebSocket {
  import opened Wrappers
  import opened Text
  import opened Json
  import ApiConfig

  const MaxReconnectAttempts: nat := 5
  const MaxDelay: nat := 30000

  /** `${BASE_URL.replace('http', 'ws')}/notifications`. */
  function NotificationsUrl(): string {
    ReplaceFirst(ApiConfig.BaseUrl, "http", "ws") + "/notifications"
  }

  /** With the configured address the socket goes to the same host over `ws`. */
  lemma NotificationsUrlValue()
    ensures NotificationsUrl() == "ws" + ApiConfig.Authority + "/notifications"
  {
    ApiConfig.BaseUrlSplits();
  }

  datatype ReadyState = Connecting | Open | Closed

  /** The service's fields; `timer` is the delay of the pending reconnect. */
  datatype Service = Service(
    socket: Option<ReadyState>,
    userId: Option<string>,
    connected: bool,
    attempts: nat,
    timer: Option<nat>)

  const Fresh: Service := Service(None, None, false, 0, None)

  datatype Effect =
    | NewSocket(url: string)
    | Sent(frame: Json)
    | Notify(title: string, body: string)
    | Schedule(delay: nat)
    | CloseSocket

  /** `connect(userId)`: nothing while the socket is open; otherwise the user
      is remembered and a new socket is created. */
  function Connect(s: Service, userId: string): (r: (Service, seq<Effect>))
    ensures s.socket == Some(Open) ==> r == (s, [])
    ensures s.socket != Some(Open) ==>
      r == (s.(userId := Some(userId), socket := Some(Connecting)), [NewSocket(NotificationsUrl())])
  {
    if s.socket == Some(Open) then (s, [])
    else (s.(userId := Some(userId), socket := Some(Connecting)), [NewSocket(NotificationsUrl())])
  }

  /** `sendMessage(event, data)`: sent only on an open socket, dropped otherwise. */
  function Send(s: Service, event: string, data: Json): (e: seq<Effect>)
    ensures e != [] <==> s.socket == Some(Open)
    ensures e != [] ==> e == [Sent(Frame(event, data))]
  {
    if s.socket == Some(Open) then [Sent(Frame(event, data))] else []
  }

  /** The socket opened: connected, the attempt count starts over, and the
      server is asked to start sending the user's notifications. */
  function OnOpen(s: Service): (r: (Service, seq<Effect>))
    ensures r.0.connected && r.0.attempts == 0 && r.0.socket == Some(Open)
    ensures r.1 == [Sent(Frame("startNotifications", JObj([("user_id", OptStr(s.userId))])))]
  {
    var live := s.(socket := Some(Open), connected := true, attempts := 0);
    (live, Send(live, "startNotifications", JObj([("user_id", OptStr(s.userId))])))
  }

  function Pow2(k: nat): (p: nat)
    ensures p >= 1
  {
    if k == 0 then 1 else 2 * Pow2(k - 1)
  }

  /** `Math.min(1000 * 2 ** k, 30000)`. */
  function Delay(k: nat): (d: nat)
    ensures d <= MaxDelay
    ensures d == MaxDelay || d == 1000 * Pow2(k)
  {
    if 1000 * Pow2(k) < MaxDelay then 1000 * Pow2(k) else MaxDelay
  }

  /** The delays of the five reconnects. */
  lemma DelaySchedule()
    ensures [Delay(1), Delay(2), Delay(3), Delay(4), Delay(5)] == [2000, 4000, 8000, 16000, 30000]
  {
    assert Pow2(5) == 32;
  }

  /** Delays never shrink from one attempt to the next. */
  lemma {:induction false} DelayMonotone(j: nat, k: nat)
    requires j <= k
    ensures Delay(j) <= Delay(k)
  {
    if j < k {
      DelayMonotone(j, k - 1);
      assert Pow2(k) == 2 * Pow2(k - 1);
    }
  }

  /** The socket closed: disconnected, and a reconnect is scheduled while
      fewer than five attempts were made. The handler does not touch
      `this.socket`: a held socket now reads as closed, and after `disconnect()`
      there is still none. */
  function OnClose(s: Service): (r: (Service, seq<Effect>))
    ensures !r.0.connected && r.0.userId == s.userId
    ensures r.0.socket == if s.socket.Some? then Some(Closed) else None
    ensures s.attempts < MaxReconnectAttempts ==>
      && r.0.attempts == s.attempts + 1
      && r.0.timer == Some(Delay(s.attempts + 1))
      && r.1 == [Schedule(Delay(s.attempts + 1))]
    ensures s.attempts >= MaxReconnectAttempts ==> r.0.attempts == s.attempts && r.0.timer == s.timer && r.1 == []
  {
    var closed := s.(connected := false, socket := if s.socket.Some? then Some(Closed) else None);
    if s.attempts < MaxReconnectAttempts then
      var k := s.attempts + 1;
      (closed.(attempts := k, timer := Some(Delay(k))), [Schedule(Delay(k))])
    else (closed, [])
  }

  /** The reconnect timer fires: it connects again only if a user is still set. */
  function OnTimer(s: Service): (r: (Service, seq<Effect>))
    ensures s.timer.None? ==> r == (s, [])
    ensures s.timer.Some? && !Truthy(s.userId) ==> r == (s.(timer := None), [])
    ensures s.timer.Some? && Truthy(s.userId) ==> r == Connect(s.(timer := None), s.userId.value)
  {
    if s.timer.None? then (s, [])
    else
      var fired := s.(timer := None);
      if Truthy(s.userId) then Connect(fired, s.userId.value) else (fired, [])
  }

  /** `disconnect()`: the timer and the socket go and the user is forgotten;
      the attempt count stays where it was. */
  function Disconnect(s: Service): (r: (Service, seq<Effect>))
    ensures r.0 == Service(None, None, false, s.attempts, None)
    ensures r.1 == if s.socket.Some? then [CloseSocket] else []
  {
    (Service(None, None, false, s.attempts, None), if s.socket.Some? then [CloseSocket] else [])
  }

  /** `markNotificationAsRead(id)`. */
  function MarkRead(s: Service, notificationId: string): (e: seq<Effect>)
    ensures e != [] <==> s.socket == Some(Open)
  {
    Send(s, "markAsRead", JObj([("notification_id", JStr(notificationId))]))
  }

  /** A frame from the server, once parsed. */
  datatype Incoming =
    | Garbage
    | NewNotification(message: Option<string>)
    | NotificationHistory(messages: Option<seq<Option<string>>>)
    | MarkedAsRead
    | OtherEvent(name: string)

  /** `handleMessage(event)`: the local notifications it raises. */
  function OnMessage(m: Incoming): (e: seq<Effect>)
    ensures |e| <= 1
    ensures e != [] <==> m.NewNotification? || (m.NotificationHistory? && m.messages.Some? && m.messages.value != [])
    ensures m.NotificationHistory? && e != [] ==>
      e[0] == Notify("Unread Notification",
                     if Truthy(m.messages.value[0]) then m.messages.value[0].value else "You have an unread notification")
    ensures m.NewNotification? ==>
      e == [Notify("New Notification", if Truthy(m.message) then m.message.value else "You have a new notification")]
  {
    match m
    case NewNotification(msg) =>
      [Notify("New Notification", if Truthy(msg) then msg.value else "You have a new notification")]
    case NotificationHistory(msgs) =>
      if msgs.Some? && msgs.value != [] then
        var first := msgs.value[0];
        [Notify("Unread Notification", if Truthy(first) then first.value else "You have an unread notification")]
      else []
    case _ => []
  }

  // ---------------------------------------------------------------------------
  // The reconnect bound over any run
  // ---------------------------------------------------------------------------

  datatype Event = ConnectAs(userId: string) | Opened | Closes | TimerFires | Disconnects | Message(m: Incoming)

  function Step(s: Service, e: Event): (r: (Service, seq<Effect>)) {
    match e
    case ConnectAs(u) => Connect(s, u)
    case Opened => OnOpen(s)
    case Closes => OnClose(s)
    case TimerFires => OnTimer(s)
    case Disconnects => Disconnect(s)
    case Message(m) => (s, OnMessage(m))
  }

  function Run(s: Service, events: seq<Event>): Service
    decreases |events|
  {
    if events == [] then s else Run(Step(s, events[0]).0, events[1..])
  }

  /** The number of reconnects scheduled along a run. */
  function Scheduled(s: Service, events: seq<Event>): nat
    decreases |events|
  {
    if events == [] then 0
    else
      var (s', eff) := Step(s, events[0]);
      (if eff != [] && eff[0].Schedule? then 1 else 0) + Scheduled(s', events[1..])
  }

  /** Whatever happens, the attempt count never passes the maximum. */
  lemma {:induction false} AttemptsBounded(s: Service, events: seq<Event>)
    requires s.attempts <= MaxReconnectAttempts
    ensures Run(s, events).attempts <= MaxReconnectAttempts
    decreases |events|
  {
    if events != [] {
      AttemptsBounded(Step(s, events[0]).0, events[1..]);
    }
  }

  /** Without a successful open in between, at most five reconnects are
      scheduled, counting those already spent. */
  lemma {:induction false} ReconnectsBounded(s: Service, events: seq<Event>)
    requires s.attempts <= MaxReconnectAttempts
    requires forall i :: 0 <= i < |events| ==> events[i] != Opened
    ensures s.attempts + Scheduled(s, events) <= MaxReconnectAttempts
    decreases |events|
  {
    if events != [] {
      var (s', eff) := Step(s, events[0]);
      assert eff != [] && eff[0].Schedule? ==> s'.attempts == s.attempts + 1;
      assert s'.attempts >= s.attempts;
      ReconnectsBounded(s', events[1..]);
    }
  }

  /** After `disconnect()` the close that follows schedules a timer, but the
      timer no longer opens a socket, and a second `disconnect()` has nothing
      to close. */
  lemma DisconnectedStaysDown(s: Service)
    ensures
      var d := Disconnect(s).0;
      var c := OnClose(d).0;
      && OnTimer(c).1 == [] && OnTimer(c).0.socket.None?
      && Disconnect(OnTimer(c).0).1 == []
  {
  }
}
