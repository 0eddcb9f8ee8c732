/** The session manager (src/context/AuthContext.tsx) over the two-entry secure
    token store (src/utils/tokenStorage.tsx).

    Every asynchronous step is a pure function from the session before it to the
    session after it, together with the network calls it makes. A refresh is two
    steps, `BeginRefresh` and `FinishRefresh`, because a refresh episode spans the
    wait for the refresh endpoint's answer and other callers can observe the
    session in between. */
module Auth {
  import opened Wrappers
  import opened Text
  import ApiConfig

  /** The secure store's two entries, `access_token` and `refresh_token`. */
  datatype Store = Store(access: Option<string>, refresh: Option<string>)

  const EmptyStore: Store := Store(None, None)

  /** The provider's state: the in-memory access token, the persistent store and
      the `isTokenRefreshing` flag. */
  datatype Session = Session(token: Option<string>, store: Store, isTokenRefreshing: bool)

  /** The network calls the session manager makes. */
  datatype NetCall =
    | LogoutCall(url: string, bearer: string)
    | RefreshCall(url: string, refreshToken: string)

  const LogoutUrl: string := ApiConfig.BaseUrl + "/users/logout"
  const RefreshUrl: string := ApiConfig.BaseUrl + "/auth/refresh"

  /** A freshly mounted provider over a store that survived a restart. */
  function Mount(store: Store): Session {
    Session(None, store, false)
  }

  /** The startup effect: the in-memory token is restored from the store only
      when a non-empty token was saved. */
  function LoadToken(s: Session): (r: Session)
    ensures Truthy(s.store.access) ==> r.token == s.store.access
    ensures !Truthy(s.store.access) ==> r == s
    ensures r.store == s.store && r.isTokenRefreshing == s.isTokenRefreshing
  {
    if Truthy(s.store.access) then s.(token := s.store.access) else s
  }

  /** `login(accessToken, refreshToken)`: stores both tokens and holds the access
      token in memory; the tokens are not validated. */
  function Login(s: Session, accessToken: string, refreshToken: string): (r: Session)
    ensures r.store.access == Some(accessToken) && r.store.refresh == Some(refreshToken)
    ensures r.token == Some(accessToken)
    ensures r.isTokenRefreshing == s.isTokenRefreshing
  {
    Session(Some(accessToken), Store(Some(accessToken), Some(refreshToken)), s.isTokenRefreshing)
  }

  /** The store written by `login` is what the next start-up reads back. */
  lemma LoginSurvivesRestart(s: Session, accessToken: string, refreshToken: string)
    requires accessToken != ""
    ensures LoadToken(Mount(Login(s, accessToken, refreshToken).store)).token == Some(accessToken)
    ensures Mount(Login(s, accessToken, refreshToken).store).store.refresh == Some(refreshToken)
  {
  }

  /** `logout()`: calls the server only while a token is held (a failure of that
      call is swallowed, so its answer does not matter), then always clears both
      stored tokens and the in-memory token. */
  function Logout(s: Session): (r: (Session, seq<NetCall>))
    ensures r.0.token == None && r.0.store == EmptyStore
    ensures r.0.isTokenRefreshing == s.isTokenRefreshing
    ensures Truthy(s.token) ==> r.1 == [LogoutCall(LogoutUrl, s.token.value)]
    ensures !Truthy(s.token) ==> r.1 == []
  {
    var calls := if Truthy(s.token) then [LogoutCall(LogoutUrl, s.token.value)] else [];
    (s.(token := None, store := EmptyStore), calls)
  }

  /** A second logout changes nothing and calls nobody. */
  lemma LogoutIdempotent(s: Session)
    ensures Logout(Logout(s).0) == (Logout(s).0, [])
  {
  }

  /** What the refresh endpoint answered: a transport failure, or a response whose
      body is JSON (`Some`) or not (`None`, `response.json()` throws). */
  datatype RefreshReply =
    | NetworkFailure
    | Reply(ok: bool, body: Option<RefreshBody>)

  datatype RefreshBody = RefreshBody(success: bool, accessToken: Option<string>, refreshToken: Option<string>)

  /** The one successful outcome: `response.ok && data.success && data.accessToken`. */
  predicate RefreshSucceeded(reply: RefreshReply) {
    && reply.Reply?
    && reply.ok
    && reply.body.Some?
    && reply.body.value.success
    && Truthy(reply.body.value.accessToken)
  }

  /** The first half of `refreshToken()`, up to the call to the refresh endpoint. */
  datatype BeginStep =
    | AwaitOther                                     // another refresh is running: poll
    | Settled(token: Option<string>, calls: seq<NetCall>)   // finished without the endpoint
    | AwaitServer(call: NetCall)                     // the refresh endpoint was called

  function BeginRefresh(s: Session): (r: (Session, BeginStep))
    // Already refreshing: no storage read, no network call, nothing changes.
    ensures s.isTokenRefreshing ==> r == (s, AwaitOther)
    // No usable refresh token: logged out, null returned, the endpoint not called.
    ensures !s.isTokenRefreshing && !Truthy(s.store.refresh) ==>
      && r.1 == Settled(None, Logout(s).1)
      && r.0 == Logout(s).0
      && !r.0.isTokenRefreshing
    // Otherwise the flag is raised and the endpoint called with the stored token.
    ensures !s.isTokenRefreshing && Truthy(s.store.refresh) ==>
      && r.1 == AwaitServer(RefreshCall(RefreshUrl, s.store.refresh.value))
      && r.0 == s.(isTokenRefreshing := true)
  {
    if s.isTokenRefreshing then (s, AwaitOther)
    else
      var busy := s.(isTokenRefreshing := true);
      var stored := busy.store.refresh;
      if !Truthy(stored) then
        var (out, calls) := Logout(busy);
        (out.(isTokenRefreshing := false), Settled(None, calls))
      else
        (busy, AwaitServer(RefreshCall(RefreshUrl, stored.value)))
  }

  /** The second half of `refreshToken()`, once the endpoint has answered. It never
      throws: every failure becomes a logout and a `null` result, and the `finally`
      block lowers the flag on every path. */
  function FinishRefresh(s: Session, reply: RefreshReply): (r: (Session, Option<string>, seq<NetCall>))
    ensures !r.0.isTokenRefreshing
    ensures RefreshSucceeded(reply) ==>
      var body := reply.body.value;
      && r.1 == body.accessToken
      && r.0.token == body.accessToken
      && r.0.store.access == body.accessToken
      && r.0.store.refresh == (if Truthy(body.refreshToken) then body.refreshToken else s.store.refresh)
      && r.2 == []
    ensures !RefreshSucceeded(reply) ==>
      && r.1 == None
      && r.0.token == None && r.0.store == EmptyStore
      && r.2 == Logout(s).1
    ensures Truthy(r.1) <==> RefreshSucceeded(reply)
  {
    if RefreshSucceeded(reply) then
      var body := reply.body.value;
      var newToken := body.accessToken.value;
      var stored := Store(Some(newToken), s.store.refresh);
      var stored' := if Truthy(body.refreshToken) then stored.(refresh := body.refreshToken) else stored;
      (Session(Some(newToken), stored', false), Some(newToken), [])
    else
      var (out, calls) := Logout(s);
      (out.(isTokenRefreshing := false), None, calls)
  }

  /** A caller that found a refresh running polls every 100 ms; it is answered once
      the flag is down, with the token then held in memory. */
  function PollRefresh(s: Session): (r: Option<Option<string>>)
    ensures r.Some? <==> !s.isTokenRefreshing
    ensures r.Some? ==> r.value == s.token
  {
    if s.isTokenRefreshing then None else Some(s.token)
  }

  /** A whole `refreshToken()` call when nothing interleaves with it: the reply
      is only consulted if the endpoint was called. */
  function RefreshToken(s: Session, reply: RefreshReply): (r: (Session, Option<Option<string>>, seq<NetCall>))
  {
    var (s1, step) := BeginRefresh(s);
    match step
    case AwaitOther => (s1, None, [])
    case Settled(token, calls) => (s1, Some(token), calls)
    case AwaitServer(call) =>
      var (s2, token, calls) := FinishRefresh(s1, reply);
      (s2, Some(token), [call] + calls)
  }

  function CountRefreshCalls(calls: seq<NetCall>): (n: nat)
    ensures n <= |calls|
  {
    if calls == [] then 0
    else (if calls[0].RefreshCall? then 1 else 0) + CountRefreshCalls(calls[1..])
  }

  lemma CountRefreshCallsAppend(a: seq<NetCall>, b: seq<NetCall>)
    ensures CountRefreshCalls(a + b) == CountRefreshCalls(a) + CountRefreshCalls(b)
  {
    if a == [] {
      assert a + b == b;
    } else {
      assert (a + b)[1..] == a[1..] + b;
      CountRefreshCallsAppend(a[1..], b);
    }
  }

  /** A call to `refreshToken()` makes at most one call to the refresh endpoint,
      none while another refresh runs or when no refresh token is stored; it ends
      with the flag down unless it is waiting on another refresh; it returns a
      token exactly when the endpoint granted one, and otherwise leaves the
      session logged out. */
  lemma RefreshTokenContract(s: Session, reply: RefreshReply)
    ensures CountRefreshCalls(RefreshToken(s, reply).2) <= 1
    ensures s.isTokenRefreshing ==> RefreshToken(s, reply) == (s, None, [])
    ensures !Truthy(s.store.refresh) ==> CountRefreshCalls(RefreshToken(s, reply).2) == 0
    ensures !s.isTokenRefreshing ==>
      var (s', result, _) := RefreshToken(s, reply);
      && !s'.isTokenRefreshing
      && result.Some?
      && (Truthy(result.value) <==> Truthy(s.store.refresh) && RefreshSucceeded(reply))
      && (!Truthy(result.value) ==> s'.token == None && s'.store == EmptyStore)
  {
    var (s1, step) := BeginRefresh(s);
    match step
    case AwaitOther =>
    case Settled(token, calls) =>
      assert CountRefreshCalls(calls) == 0;
    case AwaitServer(call) =>
      var (s2, token, calls) := FinishRefresh(s1, reply);
      assert CountRefreshCalls(calls) == 0;
      CountRefreshCallsAppend([call], calls);
  }

  /** A caller that polled during a refresh receives exactly what the refresh
      itself returned. */
  lemma PollerSeesRefreshResult(s: Session, reply: RefreshReply)
    ensures PollRefresh(FinishRefresh(s, reply).0) == Some(FinishRefresh(s, reply).1)
  {
  }
}
