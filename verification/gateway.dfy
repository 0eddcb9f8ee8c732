/** The authenticated request gateway (src/utils/apiClient.ts): header and URL
    construction, the method helpers, and the module-wide refresh flag with its
    queue of callers waiting for a refresh to settle.

    Each reaction of `fetchWithAuth` to something the outside world did is a pure
    function of the gateway state; `Coordinator` composes them with the session
    manager. */
module Gateway {
  import opened Wrappers
  import opened Text
  import opened Json
  import ApiConfig
  import Auth

  datatype HttpMethod = GET | POST | PUT | PATCH | DELETE

  /** Header names to values. Object spread lets a later key override an earlier
      one, which is exactly a map update. */
  type Headers = map<string, string>

  /** The part of `RequestInit` the client uses; `body` is the payload before
      `JSON.stringify`. */
  datatype Options = Options(verb: Option<HttpMethod>, headers: Headers, body: Option<Json>)

  const NoOptions: Options := Options(None, map[], None)

  /** A call of `fetchWithAuth(url, options)`. */
  datatype Request = Request(url: string, options: Options)

  /** What is handed to `fetch`: the resolved URL and the final options. */
  datatype Fetch = Fetch(url: string, options: Options)

  const ContentTypeKey: string := "Content-Type"
  const AuthorizationKey: string := "Authorization"
  const JsonType: string := "application/json"

  function Bearer(token: string): string {
    "Bearer " + token
  }

  /** The headers of a first attempt: the caller's headers, then the JSON content
      type, then a bearer token when one is held. */
  function BuildHeaders(caller: Headers, token: Option<string>): (h: Headers)
    ensures ContentTypeKey in h && h[ContentTypeKey] == JsonType
    ensures Text.Truthy(token) ==> AuthorizationKey in h && h[AuthorizationKey] == Bearer(token.value)
    ensures !Text.Truthy(token) ==>
      && (AuthorizationKey in h <==> AuthorizationKey in caller)
      && (AuthorizationKey in caller ==> h[AuthorizationKey] == caller[AuthorizationKey])
    ensures forall k :: k != ContentTypeKey && k != AuthorizationKey ==>
      && (k in h <==> k in caller)
      && (k in caller ==> h[k] == caller[k])
  {
    var h := caller[ContentTypeKey := JsonType];
    if Text.Truthy(token) then h[AuthorizationKey := Bearer(token.value)] else h
  }

  /** The headers of the leader's retry after a refresh: the bearer is always set. */
  function RetryHeaders(caller: Headers, token: string): (h: Headers)
    ensures ContentTypeKey in h && h[ContentTypeKey] == JsonType
    ensures AuthorizationKey in h && h[AuthorizationKey] == Bearer(token)
    ensures forall k :: k != ContentTypeKey && k != AuthorizationKey ==>
      && (k in h <==> k in caller)
      && (k in caller ==> h[k] == caller[k])
  {
    caller[ContentTypeKey := JsonType][AuthorizationKey := Bearer(token)]
  }

  /** For the non-empty token a successful refresh yields, the retry's headers
      are the first attempt's headers built from the new token. */
  lemma RetryHeadersAgree(caller: Headers, token: string)
    requires token != ""
    ensures RetryHeaders(caller, token) == BuildHeaders(caller, Some(token))
  {
  }

  /** Absolute URLs pass through; anything else is appended to the base address. */
  function ResolveUrl(url: string): (r: string)
    ensures StartsWith(url, "http") ==> r == url
    ensures !StartsWith(url, "http") ==> r == ApiConfig.BaseUrl + url
    ensures StartsWith(r, "http")
  {
    if StartsWith(url, "http") then url
    else
      var r := ApiConfig.BaseUrl + url;
      assert r[..4] == ApiConfig.BaseUrl[..4];
      r
  }

  /** Resolving a resolved URL changes nothing. */
  lemma ResolveUrlIdempotent(url: string)
    ensures ResolveUrl(ResolveUrl(url)) == ResolveUrl(url)
  {
  }

  /** Every configured endpoint is absolute, so the gateway leaves it alone. */
  lemma EndpointUrlsPassThrough(e: ApiConfig.Endpoint)
    ensures ResolveUrl(ApiConfig.Url(e)) == ApiConfig.Url(e)
  {
  }

  // ---------------------------------------------------------------------------
  // The method helpers
  // ---------------------------------------------------------------------------

  /** `get` and `delete` set only the method; a body the caller passed is kept. */
  function Get(url: string, options: Options): (r: Request)
    ensures r.url == url && r.options.verb == Some(GET)
    ensures r.options.headers == options.headers && r.options.body == options.body
  {
    Request(url, options.(verb := Some(GET)))
  }

  function Del(url: string, options: Options): (r: Request)
    ensures r.url == url && r.options.verb == Some(DELETE)
    ensures r.options.headers == options.headers && r.options.body == options.body
  {
    Request(url, options.(verb := Some(DELETE)))
  }

  /** `post`, `put` and `patch` set the method and replace the body with the
      serialised payload. */
  function WithPayload(url: string, m: HttpMethod, json: Json, options: Options): (r: Request)
    ensures r.url == url && r.options.verb == Some(m)
    ensures r.options.headers == options.headers && r.options.body == Some(json)
  {
    Request(url, options.(verb := Some(m), body := Some(json)))
  }

  function PostRequest(url: string, json: Json, options: Options): Request {
    WithPayload(url, POST, json, options)
  }

  function PutRequest(url: string, json: Json, options: Options): Request {
    WithPayload(url, PUT, json, options)
  }

  function PatchRequest(url: string, json: Json, options: Options): Request {
    WithPayload(url, PATCH, json, options)
  }

  // ---------------------------------------------------------------------------
  // Attempts
  // ---------------------------------------------------------------------------

  /** The first attempt of a request made while `token` is the token the caller
      sees. */
  function FirstFetch(req: Request, token: Option<string>): (f: Fetch)
    ensures f.url == ResolveUrl(req.url)
    ensures f.options.verb == req.options.verb && f.options.body == req.options.body
    ensures f.options.headers == BuildHeaders(req.options.headers, token)
  {
    Fetch(ResolveUrl(req.url), req.options.(headers := BuildHeaders(req.options.headers, token)))
  }

  /** The leader's retry after a successful refresh. */
  function RetryFetch(req: Request, token: string): (f: Fetch)
    ensures f.url == ResolveUrl(req.url)
    ensures f.options.verb == req.options.verb && f.options.body == req.options.body
    ensures AuthorizationKey in f.options.headers && f.options.headers[AuthorizationKey] == Bearer(token)
  {
    Fetch(ResolveUrl(req.url), req.options.(headers := RetryHeaders(req.options.headers, token)))
  }

  /** The retry is the first attempt a caller holding the new token would make. */
  lemma RetryIsFreshAttempt(req: Request, token: string)
    requires token != ""
    ensures RetryFetch(req, token) == FirstFetch(req, Some(token))
  {
    RetryHeadersAgree(req.options.headers, token);
  }

  // ---------------------------------------------------------------------------
  // The refresh flag and the waiting queue
  // ---------------------------------------------------------------------------

  /** One invocation of `fetchWithAuth`. `snapshot` is the token the invoking
      hook instance captured when it rendered; the function reads that and not
      the session's current token. */
  datatype Call = Call(id: nat, request: Request, snapshot: Option<string>)

  /** The module-wide `isRefreshing` flag and `failedQueue`, plus the call whose
      401 started the running refresh (the suspended frame that awaits it). */
  datatype State = State(isRefreshing: bool, failedQueue: seq<Call>, leader: Option<Call>)

  const Idle: State := State(false, [], None)

  datatype Response = Response(status: int, body: string)

  /** How a first attempt ended: `fetch` rejected, or a response arrived. */
  datatype FetchOutcome = Thrown(message: string) | Answered(response: Response)

  datatype Error = TransportError(message: string) | RefreshFailed

  predicate Unauthorized(outcome: FetchOutcome) {
    outcome.Answered? && outcome.response.status == 401
  }

  /** What `fetchWithAuth` does after its first attempt. */
  datatype FirstStep =
    | Return(response: Response)   // any status but 401, returned unchanged
    | Raise(error: Error)          // the transport error is rethrown
    | Enqueued                     // 401 during a refresh: wait in the queue
    | StartRefresh                 // 401 with no refresh running: lead one

  function OnFirstOutcome(g: State, call: Call, outcome: FetchOutcome): (r: (State, FirstStep))
    ensures !Unauthorized(outcome) ==> r.0 == g
    ensures outcome.Thrown? ==> r.1 == Raise(TransportError(outcome.message))
    ensures outcome.Answered? && !Unauthorized(outcome) ==> r.1 == Return(outcome.response)
    ensures Unauthorized(outcome) && g.isRefreshing ==>
      r == (g.(failedQueue := g.failedQueue + [call]), Enqueued)
    ensures Unauthorized(outcome) && !g.isRefreshing ==>
      r == (g.(isRefreshing := true, leader := Some(call)), StartRefresh)
  {
    match outcome
    case Thrown(m) => (g, Raise(TransportError(m)))
    case Answered(resp) =>
      if resp.status != 401 then (g, Return(resp))
      else if g.isRefreshing then (g.(failedQueue := g.failedQueue + [call]), Enqueued)
      else (g.(isRefreshing := true, leader := Some(call)), StartRefresh)
  }

  /** How a waiting caller's promise settles. */
  datatype Outcome = Resolved(token: string) | Rejected(error: Error)

  datatype Settlement = Settlement(call: Call, outcome: Outcome)

  /** `processQueue`: every waiter, in queue order, settles with the same outcome. */
  function ProcessQueue(queue: seq<Call>, outcome: Outcome): (settled: seq<Settlement>)
    ensures |settled| == |queue|
    ensures forall i :: 0 <= i < |queue| ==> settled[i] == Settlement(queue[i], outcome)
  {
    if queue == [] then [] else [Settlement(queue[0], outcome)] + ProcessQueue(queue[1..], outcome)
  }

  /** What the leader does once `refreshToken()` has returned. */
  datatype LeaderStep = Retry(fetch: Fetch) | Fail(error: Error)

  /** The leader's continuation after `refreshToken()` returns `newToken`. On
      success the queue is resolved with the token and the leader's own request
      is sent once more with the new bearer. On failure the queue is rejected,
      the error is thrown into the local `catch`, which lowers the flag and
      drains the (by then empty) queue a second time before rethrowing. */
  function OnRefreshSettled(g: State, leader: Call, newToken: Option<string>): (r: (State, seq<Settlement>, LeaderStep))
    ensures r.0 == Idle
    ensures |r.1| == |g.failedQueue|
    ensures forall i :: 0 <= i < |r.1| ==> r.1[i].call == g.failedQueue[i]
    ensures Text.Truthy(newToken) ==>
      && (forall i :: 0 <= i < |r.1| ==> r.1[i].outcome == Resolved(newToken.value))
      && r.2 == Retry(RetryFetch(leader.request, newToken.value))
    ensures !Text.Truthy(newToken) ==>
      && (forall i :: 0 <= i < |r.1| ==> r.1[i].outcome == Rejected(RefreshFailed))
      && r.2 == Fail(RefreshFailed)
  {
    var flagDown := g.(isRefreshing := false);
    if Text.Truthy(newToken) then
      var settled := ProcessQueue(flagDown.failedQueue, Resolved(newToken.value));
      (Idle, settled, Retry(RetryFetch(leader.request, newToken.value)))
    else
      var settled := ProcessQueue(flagDown.failedQueue, Rejected(RefreshFailed));
      var drained := flagDown.(failedQueue := []);
      // the catch block: the flag again, and a second drain of the empty queue
      var again := ProcessQueue(drained.failedQueue, Rejected(RefreshFailed));
      (Idle, settled + again, Fail(RefreshFailed))
  }
}
