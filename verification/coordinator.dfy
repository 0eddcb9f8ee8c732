/** The gateway and the session manager together: the refresh coordination the
    client performs across logically concurrent requests on one event loop.

    The world drives the system with four kinds of events: the first attempt of
    some call comes back, the refresh endpoint answers, or a screen calls
    `login` or `logout` of the session. A step reacts to one event atomically,
    which is what the single-threaded event loop guarantees between two
    `await`s.

    A waiter resolved by a successful refresh re-invokes `fetchWithAuth` from the
    closure it was created in, so its retry carries the token that closure
    captured, not the refreshed one. `AsWritten` models that; `Corrected` retries
    with the token the queue was resolved with, which is what the unused
    `newToken` parameter of the waiter's continuation was evidently meant for. */
module Coordinator {
  import opened Wrappers
  import Text
  import Auth
  import G = Gateway

  datatype Variant = AsWritten | Corrected

  /** Gateway state, session state and every call the session manager made. */
  datatype System = System(gw: G.State, auth: Auth.Session, net: seq<Auth.NetCall>)

  datatype Event =
    | Respond(call: G.Call, outcome: G.FetchOutcome)
    | RefreshAnswered(reply: Auth.RefreshReply)
    | SignIn(accessToken: string, refreshToken: string)
    | SignOut

  /** What the callers of `fetchWithAuth` observe. */
  datatype Output =
    | Sent(call: G.Call, fetch: G.Fetch)         // a first attempt went out
    | Returned(call: G.Call, response: G.Response)
    | Raised(call: G.Call, error: G.Error)
    | Queued(call: G.Call)
    | Resumed(call: G.Call)                      // a waiter starts over as this call
    | Retried(call: G.Call, fetch: G.Fetch)      // the leader's plain retry

  /** The three facts that tie the gateway's flag, its leader, its queue and the
      session's flag together. */
  ghost predicate Inv(s: System) {
    && (s.gw.isRefreshing <==> s.gw.leader.Some?)
    && (s.gw.isRefreshing <==> s.auth.isTokenRefreshing)
    && (!s.gw.isRefreshing ==> s.gw.failedQueue == [])
  }

  /** A freshly started client. */
  function Start(store: Auth.Store): (s: System)
    ensures Inv(s) && !s.gw.isRefreshing && s.net == []
  {
    System(G.Idle, Auth.LoadToken(Auth.Mount(store)), [])
  }

  /** The call a waiter re-invokes once the queue resolved it with `token`. */
  function Resume(v: Variant, call: G.Call, token: string): (c: G.Call)
    ensures c.id == call.id && c.request == call.request
    ensures v == Corrected ==> c.snapshot == Some(token)
    ensures v == AsWritten ==> c.snapshot == call.snapshot
  {
    match v
    case AsWritten => call
    case Corrected => call.(snapshot := Some(token))
  }

  function SettlementOutput(v: Variant, st: G.Settlement): Output {
    match st.outcome
    case Resolved(t) => Resumed(Resume(v, st.call, t))
    case Rejected(e) => Raised(st.call, e)
  }

  /** The leader's continuation and the queue's drain, once the refresh result
      `token` is known and the session is in state `auth`. */
  function Settle(v: Variant, s: System, leader: G.Call, auth: Auth.Session, token: Option<string>,
                  calls: seq<Auth.NetCall>): (r: (System, seq<Output>))
    ensures r.0.gw == G.Idle && r.0.auth == auth && r.0.net == s.net + calls
    ensures |r.1| == |s.gw.failedQueue| + 1
  {
    var (gw, settled, step) := G.OnRefreshSettled(s.gw, leader, token);
    var last := match step
      case Retry(f) => Retried(leader, f)
      case Fail(e) => Raised(leader, e);
    var out := seq(|settled|, i requires 0 <= i < |settled| => SettlementOutput(v, settled[i]));
    (System(gw, auth, s.net + calls), out + [last])
  }

  function Step(v: Variant, s: System, e: Event): (r: (System, seq<Output>))
  {
    match e
    case Respond(call, outcome) =>
      var sent := Sent(call, G.FirstFetch(call.request, call.snapshot));
      var (gw1, first) := G.OnFirstOutcome(s.gw, call, outcome);
      (match first
       case Return(resp) => (s.(gw := gw1), [sent, Returned(call, resp)])
       case Raise(err) => (s.(gw := gw1), [sent, Raised(call, err)])
       case Enqueued => (s.(gw := gw1), [sent, Queued(call)])
       case StartRefresh =>
         var (auth1, begin) := Auth.BeginRefresh(s.auth);
         match begin
         case AwaitServer(nc) => (System(gw1, auth1, s.net + [nc]), [sent])
         case Settled(token, calls) =>
           var (s2, out) := Settle(v, s.(gw := gw1), call, auth1, token, calls);
           (s2, [sent] + out)
         case AwaitOther => (System(gw1, auth1, s.net), [sent]))
    case RefreshAnswered(reply) =>
      if s.gw.leader.None? || !s.auth.isTokenRefreshing then (s, [])
      else
        var (auth1, token, calls) := Auth.FinishRefresh(s.auth, reply);
        Settle(v, s, s.gw.leader.value, auth1, token, calls)
    case SignIn(a, r) => (s.(auth := Auth.Login(s.auth, a, r)), [])
    case SignOut =>
      var (auth1, calls) := Auth.Logout(s.auth);
      (System(s.gw, auth1, s.net + calls), [])
  }

  /** The system after a sequence of events, with everything the callers observed. */
  function Run(v: Variant, s: System, es: seq<Event>): (System, seq<Output>)
    decreases |es|
  {
    if es == [] then (s, [])
    else
      var (s1, out1) := Step(v, s, es[0]);
      var (s2, out2) := Run(v, s1, es[1..]);
      (s2, out1 + out2)
  }

  // ---------------------------------------------------------------------------
  // The invariant
  // ---------------------------------------------------------------------------

  lemma StepPreservesInv(v: Variant, s: System, e: Event)
    requires Inv(s)
    ensures Inv(Step(v, s, e).0)
  {
    match e
    case Respond(call, outcome) =>
      var (gw1, first) := G.OnFirstOutcome(s.gw, call, outcome);
      if first.StartRefresh? {
        var (auth1, begin) := Auth.BeginRefresh(s.auth);
        assert !begin.AwaitOther?;
      }
    case RefreshAnswered(reply) =>
    case SignIn(a, r) =>
    case SignOut =>
  }

  lemma {:induction false} RunPreservesInv(v: Variant, s: System, es: seq<Event>)
    requires Inv(s)
    ensures Inv(Run(v, s, es).0)
    decreases |es|
  {
    if es != [] {
      StepPreservesInv(v, s, es[0]);
      RunPreservesInv(v, Step(v, s, es[0]).0, es[1..]);
    }
  }

  // ---------------------------------------------------------------------------
  // At most one refresh call per episode
  // ---------------------------------------------------------------------------

  /** A step adds at most one call to the refresh endpoint, and none while a
      refresh is already running. A step that adds one starts an episode. */
  lemma StepRefreshCalls(v: Variant, s: System, e: Event)
    requires Inv(s)
    ensures Auth.CountRefreshCalls(Step(v, s, e).0.net) <= Auth.CountRefreshCalls(s.net) + 1
    ensures s.gw.isRefreshing ==> Auth.CountRefreshCalls(Step(v, s, e).0.net) == Auth.CountRefreshCalls(s.net)
    ensures Auth.CountRefreshCalls(Step(v, s, e).0.net) > Auth.CountRefreshCalls(s.net) ==>
      && !s.gw.isRefreshing
      && e.Respond? && G.Unauthorized(e.outcome)
      && Step(v, s, e).0.gw.isRefreshing
  {
    var s' := Step(v, s, e).0;
    match e
    case Respond(call, outcome) =>
      var (gw1, first) := G.OnFirstOutcome(s.gw, call, outcome);
      if first.StartRefresh? {
        var (auth1, begin) := Auth.BeginRefresh(s.auth);
        match begin
        case AwaitServer(nc) =>
          Auth.CountRefreshCallsAppend(s.net, [nc]);
        case Settled(token, calls) =>
          Auth.CountRefreshCallsAppend(s.net, calls);
          assert Auth.CountRefreshCalls(calls) == 0;
        case AwaitOther =>
      }
    case RefreshAnswered(reply) =>
      if s.gw.leader.Some? && s.auth.isTokenRefreshing {
        var (auth1, token, calls) := Auth.FinishRefresh(s.auth, reply);
        Auth.CountRefreshCallsAppend(s.net, calls);
        assert Auth.CountRefreshCalls(calls) == 0;
      }
    case SignIn(a, r) =>
    case SignOut =>
      var (auth1, calls) := Auth.Logout(s.auth);
      Auth.CountRefreshCallsAppend(s.net, calls);
      assert Auth.CountRefreshCalls(calls) == 0;
  }

  /** While the endpoint has not answered, however many calls come back with 401
      meanwhile and whoever signs in or out, the episode stays open and no
      further refresh call is made. */
  lemma {:induction false} OneRefreshPerEpisode(v: Variant, s: System, es: seq<Event>)
    requires Inv(s) && s.gw.isRefreshing
    requires forall i :: 0 <= i < |es| ==> !es[i].RefreshAnswered?
    ensures Run(v, s, es).0.gw.isRefreshing
    ensures Auth.CountRefreshCalls(Run(v, s, es).0.net) == Auth.CountRefreshCalls(s.net)
    decreases |es|
  {
    if es != [] {
      var s1 := Step(v, s, es[0]).0;
      StepRefreshCalls(v, s, es[0]);
      StepPreservesInv(v, s, es[0]);
      assert s1.gw.isRefreshing;
      OneRefreshPerEpisode(v, s1, es[1..]);
    }
  }

  /** Running two sequences of events one after the other is running their
      concatenation, and the callers observe the two outputs in order. */
  lemma {:induction false} RunAppend(v: Variant, s: System, a: seq<Event>, b: seq<Event>)
    ensures
      var (s1, o1) := Run(v, s, a);
      var (s2, o2) := Run(v, s1, b);
      Run(v, s, a + b) == (s2, o1 + o2)
    decreases |a|
  {
    if a == [] {
      assert a + b == b;
      var (w, o2) := Run(v, s, b);
      assert [] + o2 == o2;
    } else {
      assert (a + b)[0] == a[0];
      assert (a + b)[1..] == a[1..] + b;
      var (t1, p1) := Step(v, s, a[0]);
      RunAppend(v, t1, a[1..], b);
      var (u, q) := Run(v, t1, a[1..]);
      var (w, o2) := Run(v, u, b);
      assert p1 + (q + o2) == (p1 + q) + o2;
    }
  }

  /** A logout during a refresh does not end the episode: the session is
      cleared, yet when the endpoint then grants a token the session holds it
      again. */
  lemma SignOutMidEpisodeIsUndone(v: Variant, s: System, reply: Auth.RefreshReply)
    requires Inv(s) && s.gw.isRefreshing && Auth.RefreshSucceeded(reply)
    ensures
      var s1 := Step(v, s, SignOut).0;
      && s1.gw == s.gw && s1.auth.token == None && s1.auth.store == Auth.EmptyStore
      && Step(v, s1, RefreshAnswered(reply)).0.auth.token == reply.body.value.accessToken
      && Step(v, s1, RefreshAnswered(reply)).0.auth.store.access == reply.body.value.accessToken
  {
    StepPreservesInv(v, s, SignOut);
    SuccessSettles(v, Step(v, s, SignOut).0, reply);
  }

  /** A call that comes back with 401 while a refresh runs waits in the queue;
      it does not reach the refresh endpoint. */
  lemma LateUnauthorizedWaits(v: Variant, s: System, call: G.Call, resp: G.Response)
    requires Inv(s) && s.gw.isRefreshing && resp.status == 401
    ensures Step(v, s, Respond(call, G.Answered(resp))).0.gw.failedQueue == s.gw.failedQueue + [call]
    ensures Step(v, s, Respond(call, G.Answered(resp))).0.net == s.net
    ensures Step(v, s, Respond(call, G.Answered(resp))).1
         == [Sent(call, G.FirstFetch(call.request, call.snapshot)), Queued(call)]
  {
  }

  /** A call that comes back with 401 while no refresh runs leads a new episode:
      it calls the refresh endpoint once with the stored refresh token, or, when
      none is stored, settles at once as a failed refresh. */
  lemma FirstUnauthorizedLeads(v: Variant, s: System, call: G.Call, resp: G.Response)
    requires Inv(s) && !s.gw.isRefreshing && resp.status == 401
    ensures Text.Truthy(s.auth.store.refresh) ==>
      var s' := Step(v, s, Respond(call, G.Answered(resp))).0;
      && s'.gw == G.State(true, [], Some(call))
      && s'.auth.isTokenRefreshing
      && s'.net == s.net + [Auth.RefreshCall(Auth.RefreshUrl, s.auth.store.refresh.value)]
    ensures !Text.Truthy(s.auth.store.refresh) ==>
      var (s', out) := Step(v, s, Respond(call, G.Answered(resp)));
      && s'.gw == G.Idle
      && s'.auth.token == None && s'.auth.store == Auth.EmptyStore
      && out == [Sent(call, G.FirstFetch(call.request, call.snapshot)), Raised(call, G.RefreshFailed)]
  {
  }

  // ---------------------------------------------------------------------------
  // Settling an episode
  // ---------------------------------------------------------------------------

  /** A successful refresh: the session holds the new token, every waiter is
      resumed in queue order, then the leader's request is sent once more with
      the new bearer, and the episode is over. */
  lemma SuccessSettles(v: Variant, s: System, reply: Auth.RefreshReply)
    requires Inv(s) && s.gw.isRefreshing && Auth.RefreshSucceeded(reply)
    ensures
      var t := reply.body.value.accessToken.value;
      var q := s.gw.failedQueue;
      var (s', out) := Step(v, s, RefreshAnswered(reply));
      && s'.gw == G.Idle && !s'.auth.isTokenRefreshing
      && s'.auth.token == Some(t)
      && s'.net == s.net
      && |out| == |q| + 1
      && (forall i :: 0 <= i < |q| ==> out[i] == Resumed(Resume(v, q[i], t)))
      && out[|q|] == Retried(s.gw.leader.value, G.RetryFetch(s.gw.leader.value.request, t))
  {
  }

  /** A failed refresh: the session is logged out, every waiter and the leader
      are rejected with the refresh failure, nothing is retried, and the episode
      is over. */
  lemma FailureSettles(v: Variant, s: System, reply: Auth.RefreshReply)
    requires Inv(s) && s.gw.isRefreshing && !Auth.RefreshSucceeded(reply)
    ensures
      var q := s.gw.failedQueue;
      var (s', out) := Step(v, s, RefreshAnswered(reply));
      && s'.gw == G.Idle && !s'.auth.isTokenRefreshing
      && s'.auth.token == None && s'.auth.store == Auth.EmptyStore
      && |out| == |q| + 1
      && (forall i :: 0 <= i < |q| ==> out[i] == Raised(q[i], G.RefreshFailed))
      && out[|q|] == Raised(s.gw.leader.value, G.RefreshFailed)
  {
  }

  /** With the correction, a resumed waiter's next attempt carries the refreshed
      token, exactly as the leader's retry does. */
  lemma CorrectedResumeUsesNewToken(c: G.Call, t: string)
    requires t != ""
    ensures G.FirstFetch(Resume(Corrected, c, t).request, Resume(Corrected, c, t).snapshot)
         == G.RetryFetch(c.request, t)
  {
    G.RetryIsFreshAttempt(c.request, t);
  }

  // ---------------------------------------------------------------------------
  // Two concurrent calls with an expired token
  // ---------------------------------------------------------------------------

  const Expired: string := "old"
  const Fresh: string := "new"
  const Profile: G.Request := G.Get("/users/profile", G.NoOptions)
  const Groups: G.Request := G.Get("/groups/current", G.NoOptions)
  const First: G.Call := G.Call(1, Profile, Some(Expired))
  const Second: G.Call := G.Call(2, Groups, Some(Expired))
  const Denied: G.FetchOutcome := G.Answered(G.Response(401, ""))
  const Granted: Auth.RefreshReply := Auth.Reply(true, Some(Auth.RefreshBody(true, Some(Fresh), None)))
  const LoggedIn: System := System(G.Idle, Auth.Session(Some(Expired), Auth.Store(Some(Expired), Some("r1")), false), [])

  /** Both calls fail with 401, the refresh succeeds: the first call is retried
      with the new token and the second is resumed. */
  const Episode: seq<Event> := [Respond(First, Denied), Respond(Second, Denied), RefreshAnswered(Granted)]

  const RefreshR1: Auth.NetCall := Auth.RefreshCall(Auth.RefreshUrl, "r1")
  const Refreshing: System := System(G.State(true, [], Some(First)), LoggedIn.auth.(isTokenRefreshing := true), [RefreshR1])
  const Waiting: System := Refreshing.(gw := Refreshing.gw.(failedQueue := [Second]))

  lemma RunSingle(v: Variant, s: System, e: Event)
    ensures Run(v, s, [e]) == Step(v, s, e)
  {
    assert [e][1..] == [];
    var (s1, o1) := Step(v, s, e);
    assert o1 + [] == o1;
  }

  lemma RunThree(v: Variant, s: System, a: Event, b: Event, c: Event)
    ensures
      var (s1, o1) := Step(v, s, a);
      var (s2, o2) := Step(v, s1, b);
      var (s3, o3) := Step(v, s2, c);
      && Run(v, s, [a, b]) == (s2, o1 + o2)
      && Run(v, s, [a, b, c]) == (s3, o1 + o2 + o3)
  {
    var (s1, o1) := Step(v, s, a);
    var (s2, o2) := Step(v, s1, b);
    RunSingle(v, s, a);
    RunSingle(v, s1, b);
    RunSingle(v, s2, c);
    assert [a, b] == [a] + [b];
    assert [a, b, c] == [a, b] + [c];
    RunAppend(v, s, [a], [b]);
    RunAppend(v, s, [a, b], [c]);
  }

  /** The first 401 starts the episode with one refresh call. */
  lemma EpisodeOpens(v: Variant)
    ensures Step(v, LoggedIn, Respond(First, Denied)).0 == Refreshing
    ensures |Step(v, LoggedIn, Respond(First, Denied)).1| == 1
  {
    FirstUnauthorizedLeads(v, LoggedIn, First, G.Response(401, ""));
  }

  /** The second 401 joins the queue. */
  lemma SecondWaits(v: Variant)
    ensures Step(v, Refreshing, Respond(Second, Denied)).0 == Waiting
    ensures |Step(v, Refreshing, Respond(Second, Denied)).1| == 2
  {
    LateUnauthorizedWaits(v, Refreshing, Second, G.Response(401, ""));
  }

  /** The granted refresh resumes the second call, then retries the first. */
  lemma EpisodeCloses(v: Variant)
    ensures
      var (s3, out) := Step(v, Waiting, RefreshAnswered(Granted));
      && s3.gw == G.Idle
      && s3.auth.token == Some(Fresh) && s3.auth.store.refresh == Some("r1")
      && s3.net == [RefreshR1]
      && out == [Resumed(Resume(v, Second, Fresh)), Retried(First, G.RetryFetch(Profile, Fresh))]
  {
    SuccessSettles(v, Waiting, Granted);
  }

  /** Two 401s in one episode produce a single refresh call; the refresh
      succeeds and ends the episode with the new token held. */
  lemma TwoUnauthorizedOneRefresh(v: Variant)
    ensures Run(v, LoggedIn, Episode[..2]).0.net == [RefreshR1]
    ensures Run(v, LoggedIn, Episode).0.gw == G.Idle
    ensures Run(v, LoggedIn, Episode).0.auth.token == Some(Fresh)
    ensures Run(v, LoggedIn, Episode).0.net == [RefreshR1]
  {
    assert Episode[..2] == [Respond(First, Denied), Respond(Second, Denied)];
    EpisodeOpens(v);
    SecondWaits(v);
    EpisodeCloses(v);
    RunThree(v, LoggedIn, Respond(First, Denied), Respond(Second, Denied), RefreshAnswered(Granted));
  }

  /** As written, the resumed second call starts over with the token its closure
      captured, so it is sent with the expired bearer. */
  lemma AsWrittenResumeSendsExpiredToken()
    ensures |Run(AsWritten, LoggedIn, Episode).1| == 5
    ensures Run(AsWritten, LoggedIn, Episode).1[3] == Resumed(Second)
    ensures G.FirstFetch(Second.request, Second.snapshot).options.headers[G.AuthorizationKey]
         == G.Bearer(Expired)
  {
    EpisodeOpens(AsWritten);
    SecondWaits(AsWritten);
    EpisodeCloses(AsWritten);
    RunThree(AsWritten, LoggedIn, Respond(First, Denied), Respond(Second, Denied), RefreshAnswered(Granted));
  }

  /** When the server rejects that expired bearer again, the resumed call leads
      a second episode: two refresh calls for one expiry. */
  lemma AsWrittenSecondRefresh()
    ensures
      var s := Step(AsWritten, Run(AsWritten, LoggedIn, Episode).0, Respond(Second, Denied)).0;
      && s.net == [RefreshR1, RefreshR1]
      && s.gw.isRefreshing
  {
    EpisodeOpens(AsWritten);
    SecondWaits(AsWritten);
    EpisodeCloses(AsWritten);
    RunThree(AsWritten, LoggedIn, Respond(First, Denied), Respond(Second, Denied), RefreshAnswered(Granted));
    var s3 := Run(AsWritten, LoggedIn, Episode).0;
    StepPreservesInv(AsWritten, Waiting, RefreshAnswered(Granted));
    FirstUnauthorizedLeads(AsWritten, s3, Second, G.Response(401, ""));
  }

  /** With the correction the resumed second call is sent with the new bearer. */
  lemma CorrectedResumeSendsFreshToken()
    ensures |Run(Corrected, LoggedIn, Episode).1| == 5
    ensures Run(Corrected, LoggedIn, Episode).1[3] == Resumed(Second.(snapshot := Some(Fresh)))
    ensures G.FirstFetch(Second.request, Some(Fresh)).options.headers[G.AuthorizationKey] == G.Bearer(Fresh)
  {
    EpisodeOpens(Corrected);
    SecondWaits(Corrected);
    EpisodeCloses(Corrected);
    RunThree(Corrected, LoggedIn, Respond(First, Denied), Respond(Second, Denied), RefreshAnswered(Granted));
  }
}
