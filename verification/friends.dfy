/** The friends and groups screen (src/screens/FriendsScreen.tsx): the debounced
    user search, the friend list and its add and remove actions, and the group
    tab's search and join. Every request is a plain `fetch` with the in-memory
    token; the network state `isConnected` is an input. */
module Friends {
  import opened Wrappers
  import ApiConfig
  import Lists
  import Text

  datatype User = User(id: string, name: string, isFriend: Option<bool>)
  datatype Group = Group(id: string, name: string, membersCount: int)

  /** The requests the screen makes. Search queries are percent-encoded before
      they go into the URL; the model keeps the query itself. */
  datatype Call =
    | FetchFriends
    | SearchUsers(name: string)
    | AddFriend(userId: string)
    | RemoveFriend(userId: string)
    | CurrentGroup
    | SearchGroups(name: string)
    | JoinGroup(groupId: string)

  function CallUrl(c: Call): string {
    match c
    case FetchFriends => ApiConfig.Url(ApiConfig.FriendsAll)
    case SearchUsers(q) => ApiConfig.Url(ApiConfig.FriendsSearch) + "?name=" + q
    case AddFriend(u) => ApiConfig.Url(ApiConfig.FriendsAdd(u))
    case RemoveFriend(u) => ApiConfig.Url(ApiConfig.FriendsRemove(u))
    case CurrentGroup => ApiConfig.Url(ApiConfig.GroupsCurrent)
    case SearchGroups(q) => ApiConfig.Url(ApiConfig.GroupsSearch) + "?name=" + q
    case JoinGroup(g) => ApiConfig.Url(ApiConfig.GroupsJoin(g))
  }

  /** A search is sent only for at least this many characters, counted as
      `query.length` counts them: in UTF-16 code units. */
  const MinQuery: nat := 2

  // ---------------------------------------------------------------------------
  // The user search
  // ---------------------------------------------------------------------------

  datatype Tab = FriendsTab | GroupTab

  /** The screen's own state: the tab, the query, the search waiting on its
      500 ms timer, the user results, and the friend list. */
  datatype Screen = Screen(
    tab: Tab,
    query: string,
    pending: Option<string>,
    results: seq<User>,
    searching: bool,
    friends: seq<User>)

  /** `handleSearch(text)`: the old timer is cancelled; two or more characters
      start a new one, anything shorter clears the results at once. */
  function Type(s: Screen, text: string): (s': Screen)
    ensures s'.query == text && s'.tab == s.tab && s'.friends == s.friends
    ensures s'.pending.Some? <==> Text.JsLength(text) >= MinQuery
    ensures s'.pending.Some? ==> s'.pending.value == text && s'.results == s.results
    ensures s'.pending.None? ==> s'.results == []
  {
    if Text.JsLength(text) >= MinQuery then s.(query := text, pending := Some(text))
    else s.(query := text, pending := None, results := [])
  }

  /** Pressing a tab button: a different tab clears the query, the results and
      the waiting search; the same tab changes nothing. */
  function SwitchTab(s: Screen, tab: Tab): (s': Screen)
    ensures tab != s.tab ==> s'.tab == tab && s'.query == "" && s'.results == [] && s'.pending.None?
    ensures tab == s.tab ==> s' == s
    ensures s'.friends == s.friends
  {
    if tab == s.tab then s
    else s.(tab := tab, query := "", results := [], pending := None)
  }

  /** The answer to a list request: thrown (network or `!ok`), or the body's
      `data` when it is an array. */
  datatype ListReply<T> = ListFailed | ListData(data: Option<seq<T>>)

  /** What a list request leaves on screen: the array, or nothing. */
  function ListOrEmpty<T>(reply: ListReply<T>): seq<T> {
    if reply.ListData? && reply.data.Some? then reply.data.value else []
  }

  /** The timer fires: `searchUsers(query)`. Offline clears the results without
      a request; a failure of any kind also clears them. */
  function SearchFires(s: Screen, online: bool, reply: ListReply<User>): (r: (Screen, seq<Call>))
    ensures s.pending.None? ==> r == (s, [])
    ensures s.pending.Some? ==> r.0.pending.None? && !r.0.searching && r.0.query == s.query
    ensures s.pending.Some? ==> (r.1 != [] <==> online && Text.JsLength(s.pending.value) >= MinQuery)
    ensures r.1 != [] ==> r.1 == [SearchUsers(s.pending.value)] && r.0.results == ListOrEmpty(reply)
    ensures s.pending.Some? && !online ==> r.0.results == []
  {
    match s.pending
    case None => (s, [])
    case Some(q) =>
      var fired := s.(pending := None, searching := false);
      if !online then (fired.(results := []), [])
      else if Text.JsLength(q) < MinQuery then (fired, [])
      else (fired.(results := ListOrEmpty(reply)), [SearchUsers(q)])
  }

  /** Only queries of two or more characters ever reach the server. */
  lemma ShortQueriesNeverSearch(s: Screen, text: string, online: bool, reply: ListReply<User>)
    requires Text.JsLength(text) < MinQuery
    ensures SearchFires(Type(s, text), online, reply).1 == []
    ensures Type(s, text).results == []
  {
  }

  /** A single emoji is one character but two code units, so it is searched. */
  lemma OneEmojiIsSearched(s: Screen, reply: ListReply<User>)
    ensures Type(s, "\U{1F600}").pending == Some("\U{1F600}")
    ensures SearchFires(Type(s, "\U{1F600}"), true, reply).1 == [SearchUsers("\U{1F600}")]
  {
    Text.AstralCharCountsTwice();
  }

  // ---------------------------------------------------------------------------
  // Friends
  // ---------------------------------------------------------------------------

  /** `fetchFriends()`: offline or on failure the list is emptied. */
  function LoadFriends(s: Screen, online: bool, reply: ListReply<User>): (r: (Screen, seq<Call>))
    ensures r.1 == if online then [FetchFriends] else []
    ensures r.0 == s.(friends := if online then ListOrEmpty(reply) else [])
  {
    if !online then (s.(friends := []), [])
    else (s.(friends := ListOrEmpty(reply)), [FetchFriends])
  }

  /** The position of the first user with `id`, or `|users|` when there is none. */
  function FirstIndex(users: seq<User>, id: string): (k: nat)
    ensures k <= |users|
    ensures forall j :: 0 <= j < k ==> users[j].id != id
    ensures k < |users| ==> users[k].id == id
  {
    if users == [] then 0
    else if users[0].id == id then 0
    else 1 + FirstIndex(users[1..], id)
  }

  /** The first search result with `id` (`Array.find`). */
  function FindUser(users: seq<User>, id: string): (r: Option<User>)
    ensures r.None? <==> forall i :: 0 <= i < |users| ==> users[i].id != id
    ensures r.Some? ==>
      exists k :: 0 <= k < |users| && users[k] == r.value && r.value.id == id && forall j :: 0 <= j < k ==> users[j].id != id
  {
    var k := FirstIndex(users, id);
    if k < |users| then Some(users[k]) else None
  }

  predicate InList(users: seq<User>, id: string) {
    exists i :: 0 <= i < |users| && users[i].id == id
  }

  /** `isFriend(id)`: in the friend list, or the first search result with that
      id says so. */
  predicate IsFriend(s: Screen, id: string) {
    InList(s.friends, id) || (FindUser(s.results, id).Some? && FindUser(s.results, id).value.isFriend == Some(true))
  }

  /** The `map` after adding: the results with `id` are flagged as friends. */
  function FlagFriend(users: seq<User>, id: string): (r: seq<User>)
    ensures |r| == |users|
    ensures forall i :: 0 <= i < |users| ==>
      r[i] == if users[i].id == id then users[i].(isFriend := Some(true)) else users[i]
  {
    if users == [] then [] else
      [if users[0].id == id then users[0].(isFriend := Some(true)) else users[0]] + FlagFriend(users[1..], id)
  }

  /** `handleAddFriend(id)`: nothing offline; after an accepted POST the friend
      list is reloaded and the matching search results are flagged. */
  function Add(s: Screen, online: bool, id: string, accepted: bool, reload: ListReply<User>): (r: (Screen, seq<Call>))
    ensures !online ==> r == (s, [])
    ensures online ==> |r.1| >= 1 && r.1[0] == AddFriend(id)
    ensures online && !accepted ==> r == (s, [AddFriend(id)])
    ensures online && accepted ==>
      && r.1 == [AddFriend(id), FetchFriends]
      && r.0.friends == ListOrEmpty(reload)
      && r.0.results == FlagFriend(s.results, id)
  {
    if !online then (s, [])
    else if !accepted then (s, [AddFriend(id)])
    else
      var (loaded, calls) := LoadFriends(s, true, reload);
      (loaded.(results := FlagFriend(s.results, id)), [AddFriend(id)] + calls)
  }

  /** After a successful add the user counts as a friend whatever the reload
      returned, as long as the user was among the search results. */
  lemma AddedUserIsFriend(s: Screen, id: string, reload: ListReply<User>)
    requires InList(s.results, id)
    ensures IsFriend(Add(s, true, id, true, reload).0, id)
  {
    var s' := Add(s, true, id, true, reload).0;
    var f := FindUser(s'.results, id);
    var k :| 0 <= k < |s'.results| && s'.results[k] == f.value && f.value.id == id;
    assert s'.results[k] == s.results[k].(isFriend := Some(true));
  }

  /** `friends.filter(f => f.id !== id)`. */
  function Unfriend(users: seq<User>, id: string): (r: seq<User>)
    ensures |r| <= |users|
    ensures forall u :: u in r <==> u in users && u.id != id
    ensures !InList(users, id) ==> r == users
  {
    Lists.Filter(users, (u: User) => u.id != id)
  }

  /** `handleRemoveFriend(id)` after the confirmation dialog: nothing offline or
      when cancelled; the friend leaves the list only when the DELETE is `ok`. */
  function Remove(s: Screen, online: bool, id: string, confirmed: bool, ok: bool): (r: (Screen, seq<Call>))
    ensures !(online && confirmed) ==> r == (s, [])
    ensures online && confirmed ==> r.1 == [RemoveFriend(id)]
    ensures r.0.results == s.results
    ensures r.0.friends == if online && confirmed && ok then Unfriend(s.friends, id) else s.friends
  {
    if !(online && confirmed) then (s, [])
    else if !ok then (s, [RemoveFriend(id)])
    else (s.(friends := Unfriend(s.friends, id)), [RemoveFriend(id)])
  }

  /** Removing a friend leaves the search results as they were, so a result the
      server flagged as a friend still reads as one afterwards. */
  lemma RemovedFriendStillFlagged(s: Screen, id: string)
    requires FindUser(s.results, id).Some? && FindUser(s.results, id).value.isFriend == Some(true)
    ensures IsFriend(Remove(s, true, id, true, true).0, id)
    ensures !InList(Remove(s, true, id, true, true).0.friends, id)
  {
  }

  // ---------------------------------------------------------------------------
  // Groups
  // ---------------------------------------------------------------------------

  /** The noun after a member count: 1 člen, 2–4 členovia, otherwise členov. */
  function MemberNoun(n: int): (w: string)
    ensures w == "člen" <==> n == 1
    ensures w == "členovia" <==> 2 <= n <= 4
    ensures w == "členov" <==> n <= 0 || n >= 5
  {
    if n == 1 then "člen" else if n > 1 && n < 5 then "členovia" else "členov"
  }

  /** The group tab: the user's own group, the search results, and the flags. */
  datatype GroupsTab = GroupsTab(myGroup: Option<Group>, results: seq<Group>, loading: bool, searching: bool)

  /** The answer to `GET /groups/current`: thrown, or a status with the parsed
      body (`None` when it is not JSON) and its `data` (`None` when missing or
      falsy). */
  datatype CurrentReply = CurrentThrew | CurrentAnswer(status: int, body: Option<Option<Group>>)

  /** `fetchCurrentGroup()`: offline keeps the last known group; 404 means no
      group; a failure or a body that is not JSON keeps it too. */
  function LoadCurrent(g: GroupsTab, online: bool, reply: CurrentReply): (r: (GroupsTab, seq<Call>))
    ensures !r.0.loading && r.0.results == g.results
    ensures r.1 == if online then [CurrentGroup] else []
    ensures r.0.myGroup != g.myGroup ==>
      online && reply.CurrentAnswer? && (reply.status == 404 || (200 <= reply.status < 300 && reply.body.Some?))
    ensures online && reply.CurrentAnswer? && reply.status == 404 ==> r.0.myGroup.None?
    ensures online && reply.CurrentAnswer? && 200 <= reply.status < 300 && reply.body.Some? ==>
      r.0.myGroup == reply.body.value
  {
    var done := g.(loading := false);
    if !online then (done, [])
    else
      var calls := [CurrentGroup];
      match reply
      case CurrentThrew => (done, calls)
      case CurrentAnswer(status, body) =>
        if status == 404 then (done.(myGroup := None), calls)
        else if !(200 <= status < 300) then (done, calls)
        else if body.None? then (done, calls)
        else (done.(myGroup := body.value), calls)
  }

  /** `groups.filter(group => group.id !== id)`. */
  function DropGroup(groups: seq<Group>, id: string): (r: seq<Group>)
    ensures |r| <= |groups|
    ensures forall x :: x in r <==> x in groups && x.id != id
    ensures (forall i :: 0 <= i < |groups| ==> groups[i].id != id) ==> r == groups
  {
    Lists.Filter(groups, (g: Group) => g.id != id)
  }

  /** The answer to a group search: thrown or `!ok`, or an `ok` body's `data`. */
  datatype GroupSearchReply = GroupSearchFailed | GroupSearchData(data: Option<seq<Group>>)

  /** `searchGroups(query)`. The two-character minimum applies only to a user
      who already has a group; a failure keeps the previous results. */
  function SearchGroupsFor(g: GroupsTab, online: bool, query: string, reply: GroupSearchReply): (r: (GroupsTab, seq<Call>))
    ensures r.1 == [] || r.1 == [SearchGroups(query)]
    ensures r.1 != [] <==> online && (g.myGroup.None? || Text.JsLength(query) >= MinQuery)
    ensures r.0.myGroup == g.myGroup
    ensures r.1 != [] ==> !r.0.searching
    ensures r.1 != [] && reply.GroupSearchData? && g.myGroup.Some? ==>
      forall x :: x in r.0.results ==> x.id != g.myGroup.value.id
    ensures r.1 != [] && reply.GroupSearchData? ==>
      forall x :: x in r.0.results <==>
        x in reply.data.GetOr([]) && (g.myGroup.None? || x.id != g.myGroup.value.id)
    ensures r.1 != [] && reply.GroupSearchData? && g.myGroup.None? ==> r.0.results == reply.data.GetOr([])
    ensures !(r.1 != [] && reply.GroupSearchData?) ==> r.0.results == g.results
  {
    if !online then (g, [])
    else if g.myGroup.Some? && Text.JsLength(query) < MinQuery then (g, [])
    else
      var done := g.(searching := false);
      var calls := [SearchGroups(query)];
      match reply
      case GroupSearchFailed => (done, calls)
      case GroupSearchData(data) =>
        var groups := data.GetOr([]);
        var shown := if g.myGroup.Some? then DropGroup(groups, g.myGroup.value.id) else groups;
        (done.(results := shown), calls)
  }

  /** The search effect of the group tab: two or more characters search,
      anything shorter clears the results. */
  function QueryChanged(g: GroupsTab, online: bool, query: string, reply: GroupSearchReply): (r: (GroupsTab, seq<Call>))
    ensures Text.JsLength(query) < MinQuery ==> r == (g.(results := []), [])
    ensures Text.JsLength(query) >= MinQuery ==> r == SearchGroupsFor(g, online, query, reply)
  {
    if Text.JsLength(query) >= MinQuery then SearchGroupsFor(g, online, query, reply)
    else (g.(results := []), [])
  }

  datatype JoinOutcome = RefusedOffline | RefusedMember | JoinFailed | Joined

  /** The answer to the search a join reruns: thrown (network, or an `ok` body
      that is not JSON), refused (`!ok`, which the join only skips), or an `ok`
      body's `data` when it is an array. */
  datatype RerunReply = RerunThrew | RerunRefused | RerunData(data: Option<seq<Group>>)

  /** `handleJoinGroup(groupId)`: refused offline or for a member of a group;
      after an accepted POST the own group is reloaded and the search is rerun
      with the joined group left out. Only a thrown request reaches the error
      alert; a refused rerun keeps the results and still reports success. */
  function Join(g: GroupsTab, online: bool, groupId: string, query: string, accepted: bool,
                current: CurrentReply, search: RerunReply): (r: (GroupsTab, seq<Call>, JoinOutcome))
    ensures r.2 == RefusedOffline <==> !online
    ensures r.2 == RefusedMember <==> online && g.myGroup.Some?
    ensures r.2 in {RefusedOffline, RefusedMember} ==> r.0 == g && r.1 == []
    ensures r.2 !in {RefusedOffline, RefusedMember} ==> |r.1| >= 1 && r.1[0] == JoinGroup(groupId)
    ensures r.2 == Joined <==> online && g.myGroup.None? && accepted && !search.RerunThrew?
    ensures r.2 == JoinFailed <==> online && g.myGroup.None? && (!accepted || search.RerunThrew?)
    ensures online && g.myGroup.None? && accepted ==>
      && r.1 == [JoinGroup(groupId), CurrentGroup, SearchGroups(query)]
      && r.0.myGroup == LoadCurrent(g, true, current).0.myGroup
    ensures r.2 == Joined && search.RerunData? && search.data.Some? ==>
      forall x :: x in r.0.results <==> x in search.data.value && x.id != groupId
    ensures !(r.2 == Joined && search.RerunData? && search.data.Some?) ==> r.0.results == g.results
  {
    if !online then (g, [], RefusedOffline)
    else if g.myGroup.Some? then (g, [], RefusedMember)
    else if !accepted then (g, [JoinGroup(groupId)], JoinFailed)
    else
      var (g1, calls) := LoadCurrent(g, true, current);
      var sent := [JoinGroup(groupId)] + calls + [SearchGroups(query)];
      match search
      case RerunThrew => (g1, sent, JoinFailed)
      case RerunRefused => (g1, sent, Joined)
      case RerunData(data) =>
        var g2 := if data.Some? then g1.(results := DropGroup(data.value, groupId)) else g1;
        (g2, sent, Joined)
  }

  /** A user who is in a group never sends a join request. */
  lemma MembersNeverJoin(g: GroupsTab, online: bool, groupId: string, query: string, accepted: bool,
                         current: CurrentReply, search: RerunReply)
    requires g.myGroup.Some?
    ensures Join(g, online, groupId, query, accepted, current, search).1 == []
  {
  }
}
