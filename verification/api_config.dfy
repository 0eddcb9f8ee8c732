/** The server address and the endpoint URL builders of the client
    (src/config/apiConfig.tsx). */
module ApiConfig {
  import opened Text

  /** Everything of the one server address after its scheme. */
  const Authority: string := "://10.10.10.168:3000"

  /** `http://10.10.10.168:3000`. */
  const ApiUrl: string := "http" + Authority

  datatype Platform = Android | Ios | OtherPlatform

  /** `Platform.select({android, ios, default})`: every branch names the same
      address, so the base URL does not depend on the platform. */
  function BaseUrlFor(p: Platform): (r: string)
    ensures r == ApiUrl
    ensures StartsWith(r, "http")
  {
    match p
    case Android => ApiUrl
    case Ios => ApiUrl
    case OtherPlatform => ApiUrl
  }

  const BaseUrl: string := BaseUrlFor(OtherPlatform)

  /** The address is the `http` scheme followed by the authority. */
  lemma BaseUrlSplits()
    ensures StartsWith(BaseUrl, "http") && BaseUrl[4..] == Authority
  {
    assert BaseUrl[..4] == "http";
  }

  /** Every entry of `API_ENDPOINTS`; the parameterised builders carry the ids
      they are called with. */
  datatype Endpoint =
    | AchievementsAll | AchievementsDetail(id: string) | AchievementsUser(userId: string)
    | FriendsAll | FriendsAdd(userId: string) | FriendsRemove(userId: string) | FriendsSearch
    | GroupsCreate | GroupsAll | GroupsDetail(id: string) | GroupsDelete(id: string)
    | GroupsMembers(id: string) | GroupsJoin(id: string) | GroupsEditName(id: string)
    | GroupsEditDescription(id: string) | GroupsRemoveMember(groupId: string, userId: string)
    | GroupsSearch | GroupsCurrent | GroupsLeave
    | NotificationsAll | NotificationsMarkRead(id: string) | NotificationsMarkAllRead
    | NotificationsDelete(id: string)
    | TestsGetTests | TestsGetQuestions | TestsGetAnswers | TestsSubmitAnswers
    | TestsGetSubjects | TestsSaveResults
    | AvatarsUpload | AvatarsOwn | AvatarsDelete | AvatarsUser(userId: string)
    | UsersRegister | UsersLogin | UsersEditName | UsersEditPassword | UsersDelete
    | UsersProfile | UsersLogout | UsersProfileById(userId: string) | UsersMe
    | ChatsAll | ChatsGroup(groupId: string) | ChatsSend

  /** A template literal that puts one id between fixed text. */
  function Wrap(before: string, id: string, after: string): string {
    before + id + after
  }

  /** The part of an endpoint's URL after the base address. */
  function Path(e: Endpoint): string {
    match e
    case AchievementsAll => "/achievements"
    case AchievementsDetail(id) => Wrap("/achievements/detail/", id, "")
    case AchievementsUser(u) => Wrap("/achievements/user/", u, "")
    case FriendsAll => "/friends"
    case FriendsAdd(u) => Wrap("/friends/", u, "")
    case FriendsRemove(u) => Wrap("/friends/", u, "")
    case FriendsSearch => "/friends/search"
    case GroupsCreate => "/groups"
    case GroupsAll => "/groups"
    case GroupsDetail(id) => Wrap("/groups/", id, "")
    case GroupsDelete(id) => Wrap("/groups/", id, "")
    case GroupsMembers(id) => Wrap("/groups/", id, "/members")
    case GroupsJoin(id) => Wrap("/groups/", id, "/member")
    case GroupsEditName(id) => Wrap("/groups/", id, "/edit-name")
    case GroupsEditDescription(id) => Wrap("/groups/", id, "/edit-description")
    case GroupsRemoveMember(g, u) => "/groups/" + g + "/member/" + u
    case GroupsSearch => "/groups/search"
    case GroupsCurrent => "/groups/current"
    case GroupsLeave => "/groups/leave"
    case NotificationsAll => "/notifications"
    case NotificationsMarkRead(id) => Wrap("/notifications/read/", id, "")
    case NotificationsMarkAllRead => "/notifications/read-all"
    case NotificationsDelete(id) => Wrap("/notifications/", id, "")
    case TestsGetTests => "/tests/test"
    case TestsGetQuestions => "/tests/questions"
    case TestsGetAnswers => "/tests/answers"
    case TestsSubmitAnswers => "/tests/check-answers"
    case TestsGetSubjects => "/tests/subjects"
    case TestsSaveResults => "/tests/results"
    case AvatarsUpload => "/users/avatar"
    case AvatarsOwn => "/users/avatar"
    case AvatarsDelete => "/users/avatar"
    case AvatarsUser(u) => Wrap("/users/avatar/", u, "")
    case UsersRegister => "/users/register/"
    case UsersLogin => "/users/login/"
    case UsersEditName => "/users/edit-name"
    case UsersEditPassword => "/users/edit-password"
    case UsersDelete => "/users"
    case UsersProfile => "/users/profile"
    case UsersLogout => "/users/logout"
    case UsersProfileById(u) => Wrap("/users/", u, "")
    case UsersMe => "/users/me"
    case ChatsAll => "/chats"
    case ChatsGroup(g) => Wrap("/chats/group/", g, "")
    case ChatsSend => "/chats/message"
  }

  /** The full URL of an endpoint: the base address followed by its path. */
  function Url(e: Endpoint): (r: string)
    ensures StartsWith(r, BaseUrl)
    ensures StartsWith(r, "http")
    ensures r[|BaseUrl|..] == Path(e)
  {
    var r := BaseUrl + Path(e);
    assert r[..|BaseUrl|] == BaseUrl;
    assert r[..4] == BaseUrl[..4];
    r
  }

  /** Endpoints that differ only in the HTTP method they are used with share a URL. */
  lemma SharedUrls(id: string)
    ensures Url(FriendsAdd(id)) == Url(FriendsRemove(id))
    ensures Url(GroupsDetail(id)) == Url(GroupsDelete(id))
    ensures Url(GroupsCreate) == Url(GroupsAll)
    ensures Url(AvatarsUpload) == Url(AvatarsOwn) == Url(AvatarsDelete)
  {
    SamePathSameUrl(FriendsAdd(id), FriendsRemove(id));
    SamePathSameUrl(GroupsDetail(id), GroupsDelete(id));
    SamePathSameUrl(GroupsCreate, GroupsAll);
    SamePathSameUrl(AvatarsUpload, AvatarsOwn);
    SamePathSameUrl(AvatarsOwn, AvatarsDelete);
  }

  lemma SamePathSameUrl(a: Endpoint, b: Endpoint)
    requires Path(a) == Path(b)
    ensures Url(a) == Url(b)
  {
  }

  /** Removing a member addresses the join URL of the group extended by the user id. */
  lemma RemoveMemberExtendsJoin(groupId: string, userId: string)
    ensures Url(GroupsRemoveMember(groupId, userId)) == Url(GroupsJoin(groupId)) + "/" + userId
  {
    assert Path(GroupsRemoveMember(groupId, userId)) == Path(GroupsJoin(groupId)) + "/" + userId;
  }

  lemma PrefixCancel(p: string, a: string, b: string)
    requires p + a == p + b
    ensures a == b
  {
    assert a == (p + a)[|p|..];
    assert b == (p + b)[|p|..];
  }

  lemma SuffixCancel(a: string, b: string, q: string)
    requires a + q == b + q
    ensures a == b
  {
    assert a == (a + q)[..|a + q| - |q|];
    assert b == (b + q)[..|b + q| - |q|];
  }

  lemma InfixCancel(pre: string, post: string, a: string, b: string)
    requires pre + a + post == pre + b + post
    ensures a == b
  {
    assert pre + a + post == pre + (a + post);
    assert pre + b + post == pre + (b + post);
    PrefixCancel(pre, a + post, b + post);
    SuffixCancel(a, b, post);
  }

  /** Two endpoints with the same URL have the same path. */
  lemma SameUrlSamePath(e1: Endpoint, e2: Endpoint)
    requires Url(e1) == Url(e2)
    ensures Path(e1) == Path(e2)
  {
    PrefixCancel(BaseUrl, Path(e1), Path(e2));
  }

  /** The builders that take exactly one id. */
  datatype IdBuilder =
    | AchievementsDetailOf | AchievementsUserOf | FriendsAddOf | FriendsRemoveOf
    | GroupsDetailOf | GroupsDeleteOf | GroupsMembersOf | GroupsJoinOf | GroupsEditNameOf
    | GroupsEditDescriptionOf | NotificationsMarkReadOf | NotificationsDeleteOf
    | AvatarsUserOf | UsersProfileByIdOf | ChatsGroupOf

  function Build(k: IdBuilder, id: string): Endpoint {
    match k
    case AchievementsDetailOf => AchievementsDetail(id)
    case AchievementsUserOf => AchievementsUser(id)
    case FriendsAddOf => FriendsAdd(id)
    case FriendsRemoveOf => FriendsRemove(id)
    case GroupsDetailOf => GroupsDetail(id)
    case GroupsDeleteOf => GroupsDelete(id)
    case GroupsMembersOf => GroupsMembers(id)
    case GroupsJoinOf => GroupsJoin(id)
    case GroupsEditNameOf => GroupsEditName(id)
    case GroupsEditDescriptionOf => GroupsEditDescription(id)
    case NotificationsMarkReadOf => NotificationsMarkRead(id)
    case NotificationsDeleteOf => NotificationsDelete(id)
    case AvatarsUserOf => AvatarsUser(id)
    case UsersProfileByIdOf => UsersProfileById(id)
    case ChatsGroupOf => ChatsGroup(id)
  }

  /** The fixed text a single-id builder puts before and after the id. */
  function Around(k: IdBuilder): (string, string) {
    match k
    case AchievementsDetailOf => ("/achievements/detail/", "")
    case AchievementsUserOf => ("/achievements/user/", "")
    case FriendsAddOf => ("/friends/", "")
    case FriendsRemoveOf => ("/friends/", "")
    case GroupsDetailOf => ("/groups/", "")
    case GroupsDeleteOf => ("/groups/", "")
    case GroupsMembersOf => ("/groups/", "/members")
    case GroupsJoinOf => ("/groups/", "/member")
    case GroupsEditNameOf => ("/groups/", "/edit-name")
    case GroupsEditDescriptionOf => ("/groups/", "/edit-description")
    case NotificationsMarkReadOf => ("/notifications/read/", "")
    case NotificationsDeleteOf => ("/notifications/", "")
    case AvatarsUserOf => ("/users/avatar/", "")
    case UsersProfileByIdOf => ("/users/", "")
    case ChatsGroupOf => ("/chats/group/", "")
  }

  /** A single-id builder inserts its id verbatim between fixed text. */
  lemma BuildPath(k: IdBuilder, id: string)
    ensures Path(Build(k, id)) == Wrap(Around(k).0, id, Around(k).1)
  {
  }


  /** Every single-id builder appends its id verbatim, so two ids yield the same
      URL only when they are equal. */
  lemma IdBuildersInjective(k: IdBuilder, a: string, b: string)
    requires Url(Build(k, a)) == Url(Build(k, b))
    ensures a == b
  {
    SameUrlSamePath(Build(k, a), Build(k, b));
    BuildPath(k, a);
    BuildPath(k, b);
    InfixCancel(Around(k).0, Around(k).1, a, b);
  }
}
