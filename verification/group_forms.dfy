/** The group screens: renaming a group (src/screens/EditGroupNameScreen.tsx),
    creating one (src/screens/CreateGroupScreen.tsx), and the group profile with
    its member list (src/screens/GroupProfileScreen.tsx). */
module Groups {
  import opened Wrappers
  import opened Text
  import opened Json
  import ApiConfig
  import G = Gateway

  const BlankName: string := "Názov skupiny nemôže byť prázdny"
  const RenameFailed: string := "Nepodarilo sa zmeniť názov skupiny"
  const CreateFailed: string := "Failed to create group"
  const Offline: string := "Nie ste pripojený k internetu. Skontrolujte pripojenie a skúste to znova."
  const RemoveFailed: string := "Nepodarilo sa odstrániť člena zo skupiny"

  /** `${token}` inside a template: a missing token is written as `null`. */
  function TokenText(token: Option<string>): string {
    match token
    case None => "null"
    case Some(t) => t
  }

  /** The headers these screens write by hand. */
  function Headers(token: Option<string>): G.Headers {
    map[G.AuthorizationKey := G.Bearer(TokenText(token)), G.ContentTypeKey := G.JsonType]
  }

  /** The answer to a request whose body is not read: thrown, or the `ok` flag. */
  datatype Reply = Threw(message: string) | Answered(ok: bool)

  // ---------------------------------------------------------------------------
  // EditGroupNameScreen
  // ---------------------------------------------------------------------------

  datatype SaveOutcome = WentBack | Refused(message: string) | Renamed | RenameError(message: string)

  /** `handleSave()`: the outcome and the request sent, if any. The loading flag
      is on exactly while that request is in flight. */
  function SaveName(groupId: string, currentName: string, newName: string, token: Option<string>, reply: Reply)
    : (r: (SaveOutcome, Option<G.Fetch>))
    ensures newName == currentName ==> r == (WentBack, None)
    ensures r.1.Some? <==> newName != currentName && !IsBlank(newName)
    ensures newName != currentName && IsBlank(newName) ==> r.0 == Refused(BlankName)
    ensures r.1.Some? ==>
      && r.1.value.url == ApiConfig.Url(ApiConfig.GroupsEditName(groupId))
      && r.1.value.options.verb == Some(G.PATCH)
      && r.1.value.options.body == Some(JObj([("newName", JStr(Trim(newName)))]))
      && (r.0 == Renamed <==> reply == Answered(true))
      && (r.0 != Renamed ==> r.0 == RenameError(RenameFailed))
  {
    if newName == currentName then (WentBack, None)
    else if Trim(newName) == [] then (Refused(BlankName), None)
    else
      var sent := G.Fetch(ApiConfig.Url(ApiConfig.GroupsEditName(groupId)),
                          G.Options(Some(G.PATCH), Headers(token), Some(JObj([("newName", JStr(Trim(newName)))]))));
      if reply == Answered(true) then (Renamed, Some(sent)) else (RenameError(RenameFailed), Some(sent))
  }

  /** The name sent is never blank and carries no surrounding whitespace. */
  lemma SentNameIsTrimmed(groupId: string, currentName: string, newName: string, token: Option<string>, reply: Reply)
    ensures
      var r := SaveName(groupId, currentName, newName, token, reply);
      r.1.Some? ==>
        var t := Trim(newName);
        t != [] && !IsSpace(t[0]) && !IsSpace(t[|t| - 1])
  {
  }

  /** The "unchanged" test compares the untrimmed input: the current name with
      a trailing space is sent, and the name sent is the current one. */
  lemma PaddedCurrentNameIsSent(groupId: string, token: Option<string>, reply: Reply)
    ensures
      var r := SaveName(groupId, "Team", "Team ", token, reply);
      r.1.Some? && r.1.value.options.body == Some(JObj([("newName", JStr("Team"))]))
  {
    assert LeadingSpaces("Team ") == 0;
    assert TrailingSpaces("Team ") == 1;
    assert "Team "[0..4] == "Team";
  }

  // ---------------------------------------------------------------------------
  // CreateGroupScreen
  // ---------------------------------------------------------------------------

  datatype CreateOutcome = CreateRefused(message: string) | Created | CreateError(message: string)

  /** The request body: the trimmed name, and the trimmed description only
      when it is not empty (`description.trim() || undefined`). */
  function CreateBody(name: string, description: string): (j: Json)
    ensures j.JObj? && |j.fields| >= 1 && j.fields[0] == ("name", JStr(Trim(name)))
    ensures |j.fields| == 2 <==> Trim(description) != []
    ensures |j.fields| == 2 ==> j.fields[1] == ("description", JStr(Trim(description)))
    ensures |j.fields| <= 2
  {
    JObj([("name", JStr(Trim(name)))]
         + OptionalField("description", if Trim(description) != [] then Some(JStr(Trim(description))) else None))
  }

  /** The server reads back exactly the trimmed fields, and no description when
      the one typed was blank. */
  lemma CreateBodyReadsBack(name: string, description: string)
    ensures Lookup(CreateBody(name, description).fields, "name") == Some(JStr(Trim(name)))
    ensures IsBlank(description) ==> Lookup(CreateBody(name, description).fields, "description").None?
    ensures !IsBlank(description) ==>
      Lookup(CreateBody(name, description).fields, "description") == Some(JStr(Trim(description)))
  {
    var fs := CreateBody(name, description).fields;
    if |fs| == 2 {
      assert fs[1..][0] == fs[1];
    }
  }

  /** `handleCreateGroup()`: the outcome and the request sent, if any. A
      thrown fetch reports its own message; a refused one reports the fixed one. */
  function CreateGroup(name: string, description: string, token: Option<string>, reply: Reply)
    : (r: (CreateOutcome, Option<G.Fetch>))
    ensures r.1.None? <==> IsBlank(name)
    ensures IsBlank(name) ==> r.0 == CreateRefused(BlankName)
    ensures r.1.Some? ==>
      && r.1.value == G.Fetch(ApiConfig.Url(ApiConfig.GroupsCreate), G.Options(Some(G.POST), Headers(token), Some(CreateBody(name, description))))
      && (r.0 == Created <==> reply == Answered(true))
      && (reply == Answered(false) ==> r.0 == CreateError(CreateFailed))
      && (reply.Threw? ==> r.0 == CreateError(reply.message))
  {
    if Trim(name) == [] then (CreateRefused(BlankName), None)
    else
      var sent := G.Fetch(ApiConfig.Url(ApiConfig.GroupsCreate),
                          G.Options(Some(G.POST), Headers(token), Some(CreateBody(name, description))));
      match reply
      case Answered(true) => (Created, Some(sent))
      case Answered(false) => (CreateError(CreateFailed), Some(sent))
      case Threw(m) => (CreateError(m), Some(sent))
  }

  // ---------------------------------------------------------------------------
  // GroupProfileScreen
  // ---------------------------------------------------------------------------

  datatype Member = Member(id: string, name: string, xp: nat, isOwner: bool)

  datatype Details = Details(
    id: string,
    name: string,
    description: Option<string>,
    xp: nat,
    memberCount: nat,
    isOwner: bool,
    ownerName: string,
    members: Option<seq<Member>>)

  /** The screen's state; `avatars` maps a member id to its image data URL. */
  datatype Profile = Profile(
    groupId: string,
    loading: bool,
    details: Option<Details>,
    avatars: map<string, string>,
    loadingAvatars: bool)

  function Open(groupId: string): (p: Profile)
    ensures p.loading && p.details.None? && p.avatars == map[]
  {
    Profile(groupId, true, None, map[], false)
  }

  /** The answer to `GET /groups/{id}`: thrown (network, `!ok`, not JSON), or the
      body's `success` and `data`. */
  datatype DetailReply = DetailThrew | DetailAnswer(success: bool, data: Option<Details>)

  /** `fetchGroupDetails()`: the state afterwards, the request sent, and the
      alert shown. The details are replaced only by a successful answer that
      carries data; anything else keeps what was shown. */
  function FetchDetails(p: Profile, online: bool, token: Option<string>, reply: DetailReply)
    : (r: (Profile, Option<G.Fetch>, Option<string>))
    ensures !r.0.loading
    ensures r.1.Some? <==> online
    ensures r.2.Some? <==> !online
    ensures !online ==> r.2 == Some(Offline)
    ensures r.1.Some? ==> r.1.value == G.Fetch(ApiConfig.Url(ApiConfig.GroupsDetail(p.groupId)), G.Options(Some(G.GET), Headers(token), None))
    ensures r.0.details != p.details ==> online && reply.DetailAnswer? && reply.success && reply.data.Some?
    ensures online && reply.DetailAnswer? && reply.success && reply.data.Some? ==> r.0.details == reply.data
    ensures r.0 == p.(loading := false, details := r.0.details)
  {
    if !online then (p.(loading := false), None, Some(Offline))
    else
      var sent := G.Fetch(ApiConfig.Url(ApiConfig.GroupsDetail(p.groupId)), G.Options(Some(G.GET), Headers(token), None));
      if reply.DetailAnswer? && reply.success && reply.data.Some? then
        (p.(loading := false, details := reply.data), Some(sent), None)
      else (p.(loading := false), Some(sent), None)
  }

  /** The members listed, `members ?? []`. */
  function MembersOf(d: Option<Details>): seq<Member> {
    if d.Some? && d.value.members.Some? then d.value.members.value else []
  }

  /** The ids whose avatars are requested when the details change: the first
      three members, and nobody when there are none. */
  function AvatarIds(d: Option<Details>): (ids: seq<string>)
    ensures |ids| == if |MembersOf(d)| < 3 then |MembersOf(d)| else 3
    ensures forall i :: 0 <= i < |ids| ==> ids[i] == MembersOf(d)[i].id
  {
    var ms := MembersOf(d);
    var first := if |ms| < 3 then ms else ms[..3];
    seq(|first|, i requires 0 <= i < |first| => first[i].id)
  }

  /** The avatars the requests bring back: each id whose image arrived gets its
      data URL; `image(id)` is `None` when that request failed. */
  function StoreAvatars(avatars: map<string, string>, ids: seq<string>, image: string -> Option<string>)
    : (r: map<string, string>)
    decreases |ids|
  {
    if ids == [] then avatars
    else
      var next := if image(ids[0]).Some? then avatars[ids[0] := image(ids[0]).value] else avatars;
      StoreAvatars(next, ids[1..], image)
  }

  /** The avatar map changes only at the requested ids, and each of those that
      arrived holds its image. */
  lemma {:induction false} StoreAvatarsSpec(avatars: map<string, string>, ids: seq<string>, image: string -> Option<string>)
    ensures
      var r := StoreAvatars(avatars, ids, image);
      && (forall k :: k !in ids ==> (k in r <==> k in avatars) && (k in avatars ==> r[k] == avatars[k]))
      && (forall k :: k in ids && image(k).Some? ==> k in r && r[k] == image(k).value)
      && (forall k :: k in ids && image(k).None? ==> (k in r <==> k in avatars) && (k in avatars ==> r[k] == avatars[k]))
    decreases |ids|
  {
    if ids != [] {
      var next := if image(ids[0]).Some? then avatars[ids[0] := image(ids[0]).value] else avatars;
      StoreAvatarsSpec(next, ids[1..], image);
      forall k | k in ids
        ensures k == ids[0] || k in ids[1..]
      {
        var i :| 0 <= i < |ids| && ids[i] == k;
        if i > 0 {
          assert ids[1..][i - 1] == k;
        }
      }
    }
  }

  /** `fetchMemberAvatars()` over the first members: the spinner is off again
      afterwards, and members past the third never get an avatar from it. */
  function LoadAvatars(p: Profile, image: string -> Option<string>): (r: Profile)
    ensures !r.loadingAvatars
    ensures r == p.(avatars := r.avatars, loadingAvatars := false)
  {
    p.(avatars := StoreAvatars(p.avatars, AvatarIds(p.details), image), loadingAvatars := false)
  }

  /** Only the first three members are asked for; a member further down the
      list keeps whatever avatar was there before. */
  lemma OnlyFirstThreeAvatars(p: Profile, image: string -> Option<string>, i: nat)
    requires 3 <= i < |MembersOf(p.details)|
    requires forall j :: 0 <= j < 3 ==> MembersOf(p.details)[j].id != MembersOf(p.details)[i].id
    ensures
      var k := MembersOf(p.details)[i].id;
      (k in LoadAvatars(p, image).avatars <==> k in p.avatars)
  {
    var ids := AvatarIds(p.details);
    var k := MembersOf(p.details)[i].id;
    StoreAvatarsSpec(p.avatars, ids, image);
    assert k !in ids;
  }

  /** The remove button of a row: shown to the owner, never on the owner's own row. */
  predicate ShowsRemove(d: Details, m: Member) {
    d.isOwner && !m.isOwner
  }

  datatype RemoveOutcome = NotAllowed | Cancelled | Removed | RemoveError(message: string)

  /** `removeMember(userId)`: refused unless the viewer owns the group; then,
      once confirmed, the DELETE is sent and a success reloads the details. */
  function RemoveMember(p: Profile, userId: string, confirmed: bool, token: Option<string>, reply: Reply)
    : (r: (RemoveOutcome, Option<G.Fetch>))
    ensures r.1.Some? <==> p.details.Some? && p.details.value.isOwner && confirmed
    ensures !(p.details.Some? && p.details.value.isOwner) ==> r.0 == NotAllowed
    ensures r.1.Some? ==>
      && r.1.value == G.Fetch(ApiConfig.Url(ApiConfig.GroupsRemoveMember(p.groupId, userId)), G.Options(Some(G.DELETE), Headers(token), None))
      && (r.0 == Removed <==> reply == Answered(true))
      && (r.0 != Removed ==> r.0 == RemoveError(RemoveFailed))
  {
    if !(p.details.Some? && p.details.value.isOwner) then (NotAllowed, None)
    else if !confirmed then (Cancelled, None)
    else
      var sent := G.Fetch(ApiConfig.Url(ApiConfig.GroupsRemoveMember(p.groupId, userId)), G.Options(Some(G.DELETE), Headers(token), None));
      if reply == Answered(true) then (Removed, Some(sent)) else (RemoveError(RemoveFailed), Some(sent))
  }

  /** Every row whose button is shown can be removed; the owner's row has no
      button, and a viewer who is not the owner sends nothing. */
  lemma RemoveButtonAgreesWithGuard(p: Profile, m: Member, token: Option<string>, reply: Reply)
    requires p.details.Some?
    ensures ShowsRemove(p.details.value, m) ==> RemoveMember(p, m.id, true, token, reply).1.Some?
    ensures m.isOwner ==> !ShowsRemove(p.details.value, m)
    ensures !p.details.value.isOwner ==> RemoveMember(p, m.id, true, token, reply) == (NotAllowed, None)
  {
  }

  /** Where the chat and settings buttons go: nowhere before the details arrive. */
  datatype Destination = GroupChat(groupId: string, groupName: string, members: Option<seq<Member>>)
                       | GroupSettings(groupId: string, groupName: string, isOwner: bool)

  function OpenChat(p: Profile): (r: Option<Destination>)
    ensures r.Some? <==> p.details.Some?
    ensures r.Some? ==> r.value == GroupChat(p.groupId, p.details.value.name, p.details.value.members)
  {
    if p.details.None? then None else Some(GroupChat(p.groupId, p.details.value.name, p.details.value.members))
  }

  function OpenSettings(p: Profile): (r: Option<Destination>)
    ensures r.Some? <==> p.details.Some?
    ensures r.Some? ==> r.value == GroupSettings(p.groupId, p.details.value.name, p.details.value.isOwner)
  {
    if p.details.None? then None else Some(GroupSettings(p.groupId, p.details.value.name, p.details.value.isOwner))
  }
}
