/** The notification list and its unread counter (src/screens/MessagesScreen.tsx).
    Every request is a plain `fetch` carrying the in-memory token; a change is
    applied locally only when the answer is `ok` with `success`. */
module Notifications {
  import opened Wrappers
  import opened Text
  import ApiConfig
  import Lists
  import G = Gateway

  datatype Notification = Notification(id: string, message: string, createdAt: string, isRead: bool)

  datatype Inbox = Inbox(items: seq<Notification>, unread: int, loading: bool, refreshing: bool)

  /** The screen before the first load. */
  const Initial: Inbox := Inbox([], 0, true, false)

  // ---------------------------------------------------------------------------
  // Counting
  // ---------------------------------------------------------------------------

  /** The number of unread items. */
  function UnreadIn(items: seq<Notification>): (n: nat)
    ensures n <= |items|
  {
    if items == [] then 0 else (if items[0].isRead then 0 else 1) + UnreadIn(items[1..])
  }

  /** The number of unread items carrying `id`. */
  function UnreadWithId(items: seq<Notification>, id: string): (n: nat)
    ensures n <= UnreadIn(items)
  {
    if items == [] then 0
    else (if items[0].id == id && !items[0].isRead then 1 else 0) + UnreadWithId(items[1..], id)
  }

  predicate UniqueIds(items: seq<Notification>) {
    forall i, j :: 0 <= i < j < |items| ==> items[i].id != items[j].id
  }

  /** The counter the screen shows agrees with the list. */
  predicate Consistent(b: Inbox) {
    b.unread == UnreadIn(b.items)
  }

  /** With unique ids, the unread items carrying the id of `items[k]` are that
      item alone, if it is unread. */
  lemma {:induction false} UnreadWithUniqueId(items: seq<Notification>, k: nat)
    requires UniqueIds(items) && k < |items|
    ensures UnreadWithId(items, items[k].id) == if items[k].isRead then 0 else 1
  {
    var id := items[k].id;
    if k == 0 {
      NoneWithId(items[1..], id);
    } else {
      assert items[0].id != id;
      UnreadWithUniqueId(items[1..], k - 1);
    }
  }

  lemma {:induction false} NoneWithId(items: seq<Notification>, id: string)
    requires forall i :: 0 <= i < |items| ==> items[i].id != id
    ensures UnreadWithId(items, id) == 0
  {
    if items != [] {
      NoneWithId(items[1..], id);
    }
  }

  // ---------------------------------------------------------------------------
  // List updates
  // ---------------------------------------------------------------------------

  /** The `map` of `markAsRead`: every item with `id` becomes read. */
  function MarkOne(items: seq<Notification>, id: string): (r: seq<Notification>)
    ensures |r| == |items|
    ensures forall i :: 0 <= i < |items| ==>
      r[i] == if items[i].id == id then items[i].(isRead := true) else items[i]
  {
    if items == [] then []
    else [if items[0].id == id then items[0].(isRead := true) else items[0]] + MarkOne(items[1..], id)
  }

  /** The `map` of `markAllAsRead`. */
  function MarkEvery(items: seq<Notification>): (r: seq<Notification>)
    ensures |r| == |items|
    ensures forall i :: 0 <= i < |items| ==> r[i] == items[i].(isRead := true)
  {
    if items == [] then [] else [items[0].(isRead := true)] + MarkEvery(items[1..])
  }

  /** The `filter` of `deleteNotification`: drops every item with `id`. */
  function Without(items: seq<Notification>, id: string): (r: seq<Notification>)
    ensures |r| <= |items|
    ensures forall x :: x in r <==> x in items && x.id != id
    ensures (forall i :: 0 <= i < |items| ==> items[i].id != id) ==> r == items
  {
    Lists.Filter(items, (n: Notification) => n.id != id)
  }

  /** `notifications.find(n => n.id === id)`. */
  function Find(items: seq<Notification>, id: string): (r: Option<Notification>)
    ensures r.None? <==> forall i :: 0 <= i < |items| ==> items[i].id != id
    ensures r.Some? ==>
      exists i :: 0 <= i < |items| && items[i] == r.value && r.value.id == id && forall j :: 0 <= j < i ==> items[j].id != id
  {
    if items == [] then None
    else if items[0].id == id then Some(items[0])
    else
      var r := Find(items[1..], id);
      assert forall i :: 1 <= i < |items| ==> items[i] == items[1..][i - 1];
      r
  }

  /** Marking drops the unread count by the unread items that carried the id. */
  lemma {:induction false} UnreadAfterMarkOne(items: seq<Notification>, id: string)
    ensures UnreadIn(MarkOne(items, id)) + UnreadWithId(items, id) == UnreadIn(items)
  {
    if items != [] {
      UnreadAfterMarkOne(items[1..], id);
      assert MarkOne(items, id)[1..] == MarkOne(items[1..], id);
    }
  }

  lemma {:induction false} UnreadAfterMarkEvery(items: seq<Notification>)
    ensures UnreadIn(MarkEvery(items)) == 0
  {
    if items != [] {
      UnreadAfterMarkEvery(items[1..]);
      assert MarkEvery(items)[1..] == MarkEvery(items[1..]);
    }
  }

  /** Deleting drops the unread count by the unread items that carried the id. */
  lemma {:induction false} UnreadAfterWithout(items: seq<Notification>, id: string)
    ensures UnreadIn(Without(items, id)) + UnreadWithId(items, id) == UnreadIn(items)
  {
    if items != [] {
      UnreadAfterWithout(items[1..], id);
    }
  }

  // ---------------------------------------------------------------------------
  // Requests and answers
  // ---------------------------------------------------------------------------

  function AuthHeaders(token: string): G.Headers {
    map[G.AuthorizationKey := G.Bearer(token), G.ContentTypeKey := G.JsonType]
  }

  function Request(e: ApiConfig.Endpoint, verb: G.HttpMethod, token: string): G.Fetch {
    G.Fetch(ApiConfig.Url(e), G.Options(Some(verb), AuthHeaders(token), None))
  }

  /** The answer to the list request: thrown (network, or a body that is not
      JSON), or the `ok` flag with the body's `success` and `data`. */
  datatype ListReply = ListThrew | ListAnswer(ok: bool, success: bool, data: seq<Notification>)

  /** The answer to a mark or delete request. */
  datatype Ack = AckThrew | AckAnswer(ok: bool, success: bool)

  predicate Accepted(a: Ack) {
    a.AckAnswer? && a.ok && a.success
  }

  /** `fetchNotifications()` with the token the screen holds. Without a token
      nothing is sent; `loading` and `refreshing` are down afterwards on every
      path. */
  function FetchList(b: Inbox, token: Option<string>, reply: ListReply): (r: (Inbox, Option<G.Fetch>))
    ensures !r.0.loading && !r.0.refreshing
    ensures r.1.Some? <==> Truthy(token)
    ensures r.1.Some? ==> r.1.value == Request(ApiConfig.NotificationsAll, G.GET, token.value)
    ensures r.1.Some? && reply.ListAnswer? && reply.ok && reply.success ==>
      r.0.items == reply.data && Consistent(r.0)
    ensures !(r.1.Some? && reply.ListAnswer? && reply.ok && reply.success) ==>
      r.0.items == b.items && r.0.unread == b.unread
  {
    var done := b.(loading := false, refreshing := false);
    if !Truthy(token) then (done, None)
    else
      var sent := Some(Request(ApiConfig.NotificationsAll, G.GET, token.value));
      match reply
      case ListAnswer(ok, success, data) =>
        if ok && success then (done.(items := data, unread := UnreadIn(data)), sent)
        else (done, sent)
      case ListThrew => (done, sent)
  }

  /** Pulling to refresh raises `refreshing` and runs the same load. */
  function PullToRefresh(b: Inbox, token: Option<string>, reply: ListReply): (r: (Inbox, Option<G.Fetch>))
    ensures r == FetchList(b.(refreshing := true), token, reply)
    ensures !r.0.refreshing
  {
    FetchList(b.(refreshing := true), token, reply)
  }

  /** The counter after a decrement, floored at zero. */
  function Decrement(n: int): (m: int)
    ensures m >= 0
    ensures n >= 1 ==> m == n - 1
    ensures n <= 1 ==> m == 0
  {
    if n - 1 > 0 then n - 1 else 0
  }

  /** `markAsRead(id)`: the new inbox, the request, and the boolean returned. */
  function MarkAsRead(b: Inbox, token: string, id: string, reply: Ack): (r: (Inbox, G.Fetch, bool))
    ensures r.1 == Request(ApiConfig.NotificationsMarkRead(id), G.PUT, token)
    ensures r.2 <==> Accepted(reply)
    ensures r.2 ==> r.0 == b.(items := MarkOne(b.items, id), unread := Decrement(b.unread))
    ensures !r.2 ==> r.0 == b
  {
    var sent := Request(ApiConfig.NotificationsMarkRead(id), G.PUT, token);
    if Accepted(reply) then (b.(items := MarkOne(b.items, id), unread := Decrement(b.unread)), sent, true)
    else (b, sent, false)
  }

  /** `markAllAsRead()`. */
  function MarkAllAsRead(b: Inbox, token: string, reply: Ack): (r: (Inbox, G.Fetch, bool))
    ensures r.1 == Request(ApiConfig.NotificationsMarkAllRead, G.PUT, token)
    ensures r.2 <==> Accepted(reply)
    ensures r.2 ==> r.0 == b.(items := MarkEvery(b.items), unread := 0)
    ensures !r.2 ==> r.0 == b
  {
    var sent := Request(ApiConfig.NotificationsMarkAllRead, G.PUT, token);
    if Accepted(reply) then (b.(items := MarkEvery(b.items), unread := 0), sent, true)
    else (b, sent, false)
  }

  /** `deleteNotification(id)`: the counter drops only when the first item with
      that id was unread. */
  function Delete(b: Inbox, token: string, id: string, reply: Ack): (r: (Inbox, G.Fetch, bool))
    ensures r.1 == Request(ApiConfig.NotificationsDelete(id), G.DELETE, token)
    ensures r.2 <==> Accepted(reply)
    ensures r.2 ==> r.0.items == Without(b.items, id)
    ensures r.2 ==> r.0.unread == if Find(b.items, id).Some? && !Find(b.items, id).value.isRead then Decrement(b.unread) else b.unread
    ensures !r.2 ==> r.0 == b
  {
    var sent := Request(ApiConfig.NotificationsDelete(id), G.DELETE, token);
    if Accepted(reply) then
      var target := Find(b.items, id);
      var unread := if target.Some? && !target.value.isRead then Decrement(b.unread) else b.unread;
      (b.(items := Without(b.items, id), unread := unread), sent, true)
    else (b, sent, false)
  }

  /** `viewNotificationDetails(n)`: an unread item is marked read first, with a
      local notice when that worked; a read item sends nothing. */
  function View(b: Inbox, token: string, n: Notification, reply: Ack): (r: (Inbox, Option<G.Fetch>, bool))
    ensures n.isRead ==> r == (b, None, false)
    ensures !n.isRead ==> r.1 == Some(Request(ApiConfig.NotificationsMarkRead(n.id), G.PUT, token))
    ensures r.2 <==> !n.isRead && Accepted(reply)
  {
    if n.isRead then (b, None, false)
    else
      var (b', sent, ok) := MarkAsRead(b, token, n.id, reply);
      (b', Some(sent), ok)
  }

  // ---------------------------------------------------------------------------
  // The counter stays right
  // ---------------------------------------------------------------------------

  /** Viewing an item of the list keeps the counter in step with the list. */
  lemma ViewKeepsCount(b: Inbox, token: string, k: nat, reply: Ack)
    requires Consistent(b) && UniqueIds(b.items) && k < |b.items|
    ensures Consistent(View(b, token, b.items[k], reply).0)
  {
    var n := b.items[k];
    if !n.isRead && Accepted(reply) {
      UnreadAfterMarkOne(b.items, n.id);
      UnreadWithUniqueId(b.items, k);
    }
  }

  lemma MarkAllKeepsCount(b: Inbox, token: string, reply: Ack)
    ensures Consistent(b) ==> Consistent(MarkAllAsRead(b, token, reply).0)
    ensures Accepted(reply) ==> Consistent(MarkAllAsRead(b, token, reply).0)
  {
    UnreadAfterMarkEvery(b.items);
  }

  lemma DeleteKeepsCount(b: Inbox, token: string, id: string, reply: Ack)
    requires Consistent(b) && UniqueIds(b.items)
    ensures Consistent(Delete(b, token, id, reply).0)
  {
    UnreadAfterWithout(b.items, id);
    var f := Find(b.items, id);
    if f.Some? {
      var k :| 0 <= k < |b.items| && b.items[k] == f.value && f.value.id == id;
      UnreadWithUniqueId(b.items, k);
    } else {
      NoneWithId(b.items, id);
    }
  }

  /** Deleting keeps ids unique, so the counter stays right across any number
      of deletions. */
  lemma DeleteKeepsUniqueIds(b: Inbox, token: string, id: string, reply: Ack)
    requires UniqueIds(b.items)
    ensures UniqueIds(Delete(b, token, id, reply).0.items)
  {
    if Accepted(reply) {
      WithoutKeepsUnique(b.items, id);
    }
  }

  lemma {:induction false} WithoutKeepsUnique(items: seq<Notification>, id: string)
    requires UniqueIds(items)
    ensures UniqueIds(Without(items, id))
  {
    if items != [] {
      WithoutKeepsUnique(items[1..], id);
      var rest := Without(items[1..], id);
      if items[0].id != id {
        forall x | x in rest ensures x.id != items[0].id {
          assert x in items[1..];
        }
      }
    }
  }

  /** The counter never goes negative from a non-negative start. */
  lemma CounterNonNegative(b: Inbox, token: string, id: string, reply: Ack)
    requires b.unread >= 0
    ensures MarkAsRead(b, token, id, reply).0.unread >= 0
    ensures Delete(b, token, id, reply).0.unread >= 0
    ensures MarkAllAsRead(b, token, reply).0.unread >= 0
  {
  }
}
