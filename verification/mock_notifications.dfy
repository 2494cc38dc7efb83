/**
 * The mock notifications server: an in-memory list of notifications that the
 * handlers filter, sort and page, mark as read and delete.
 */
module MockNotifications {
  import opened Wrappers
  import opened NotificationTypes
  import Seqs
  import Sorting

  const Minute := 60 * 1000
  const Hour := 60 * Minute
  const Day := 24 * Hour

  /** The texts of the five seeded notifications. */
  const WelcomeTitle := "Welcome to the app!"
  const WelcomeMessage := "Thanks for joining us. Explore the features and let us know if you have questions."
  const ProfileTitle := "Profile updated"
  const ProfileMessage := "Your profile information has been successfully updated."
  const PasswordTitle := "Password expiring soon"
  const PasswordMessage := "Your password will expire in 7 days. Please update it to maintain account security."
  const PaymentTitle := "Payment failed"
  const PaymentMessage := "Your last payment could not be processed. Please update your payment method."
  const BillingUrl := "/settings/billing"
  const FeatureTitle := "New feature available"
  const FeatureMessage := "Check out our new dashboard analytics feature."
  const AnalyticsUrl := "/dashboard/analytics"

  /** The five notifications the server starts with, `now` being `Date.now()`. */
  function Seed(now: int): seq<Notification> {
    [ Notification("1", WelcomeTitle, WelcomeMessage, InfoType, false, now - 5 * Minute, None),
      Notification("2", ProfileTitle, ProfileMessage, SuccessType, false, now - 30 * Minute, None),
      Notification("3", PasswordTitle, PasswordMessage, WarningType, true, now - 2 * Hour, None),
      Notification("4", PaymentTitle, PaymentMessage, ErrorType, false, now - Day, Some(BillingUrl)),
      Notification("5", FeatureTitle, FeatureMessage, InfoType, true, now - 2 * Day, Some(AnalyticsUrl)) ]
  }

  predicate IsUnread(n: Notification) {
    !n.read
  }

  /** The unread notifications, in list order. */
  function Unread(ns: seq<Notification>): seq<Notification> {
    Seqs.Filter(ns, IsUnread)
  }

  /** The comparator `b.createdAt - a.createdAt`: `a` may come first when it is not older. */
  predicate NewestFirst(a: Notification, b: Notification) {
    a.createdAt >= b.createdAt
  }

  /** The test `n.type === type`. */
  function HasType(t: string): Notification -> bool {
    (n: Notification) => TypeName(n.kind) == t
  }

  /** The test `n.read === isRead`. */
  function HasReadState(isRead: bool): Notification -> bool {
    (n: Notification) => n.read == isRead
  }

  /** The type filter, applied only for a non-empty `type` parameter. */
  function ByType(ns: seq<Notification>, typeParam: Option<string>): (r: seq<Notification>)
    ensures typeParam.None? || typeParam.value == "" ==> r == ns
    ensures typeParam.Some? && typeParam.value != "" ==>
      forall i :: 0 <= i < |r| ==> r[i] in ns && TypeName(r[i].kind) == typeParam.value
    ensures typeParam.Some? && typeParam.value != "" ==>
      forall i :: 0 <= i < |ns| && TypeName(ns[i].kind) == typeParam.value ==> ns[i] in r
  {
    if typeParam.Some? && typeParam.value != "" then
      Seqs.FilterMembers(ns, HasType(typeParam.value));
      Seqs.Filter(ns, HasType(typeParam.value))
    else ns
  }

  /** The read filter, applied whenever a `read` parameter is present; only `"true"` selects read ones. */
  function ByRead(ns: seq<Notification>, readParam: Option<string>): (r: seq<Notification>)
    ensures readParam.None? ==> r == ns
    ensures readParam.Some? ==>
      forall i :: 0 <= i < |r| ==> r[i] in ns && r[i].read == (readParam.value == "true")
    ensures readParam.Some? ==>
      forall i :: 0 <= i < |ns| && ns[i].read == (readParam.value == "true") ==> ns[i] in r
  {
    if readParam.Some? then
      Seqs.FilterMembers(ns, HasReadState(readParam.value == "true"));
      Seqs.Filter(ns, HasReadState(readParam.value == "true"))
    else ns
  }

  /** What a list request selects before sorting and paging: the type filter, then the read filter. */
  function Selected(ns: seq<Notification>, typeParam: Option<string>, readParam: Option<string>): seq<Notification> {
    ByRead(ByType(ns, typeParam), readParam)
  }

  /** A notification is selected exactly when it is stored and matches both present filters. */
  lemma SelectedExactly(ns: seq<Notification>, typeParam: Option<string>, readParam: Option<string>, n: Notification)
    ensures n in Selected(ns, typeParam, readParam) <==>
      && n in ns
      && (typeParam.None? || typeParam.value == "" || TypeName(n.kind) == typeParam.value)
      && (readParam.None? || n.read == (readParam.value == "true"))
  {
    var t := ByType(ns, typeParam);
    var r := Selected(ns, typeParam, readParam);
    if n in r {
      var i :| 0 <= i < |r| && r[i] == n;
      assert n in t;
      var k :| 0 <= k < |t| && t[k] == n;
    }
    if n in ns
      && (typeParam.None? || typeParam.value == "" || TypeName(n.kind) == typeParam.value)
      && (readParam.None? || n.read == (readParam.value == "true"))
    {
      var i :| 0 <= i < |ns| && ns[i] == n;
      assert n in t;
      var k :| 0 <= k < |t| && t[k] == n;
    }
  }

  lemma NewestFirstIsTotalPreorder()
    ensures Sorting.TotalPreorder(NewestFirst)
  {
  }

  /** The list reply: one page of the selection, newest first, with counts. */
  datatype ListResponse = ListResponse(data: seq<Notification>, total: nat, unreadCount: nat)

  /** The selection sorted newest first is a reordering of the selection. */
  lemma {:induction false} ListedNewestFirst(ns: seq<Notification>, typeParam: Option<string>, readParam: Option<string>)
    ensures var sorted := Sorting.Sort(Selected(ns, typeParam, readParam), NewestFirst);
      && Sorting.SortedBy(sorted, NewestFirst)
      && multiset(sorted) == multiset(Selected(ns, typeParam, readParam))
  {
    NewestFirstIsTotalPreorder();
    Sorting.SortSorted(Selected(ns, typeParam, readParam), NewestFirst);
  }

  /** The seed list is already newest first, so an unfiltered listing keeps its order. */
  lemma SeedListedInOrder(now: int)
    ensures Sorting.Sort(Seed(now), NewestFirst) == Seed(now)
  {
    assert Sorting.SortedBy(Seed(now), NewestFirst);
    Sorting.SortOfSorted(Seed(now), NewestFirst);
  }

  /** No two notifications share an id. */
  predicate UniqueIds(ns: seq<Notification>) {
    forall i, j :: 0 <= i < j < |ns| ==> ns[i].id != ns[j].id
  }

  lemma SeedUniqueIds(now: int)
    ensures UniqueIds(Seed(now))
  {
  }

  /** The test `n.id === id`. */
  function IdIs(id: string): Notification -> bool {
    (n: Notification) => n.id == id
  }

  /** Setting `read` on one entry lowers the unread count by one exactly when that entry was unread. */
  lemma {:induction false} MarkOneUnreadCount(ns: seq<Notification>, i: nat)
    requires i < |ns|
    ensures |Unread(ns[i := ns[i].(read := true)])| == |Unread(ns)| - (if ns[i].read then 0 else 1)
  {
    var m := ns[i := ns[i].(read := true)];
    if i > 0 {
      assert m[1..] == ns[1..][i - 1 := ns[1..][i - 1].(read := true)];
      MarkOneUnreadCount(ns[1..], i - 1);
    } else {
      assert m[1..] == ns[1..];
    }
  }

  /** After every entry is marked read nothing is unread. */
  lemma NoneUnreadWhenAllRead(ns: seq<Notification>)
    requires forall i :: 0 <= i < |ns| ==> ns[i].read
    ensures Unread(ns) == []
  {
    Seqs.FilterAllOrNone(ns, IsUnread);
  }

  /** With unique ids, removing the entry with an id leaves no entry with that id, and ids stay unique. */
  lemma RemovedIdIsGone(ns: seq<Notification>, i: nat)
    requires i < |ns| && UniqueIds(ns)
    ensures forall k :: 0 <= k < |ns| - 1 ==> Seqs.RemoveAt(ns, i)[k].id != ns[i].id
    ensures UniqueIds(Seqs.RemoveAt(ns, i))
  {
  }

  /** The module-level `mockNotifications` and the handlers that read and change it. */
  class NotificationsDb {
    var items: seq<Notification>

    /** The seeded database, created at instant `now`. */
    constructor(now: int)
      ensures items == Seed(now)
    {
      items := Seed(now);
    }

    /**
     * `GET /api/notifications`. `page` and `limit` are the parsed parameters,
     * `None` when absent or empty; the type and read filters see the raw text.
     */
    method List(page: Option<int>, limit: Option<int>, typeParam: Option<string>, readParam: Option<string>)
      returns (resp: ListResponse)
      ensures resp.total == |Selected(items, typeParam, readParam)|
      ensures resp.data == Seqs.Page(Sorting.Sort(Selected(items, typeParam, readParam), NewestFirst), page.GetOr(1), limit.GetOr(10))
      ensures resp.unreadCount == |Unread(items)|
    {
      var p := page.GetOr(1);
      var l := limit.GetOr(10);
      var filtered := items;
      if typeParam.Some? && typeParam.value != "" {
        filtered := Seqs.Filter(filtered, HasType(typeParam.value));
      }
      if readParam.Some? {
        var isRead := readParam.value == "true";
        filtered := Seqs.Filter(filtered, HasReadState(isRead));
      }
      filtered := Sorting.Sort(filtered, NewestFirst);
      var total := |filtered|;
      var data := Seqs.Page(filtered, p, l);
      resp := ListResponse(data, total, |Unread(items)|);
    }

    /** `GET /api/notifications/unread-count`, over the whole list. */
    method UnreadCount() returns (count: nat)
      ensures count == |Unread(items)|
      ensures count <= |items|
    {
      count := |Seqs.Filter(items, IsUnread)|;
    }

    /** `GET /api/notifications/:id`: the first entry with the id, or `None` for the 404 reply. */
    method Get(id: string) returns (reply: Option<Notification>)
      ensures reply.Some? <==> exists i :: 0 <= i < |items| && items[i].id == id
      ensures reply.Some? ==> reply.value in items && reply.value.id == id
      // The first notification with that id, as `Array.prototype.find` returns.
      ensures reply.Some? ==>
        exists i :: 0 <= i < |items| && items[i] == reply.value && forall j :: 0 <= j < i ==> items[j].id != id
    {
      var i := Seqs.FindIndex(items, IdIs(id));
      if i.None? {
        return None;
      }
      return Some(items[i.value]);
    }

    /** `PATCH /api/notifications/:id/read`: marks the first entry with the id as read, or 404 with nothing changed. */
    method MarkRead(id: string) returns (reply: Option<Notification>)
      modifies this
      ensures Seqs.FindIndex(old(items), IdIs(id)).None? ==> items == old(items) && reply.None?
      ensures Seqs.FindIndex(old(items), IdIs(id)).Some? ==>
        var i := Seqs.FindIndex(old(items), IdIs(id)).value;
        items == old(items)[i := old(items)[i].(read := true)] && reply == Some(items[i])
    {
      var i := Seqs.FindIndex(items, IdIs(id));
      if i.None? {
        return None;
      }
      items := items[i.value := items[i.value].(read := true)];
      return Some(items[i.value]);
    }

    /** `POST /api/notifications/mark-all-read`: same entries in the same order, all read. */
    method MarkAllRead()
      modifies this
      ensures |items| == |old(items)|
      ensures forall i :: 0 <= i < |items| ==> items[i] == old(items)[i].(read := true)
    {
      items := seq(|items|, i requires 0 <= i < |items| reads this => items[i].(read := true));
    }

    /** `DELETE /api/notifications/:id`: removes the first entry with the id; `false` is the 404 reply. */
    method Delete(id: string) returns (found: bool)
      modifies this
      ensures found == Seqs.FindIndex(old(items), IdIs(id)).Some?
      ensures !found ==> items == old(items)
      ensures found ==>
        var i := Seqs.FindIndex(old(items), IdIs(id)).value;
        items == Seqs.RemoveAt(old(items), i)
    {
      var i := Seqs.FindIndex(items, IdIs(id));
      if i.None? {
        return false;
      }
      items := Seqs.RemoveAt(items, i.value);
      return true;
    }

    /** `DELETE /api/notifications`: empties the list. */
    method ClearAll()
      modifies this
      ensures items == []
    {
      items := [];
    }
  }
}
