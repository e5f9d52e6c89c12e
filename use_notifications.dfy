/** frontend/hooks/useNotifications.ts: the hook's three state cells and the
    three actions that overwrite them after an API call. The API call's outcome
    is a parameter: `Some(data)` / `true` for a response, `None` / `false` for a
    rejected request. */
module UseNotifications {
  import opened Wrappers
  import Seqs

  datatype NotificationKind = Anomaly | Maintenance | LowStock | Alert
  datatype NotificationPriority = Low | Medium | High | Critical

  datatype Notification = Notification(
    id: string, title: string, message: string, kind: NotificationKind, priority: NotificationPriority,
    timestamp: string, read: bool, machineId: Option<string>)

  function IsUnread(): Notification -> bool { (n: Notification) => !n.read }

  /** The number of unread notifications in a list. */
  function UnreadIn(ns: seq<Notification>): (c: nat)
    ensures c <= |ns|
  {
    Seqs.Count(ns, IsUnread())
  }

  /** The `map` of `markAsRead`: entries with that id become read, the others stay as they are. */
  function MarkRead(ns: seq<Notification>, id: string): (r: seq<Notification>)
    ensures |r| == |ns|
    ensures forall i :: 0 <= i < |ns| ==> r[i] == if ns[i].id == id then ns[i].(read := true) else ns[i]
  {
    if ns == [] then []
    else
      var last := ns[|ns| - 1];
      MarkRead(ns[..|ns| - 1], id) + [if last.id == id then last.(read := true) else last]
  }

  /** Marking read never raises the number of unread entries, and it lowers it
      by one exactly when a single unread entry has that id. */
  lemma {:induction false} MarkReadUnread(ns: seq<Notification>, id: string)
    ensures UnreadIn(MarkRead(ns, id)) == UnreadIn(ns) - Seqs.Count(ns, UnreadWithId(id))
    decreases |ns|
  {
    if ns != [] {
      var init := ns[..|ns| - 1];
      MarkReadUnread(init, id);
      assert MarkRead(ns, id)[..|ns| - 1] == MarkRead(init, id);
      UnreadWithIdBounded(init, id);
    }
  }

  function UnreadWithId(id: string): Notification -> bool { (n: Notification) => !n.read && n.id == id }

  lemma {:induction false} UnreadWithIdBounded(ns: seq<Notification>, id: string)
    ensures Seqs.Count(ns, UnreadWithId(id)) <= UnreadIn(ns)
    decreases |ns|
  {
    if ns != [] {
      UnreadWithIdBounded(ns[..|ns| - 1], id);
    }
  }

  /** `Math.max(0, unreadCount - 1)` */
  function Decremented(c: int): (r: int)
    ensures r >= 0
    ensures c >= 1 ==> r == c - 1
    ensures c <= 1 ==> r == 0
  {
    if c - 1 > 0 then c - 1 else 0
  }

  /** The counter is decremented whether or not the entry was unread: marking an
      already-read entry leaves the list's unread number alone but lowers the counter. */
  lemma CounterDriftsOnRepeatedMark()
    ensures var n := Notification("1", "t", "m", Alert, High, "now", false, None);
      var a := MarkRead([n, n.(id := "2")], "1");
      UnreadIn(a) == 1 && UnreadIn(MarkRead(a, "1")) == 1 &&
      Decremented(Decremented(UnreadIn([n, n.(id := "2")]))) == 0
  {
    var n := Notification("1", "t", "m", Alert, High, "now", false, None);
    var s := [n, n.(id := "2")];
    var a := MarkRead(s, "1");
    assert a == [n.(read := true), n.(id := "2")];
    assert MarkRead(a, "1") == a;
    assert s[..1] == [n] && s[..1][..0] == [];
    assert a[..1] == [n.(read := true)] && a[..1][..0] == [];
    assert s[..|s| - 1] == s[..1] && a[..|a| - 1] == a[..1];
    assert Seqs.Count(s[..1], IsUnread()) == 1;
    assert Seqs.Count(a[..1], IsUnread()) == 0;
  }

  class NotificationsState {
    var notifications: seq<Notification>
    var unreadCount: int
    var loading: bool

    /** The initial state: nothing loaded. */
    constructor ()
      ensures notifications == [] && unreadCount == 0 && !loading
    {
      notifications := [];
      unreadCount := 0;
      loading := false;
    }

    /** `fetchNotifications`: on a list response, the list is replaced and the counter
        is its number of unread entries; on failure both are left alone. Loading
        is false afterwards either way. */
    method FetchNotifications(response: Option<seq<Notification>>)
      modifies this
      ensures response.Some? ==> notifications == response.value && unreadCount == UnreadIn(response.value)
      ensures response.None? ==> notifications == old(notifications) && unreadCount == old(unreadCount)
      ensures !loading
    {
      loading := true;
      if response.Some? {
        notifications := response.value;
        unreadCount := UnreadIn(response.value);
      }
      loading := false;
    }

    /** `markAsRead(id)` after the PATCH: on success entries with that id are
        read and the counter drops by one, never below zero; on failure nothing changes. */
    method MarkAsRead(id: string, succeeded: bool)
      modifies this`notifications, this`unreadCount
      ensures succeeded ==> notifications == MarkRead(old(notifications), id)
      ensures succeeded ==> unreadCount == Decremented(old(unreadCount))
      ensures !succeeded ==> notifications == old(notifications) && unreadCount == old(unreadCount)
    {
      if succeeded {
        notifications := MarkRead(notifications, id);
        unreadCount := Decremented(unreadCount);
      }
    }

    /** `clearAll` after the POST: on success the list is empty and the counter
        zero; on failure nothing changes. */
    method ClearAll(succeeded: bool)
      modifies this`notifications, this`unreadCount
      ensures succeeded ==> notifications == [] && unreadCount == 0
      ensures !succeeded ==> notifications == old(notifications) && unreadCount == old(unreadCount)
    {
      if succeeded {
        notifications := [];
        unreadCount := 0;
      }
    }
  }
}
