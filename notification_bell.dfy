/** frontend/components/layout/notification-bell.tsx: the bell's list of
    notifications, its unread badge, and the two edits the panel offers. The
    list is the component's state cell, replaced on each edit. */
module NotificationBell {
  import opened Wrappers
  import Seqs
  import Text

  datatype NotificationItem = NotificationItem(
    id: string, title: string, message: string, kind: string, timestamp: string, read: bool)

  function IsUnread(): NotificationItem -> bool { (n: NotificationItem) => !n.read }

  /** `unreadCount`: the number of items not yet read. */
  function UnreadCount(items: seq<NotificationItem>): (c: nat)
    ensures c <= |items|
    ensures c == 0 <==> forall i :: 0 <= i < |items| ==> items[i].read
  {
    UnreadCountZero(items);
    Seqs.Count(items, IsUnread())
  }

  lemma {:induction false} UnreadCountZero(items: seq<NotificationItem>)
    ensures Seqs.Count(items, IsUnread()) == 0 <==> forall i :: 0 <= i < |items| ==> items[i].read
    decreases |items|
  {
    if items != [] {
      var init := items[..|items| - 1];
      UnreadCountZero(init);
      assert forall i :: 0 <= i < |init| ==> init[i] == items[i];
    }
  }

  /** The `map` of `handleMarkAllRead`: the same items, in order, all read. */
  function MarkAllRead(items: seq<NotificationItem>): (r: seq<NotificationItem>)
    ensures |r| == |items|
    ensures forall i :: 0 <= i < |items| ==> r[i] == items[i].(read := true)
  {
    if items == [] then [] else MarkAllRead(items[..|items| - 1]) + [items[|items| - 1].(read := true)]
  }

  /** After marking all read nothing is unread, and marking again changes nothing. */
  lemma MarkAllReadClearsBadge(items: seq<NotificationItem>)
    ensures UnreadCount(MarkAllRead(items)) == 0
    ensures MarkAllRead(MarkAllRead(items)) == MarkAllRead(items)
  {
  }

  function HasOtherId(id: string): NotificationItem -> bool { (n: NotificationItem) => n.id != id }

  /** The `filter` of `handleDelete`: every item whose id is not `id`, in order. */
  function DeleteById(items: seq<NotificationItem>, id: string): (r: seq<NotificationItem>)
    ensures forall i :: 0 <= i < |r| ==> r[i].id != id
    ensures multiset(r) <= multiset(items)
  {
    DeleteKeepsItems(items, id);
    Seqs.Filter(items, HasOtherId(id))
  }

  lemma {:induction false} DeleteKeepsItems(items: seq<NotificationItem>, id: string)
    ensures multiset(Seqs.Filter(items, HasOtherId(id))) <= multiset(items)
    ensures forall i :: 0 <= i < |items| && items[i].id != id ==> items[i] in Seqs.Filter(items, HasOtherId(id))
    decreases |items|
  {
    Seqs.FilterMembers(items, HasOtherId(id));
    if items != [] {
      var init := items[..|items| - 1];
      DeleteKeepsItems(init, id);
      assert items == init + [items[|items| - 1]];
    }
  }

  /** Deleting removes exactly the entries with that id: every other entry stays. */
  lemma DeleteRemovesExactly(items: seq<NotificationItem>, id: string)
    ensures forall n :: n in DeleteById(items, id) <==> n in items && n.id != id
  {
    DeleteKeepsItems(items, id);
    forall n | n in DeleteById(items, id)
      ensures n in items
    {
      assert n in multiset(DeleteById(items, id));
    }
  }

  /** Deleting twice with the same id is deleting once. */
  lemma DeleteIdempotent(items: seq<NotificationItem>, id: string)
    ensures DeleteById(DeleteById(items, id), id) == DeleteById(items, id)
  {
    Seqs.FilterIdempotent(items, HasOtherId(id));
  }

  /** Deleting keeps the relative order of what stays: it is the filter of the
      two halves when the list is split anywhere. */
  lemma DeleteKeepsOrder(a: seq<NotificationItem>, b: seq<NotificationItem>, id: string)
    ensures DeleteById(a + b, id) == DeleteById(a, id) + DeleteById(b, id)
  {
    Seqs.FilterAppend(a, b, HasOtherId(id));
  }

  const BadgeCap: nat := 9

  /** The badge: hidden at zero, "9+" above nine, otherwise the count in decimal. */
  function BadgeLabel(unread: nat): (badge: Option<string>)
    ensures badge.None? <==> unread == 0
    ensures unread > BadgeCap ==> badge == Some("9+")
    ensures 0 < unread <= BadgeCap ==>
      badge.Some? && |badge.value| == 1 && (forall i :: 0 <= i < |badge.value| ==> '0' <= badge.value[i] <= '9') &&
      Text.DecimalValue(badge.value) == unread
  {
    if unread == 0 then None
    else if unread > BadgeCap then Some("9+")
    else
      Text.DecimalRoundTrip(unread);
      Some(Text.NatToDecimal(unread))
  }

  /** `getTypeColor` */
  function TypeColor(kind: string): (c: string)
    ensures kind == "error" <==> c == "text-red-600 bg-red-50"
    ensures kind == "warning" <==> c == "text-yellow-600 bg-yellow-50"
    ensures kind == "success" <==> c == "text-green-600 bg-green-50"
    ensures kind !in {"error", "warning", "success"} <==> c == "text-blue-600 bg-blue-50"
  {
    match kind
    case "error" => "text-red-600 bg-red-50"
    case "warning" => "text-yellow-600 bg-yellow-50"
    case "success" => "text-green-600 bg-green-50"
    case _ => "text-blue-600 bg-blue-50"
  }

  /** The component's `notifications` state. */
  class Bell {
    var notifications: seq<NotificationItem>

    /** The three built-in items, two of them unread. */
    constructor ()
      ensures |notifications| == 3 && UnreadCount(notifications) == 2
      ensures notifications[0].kind == "error" && notifications[1].kind == "warning"
      ensures notifications[2].kind == "success" && notifications[2].read
    {
      notifications := [
        NotificationItem("1", "Critical Alert", "Press C temperature exceeded safe limits", "error", "5 mins ago", false),
        NotificationItem("2", "Maintenance Due", "Pump Unit A requires maintenance", "warning", "1 hour ago", false),
        NotificationItem("3", "Work Order Complete", "WO-003 has been completed", "success", "2 hours ago", true)
      ];
      new;
      var items := notifications;
      assert items[..2][..1][..0] == [];
      assert items[..2][..1] == items[..1];
      assert Seqs.Count(items[..1], IsUnread()) == 1;
      assert Seqs.Count(items[..2], IsUnread()) == 2;
      assert items[..|items| - 1] == items[..2];
    }

    function Unread(): nat
      reads this
    {
      UnreadCount(notifications)
    }

    method HandleMarkAllRead()
      modifies this`notifications
      ensures notifications == MarkAllRead(old(notifications))
      ensures Unread() == 0
    {
      notifications := MarkAllRead(notifications);
      MarkAllReadClearsBadge(old(notifications));
    }

    method HandleDelete(id: string)
      modifies this`notifications
      ensures notifications == DeleteById(old(notifications), id)
    {
      notifications := DeleteById(notifications, id);
    }
  }
}
