/** The admin top bar's notification list: the unread badge count, marking a
    notification as read, and the realtime insert that prepends a new one. */
module Notifications {
  import opened Common

  datatype Notification = Notification(
    id: string, title: string, message: string, kind: string, isRead: bool, createdAt: string)

  predicate IsUnread(n: Notification) { !n.isRead }

  /** `unreadCount`. */
  function UnreadCount(ns: seq<Notification>): nat {
    CountIf(ns, IsUnread)
  }

  /** `prev.map((n) => (n.id === id ? { ...n, is_read: true } : n))`. */
  function MarkRead(ns: seq<Notification>, id: string): (r: seq<Notification>)
    ensures |r| == |ns|
  {
    seq(|ns|, i requires 0 <= i < |ns| => if ns[i].id == id then ns[i].(isRead := true) else ns[i])
  }

  predicate UnreadWithId(id: string, n: Notification) { !n.isRead && n.id == id }

  // -------------------------------------------------------------------
  // Properties

  /** The entries with that id become read and keep every other field; all
      other entries are unchanged. */
  lemma MarkReadContents(ns: seq<Notification>, id: string)
    ensures forall i :: 0 <= i < |ns| ==>
      && (ns[i].id == id ==> MarkRead(ns, id)[i] == ns[i].(isRead := true))
      && (ns[i].id != id ==> MarkRead(ns, id)[i] == ns[i])
  {
  }

  /** Marking twice is marking once. */
  lemma MarkReadIdempotent(ns: seq<Notification>, id: string)
    ensures MarkRead(MarkRead(ns, id), id) == MarkRead(ns, id)
  {
    assert forall i :: 0 <= i < |ns| ==> MarkRead(MarkRead(ns, id), id)[i] == MarkRead(ns, id)[i];
  }

  /** The badge drops by exactly the number of unread entries with that id,
      so it never grows. */
  lemma {:induction false} MarkReadCount(ns: seq<Notification>, id: string)
    ensures UnreadCount(MarkRead(ns, id)) == UnreadCount(ns) - CountIf(ns, (n: Notification) => UnreadWithId(id, n))
    ensures UnreadCount(MarkRead(ns, id)) <= UnreadCount(ns)
  {
    if |ns| > 0 {
      assert MarkRead(ns, id)[1..] == MarkRead(ns[1..], id);
      MarkReadCount(ns[1..], id);
    }
  }

  /** The realtime insert puts the new entry first and keeps the old list
      as the tail; the badge grows by one exactly when it is unread. */
  lemma PrependCount(n: Notification, ns: seq<Notification>)
    ensures ([n] + ns)[0] == n && ([n] + ns)[1..] == ns
    ensures UnreadCount([n] + ns) == UnreadCount(ns) + (if n.isRead then 0 else 1)
  {
    assert ([n] + ns)[1..] == ns;
  }

  // -------------------------------------------------------------------
  // The list as the top bar holds it

  class NotificationPanel {
    var notifications: seq<Notification>

    constructor ()
      ensures notifications == []
    {
      notifications := [];
    }

    function Unread(): nat
      reads this
    {
      UnreadCount(notifications)
    }

    /** `fetchNotifications` once the gateway has answered: a result replaces
        the list, no result keeps it. */
    method Load(data: Option<seq<Notification>>)
      modifies this
      ensures notifications == if data.Some? then data.value else old(notifications)
    {
      if data.Some? {
        notifications := data.value;
      }
    }

    /** The realtime INSERT handler. */
    method ReceiveInsert(n: Notification)
      modifies this
      ensures notifications == [n] + old(notifications)
      ensures Unread() == old(Unread()) + (if n.isRead then 0 else 1)
    {
      PrependCount(n, notifications);
      notifications := [n] + notifications;
    }

    /** `markAsRead(id)`. */
    method MarkAsRead(id: string)
      modifies this
      ensures notifications == MarkRead(old(notifications), id)
      ensures Unread() <= old(Unread())
    {
      MarkReadCount(notifications, id);
      notifications := MarkRead(notifications, id);
    }
  }
}
