/** The notification list of `src/components/Notifications.tsx`: the list
    transforms each handler applies once its remote call has succeeded, and
    the unread count shown in the header. */
module Notifications {
  import opened Wrappers
  import opened Filters

  datatype Notification = Notification(id: string, kind: string, title: string, message: string, createdAt: string, read: bool)

  /** `notifications.map(n => n.id === id ? { ...n, read: true } : n)`. */
  function MarkRead(ns: seq<Notification>, id: string): seq<Notification> {
    Map(ns, (n: Notification) => if n.id == id then n.(read := true) else n)
  }

  /** `notifications.map(n => ({ ...n, read: true }))`. */
  function MarkAllRead(ns: seq<Notification>): seq<Notification> {
    Map(ns, (n: Notification) => n.(read := true))
  }

  predicate OtherId(n: Notification, id: string) {
    n.id != id
  }

  /** `notifications.filter(n => n.id !== id)`. */
  function Delete(ns: seq<Notification>, id: string): seq<Notification> {
    Filter(ns, n => OtherId(n, id))
  }

  predicate Unread(n: Notification) {
    !n.read
  }

  /** `notifications.filter(n => !n.read).length`. */
  function UnreadCount(ns: seq<Notification>): nat {
    |Filter(ns, Unread)|
  }

  /** Marking one id read sets `read` on exactly the entries with that id;
      every other field, every other entry, the length and the order stay. */
  lemma MarkReadSpec(ns: seq<Notification>, id: string)
    ensures var r := MarkRead(ns, id);
      && |r| == |ns|
      && forall i :: 0 <= i < |ns| ==>
           && r[i].(read := ns[i].read) == ns[i]
           && (r[i].read <==> ns[i].read || ns[i].id == id)
  {
  }

  /** Marking the same id read twice is marking it once. */
  lemma MarkReadIdempotent(ns: seq<Notification>, id: string)
    ensures MarkRead(MarkRead(ns, id), id) == MarkRead(ns, id)
  {
  }

  /** After marking everything read nothing is unread, and nothing but the
      flag has changed. */
  lemma MarkAllReadSpec(ns: seq<Notification>)
    ensures var r := MarkAllRead(ns);
      && UnreadCount(r) == 0
      && |r| == |ns|
      && forall i :: 0 <= i < |ns| ==> r[i].read && r[i].(read := ns[i].read) == ns[i]
  {
    var r := MarkAllRead(ns);
    NoneUnread(r);
  }

  /** The unread count is zero exactly when every entry is read, and never
      more than the number of entries. */
  lemma {:induction false} NoneUnread(ns: seq<Notification>)
    ensures UnreadCount(ns) <= |ns|
    ensures UnreadCount(ns) == 0 <==> forall i :: 0 <= i < |ns| ==> ns[i].read
  {
    if ns != [] {
      NoneUnread(ns[1..]);
      assert forall i :: 1 <= i < |ns| ==> ns[i] == ns[1..][i - 1];
    }
  }

  /** The unread count adds one for each unread entry. */
  lemma UnreadCountAppend(ns: seq<Notification>, n: Notification)
    ensures UnreadCount(ns + [n]) == UnreadCount(ns) + (if n.read then 0 else 1)
  {
    FilterAppend(ns, n, Unread);
  }

  /** Marking an id read lowers the unread count by the number of unread
      entries carrying it. */
  lemma {:induction false} MarkReadCount(ns: seq<Notification>, id: string)
    ensures UnreadCount(MarkRead(ns, id)) == UnreadCount(ns) - |Filter(ns, n => Unread(n) && n.id == id)|
  {
    if ns != [] {
      MarkReadCount(ns[1..], id);
      assert MarkRead(ns, id) == [MarkRead(ns, id)[0]] + MarkRead(ns[1..], id);
      CountBound(ns[1..], id);
    }
  }

  lemma {:induction false} CountBound(ns: seq<Notification>, id: string)
    ensures |Filter(ns, n => Unread(n) && n.id == id)| <= UnreadCount(ns)
  {
    if ns != [] {
      CountBound(ns[1..], id);
    }
  }

  /** Deleting an id removes exactly the entries with that id: the others
      stay, in order, each as often as before. */
  lemma DeleteSpec(ns: seq<Notification>, id: string)
    ensures var r := Delete(ns, id);
      && IsSubsequence(r, ns)
      && (forall i :: 0 <= i < |r| ==> r[i].id != id)
      && (forall n: Notification :: n.id != id ==> multiset(r)[n] == multiset(ns)[n])
  {
    var r := Delete(ns, id);
    FilterIsSubsequence(ns, n => OtherId(n, id));
    FilterCounts(ns, n => OtherId(n, id));
    FilterMembers(ns, n => OtherId(n, id));
    assert forall i :: 0 <= i < |r| ==> r[i] in r;
  }

  /** Deleting an id no entry carries changes nothing. */
  lemma DeleteAbsent(ns: seq<Notification>, id: string)
    requires forall i :: 0 <= i < |ns| ==> ns[i].id != id
    ensures Delete(ns, id) == ns
  {
    FilterAll(ns, n => OtherId(n, id));
  }

  /** The component's list. Each handler awaits its remote call; when that
      call throws, the list is left as it was. */
  class NotificationsPanel {
    var notifications: seq<Notification>

    constructor()
      ensures notifications == []
    {
      notifications := [];
    }

    /** `loadNotifications`: the fetched list replaces the current one; a
      failed fetch leaves it. */
    method Load(fetched: Option<seq<Notification>>)
      modifies this
      ensures notifications == if fetched.Some? then fetched.value else old(notifications)
    {
      if fetched.Some? {
        notifications := fetched.value;
      }
    }

    /** `handleMarkAsRead(id)`; `succeeded` is whether the remote update
      returned without throwing. */
    method HandleMarkAsRead(id: string, succeeded: bool)
      modifies this
      ensures notifications == if succeeded then MarkRead(old(notifications), id) else old(notifications)
    {
      if succeeded {
        notifications := MarkRead(notifications, id);
      }
    }

    method HandleMarkAllAsRead(succeeded: bool)
      modifies this
      ensures notifications == if succeeded then MarkAllRead(old(notifications)) else old(notifications)
      ensures succeeded ==> UnreadCount(notifications) == 0
    {
      if succeeded {
        notifications := MarkAllRead(notifications);
        MarkAllReadSpec(old(notifications));
      }
    }

    method HandleClearAll(succeeded: bool)
      modifies this
      ensures notifications == if succeeded then [] else old(notifications)
    {
      if succeeded {
        notifications := [];
      }
    }

    method HandleDelete(id: string, succeeded: bool)
      modifies this
      ensures notifications == if succeeded then Delete(old(notifications), id) else old(notifications)
    {
      if succeeded {
        notifications := Delete(notifications, id);
      }
    }
  }
}
