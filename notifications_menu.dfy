/**
 * The notifications menu: a list of notifications held as component
 * state, replaced by "mark as read" on one id or on all of them.
 */
module NotificationsMenu {
  import opened Types

  /** `map(n => n.id === id ? { ...n, read: true } : n)`. */
  function MarkRead(ns: seq<Notification>, id: Id): (r: seq<Notification>)
    ensures |r| == |ns|
    ensures forall i :: 0 <= i < |r| ==> r[i].(read := ns[i].read) == ns[i]
    ensures forall i :: 0 <= i < |r| ==> r[i].read == (ns[i].read || ns[i].id == id)
  {
    seq(|ns|, i requires 0 <= i < |ns| => if ns[i].id == id then ns[i].(read := true) else ns[i])
  }

  /** `map(n => ({ ...n, read: true }))`. */
  function MarkAllRead(ns: seq<Notification>): (r: seq<Notification>)
    ensures |r| == |ns|
    ensures forall i :: 0 <= i < |r| ==> r[i].(read := ns[i].read) == ns[i]
    ensures forall i :: 0 <= i < |r| ==> r[i].read
  {
    seq(|ns|, i requires 0 <= i < |ns| => ns[i].(read := true))
  }

  /** The unread dot and the "Mark as read" button are both shown exactly for an unread notification. */
  predicate UnreadMarkerShown(n: Notification)
  {
    !n.read
  }

  /** Marking one id as read twice is marking it once. */
  lemma MarkReadIdempotent(ns: seq<Notification>, id: Id)
    ensures MarkRead(MarkRead(ns, id), id) == MarkRead(ns, id)
  {
  }

  /** Marking all as read twice is marking all once. */
  lemma MarkAllReadIdempotent(ns: seq<Notification>)
    ensures MarkAllRead(MarkAllRead(ns)) == MarkAllRead(ns)
  {
  }

  /** Marking an id no notification has changes nothing. */
  lemma MarkReadAbsentId(ns: seq<Notification>, id: Id)
    requires forall i :: 0 <= i < |ns| ==> ns[i].id != id
    ensures MarkRead(ns, id) == ns
  {
  }

  /** Marking one first makes no difference to marking all. */
  lemma MarkAllAbsorbsMarkOne(ns: seq<Notification>, id: Id)
    ensures MarkAllRead(MarkRead(ns, id)) == MarkAllRead(ns)
  {
  }

  /** After marking one, its marker is gone, and every other marker is as it was. */
  lemma MarkReadHidesOnlyThatMarker(ns: seq<Notification>, id: Id, i: nat)
    requires i < |ns|
    ensures UnreadMarkerShown(MarkRead(ns, id)[i]) <==> UnreadMarkerShown(ns[i]) && ns[i].id != id
  {
  }

  class NotificationsMenu {
    var notifications: seq<Notification>

    /** The menu after its load. */
    constructor (loaded: seq<Notification>)
      ensures notifications == loaded
    {
      notifications := loaded;
    }

    /** `markAsRead(id)`. */
    method MarkAsRead(id: Id)
      modifies this
      ensures notifications == MarkRead(old(notifications), id)
    {
      notifications := MarkRead(notifications, id);
    }

    /** `markAllAsRead()`: afterwards no unread marker is shown. */
    method MarkAllAsRead()
      modifies this
      ensures notifications == MarkAllRead(old(notifications))
      ensures forall i :: 0 <= i < |notifications| ==> !UnreadMarkerShown(notifications[i])
    {
      notifications := MarkAllRead(notifications);
    }
  }
}
