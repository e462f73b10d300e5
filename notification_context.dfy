/**
 * The notification provider: a newest-first list with no seed. One effect
 * restores the stored list on mount; another writes the list back under the
 * "notifications" key every time it changes, the first time on mount itself.
 */
module NotificationContext {
  import opened Wrappers
  import opened JsValues
  import opened Seqs
  import opened Records

  function HasId(id: Id): Notification -> bool {
    (n: Notification) => StrictEq(n.id, id)
  }

  function LacksId(id: Id): Notification -> bool {
    (n: Notification) => !StrictEq(n.id, id)
  }

  function IsUnread(n: Notification): bool {
    !n.read
  }

  /** `{...notification, read: true}`. */
  function SetRead(n: Notification): (r: Notification)
    ensures r.read && r == n.(read := true)
  {
    n.(read := true)
  }

  /**
   * `{id, timestamp, read: false, ...notification}`: the defaults come first,
   * so every key the caller supplies overrides them.
   */
  function NewNotification(input: NotificationInput, id: Id, timestamp: string): (n: Notification)
    ensures n.kind == input.kind && n.message == input.message
    ensures n.id == (if input.id.Some? then input.id.value else id)
    ensures n.timestamp == (if input.timestamp.Some? then input.timestamp.value else timestamp)
    ensures n.read <==> input.read == Some(true)
  {
    Notification(input.id.GetOr(id), input.timestamp.GetOr(timestamp), input.read.GetOr(false), input.kind, input.message)
  }

  /** The list `addNotification` builds: the new one first, then the old list. */
  function Prepended(s: seq<Notification>, n: Notification): (r: seq<Notification>)
    ensures |r| == |s| + 1 && r[0] == n && r[1..] == s
  {
    [n] + s
  }

  /** The list `dismissNotification` builds. */
  function Dismissed(s: seq<Notification>, id: Id): (r: seq<Notification>)
    ensures |r| <= |s|
    ensures forall i :: 0 <= i < |r| ==> !StrictEq(r[i].id, id) && r[i] in s
    ensures forall i :: 0 <= i < |s| && !StrictEq(s[i].id, id) ==> s[i] in r
  {
    Filter(s, LacksId(id))
  }

  /** After dismissing, each notification without the id is there as many times as before, and none with it is left. */
  lemma DismissedMultiset(s: seq<Notification>, id: Id)
    ensures forall x :: multiset(Dismissed(s, id))[x] == if StrictEq(x.id, id) then 0 else multiset(s)[x]
  {
    FilterMultiset(s, LacksId(id));
  }

  /** The list `markAsRead` builds: matching notifications are read, everything else is as it was. */
  function MarkedRead(s: seq<Notification>, id: Id): (r: seq<Notification>)
    ensures |r| == |s|
    ensures forall i :: 0 <= i < |s| && StrictEq(s[i].id, id) ==> r[i] == s[i].(read := true)
    ensures forall i :: 0 <= i < |s| && !StrictEq(s[i].id, id) ==> r[i] == s[i]
  {
    MapWhere(s, HasId(id), SetRead)
  }

  /** `getUnreadCount`. */
  function UnreadCount(s: seq<Notification>): (n: nat)
    ensures n <= |s|
    ensures n == 0 <==> forall i :: 0 <= i < |s| ==> s[i].read
  {
    Count(s, IsUnread)
  }

  // ---------------------------------------------------------------------------
  // Properties

  lemma DismissedIsOrderedSubsequence(s: seq<Notification>, id: Id)
    ensures Subsequence(Dismissed(s, id), s)
  {
    FilterIsSubsequence(s, LacksId(id));
  }

  lemma UnknownIdIsNoOp(s: seq<Notification>, id: Id)
    requires forall i :: 0 <= i < |s| ==> !StrictEq(s[i].id, id)
    ensures Dismissed(s, id) == s
    ensures MarkedRead(s, id) == s
  {
    FilterKeepsAll(s, LacksId(id));
  }

  lemma MarkAsReadIdempotent(s: seq<Notification>, id: Id)
    ensures MarkedRead(MarkedRead(s, id), id) == MarkedRead(s, id)
  {
  }

  /** The unread count of a list with one more notification in front. */
  lemma {:induction false} UnreadCountPrepended(s: seq<Notification>, n: Notification)
    ensures UnreadCount(Prepended(s, n)) == UnreadCount(s) + (if n.read then 0 else 1)
  {
    FilterAppend([n], s, IsUnread);
  }

  /** Marking as read never raises the unread count. */
  lemma {:induction false} MarkAsReadNeverRaisesUnread(s: seq<Notification>, id: Id)
    ensures UnreadCount(MarkedRead(s, id)) <= UnreadCount(s)
  {
    if s != [] {
      var m := MarkedRead(s, id);
      assert m == [m[0]] + MarkedRead(s[1..], id);
      assert s == [s[0]] + s[1..];
      FilterAppend([m[0]], MarkedRead(s[1..], id), IsUnread);
      FilterAppend([s[0]], s[1..], IsUnread);
      MarkAsReadNeverRaisesUnread(s[1..], id);
    }
  }

  /** Once marked, no notification with that id is unread. */
  lemma MarkedAreRead(s: seq<Notification>, id: Id)
    ensures forall i :: 0 <= i < |s| && StrictEq(s[i].id, id) ==> !IsUnread(MarkedRead(s, id)[i])
  {
  }

  class NotificationProvider {
    var notifications: seq<Notification>
    const storage: LocalStorage

    constructor (storage: LocalStorage)
      ensures this.storage == storage && notifications == []
    {
      this.storage := storage;
      notifications := [];
    }

    ghost predicate Persisted()
      reads this, storage
    {
      NotificationsKey in storage.items && storage.items[NotificationsKey] == NotificationList(notifications)
    }

    /** The persist effect: write the current list. */
    method Persist()
      modifies storage
      ensures storage.items == old(storage.items)[NotificationsKey := NotificationList(notifications)]
      ensures Persisted()
      ensures old(storage.WellFormed()) ==> storage.WellFormed()
    {
      storage.SetItem(NotificationsKey, NotificationList(notifications));
    }

    /**
     * Mount: the restore effect reads the stored list, the persist effect then
     * writes the initial empty list, and once the restored list is state it is
     * written again. A stored list comes back unchanged; without one the list
     * stays empty and an empty list is stored.
     */
    method Mount()
      requires notifications == [] && storage.WellFormed()
      modifies this, storage
      ensures NotificationsKey in old(storage.items) ==>
        notifications == old(storage.items[NotificationsKey]).notifications && storage.items == old(storage.items)
      ensures NotificationsKey !in old(storage.items) ==>
        notifications == [] && storage.items == old(storage.items)[NotificationsKey := NotificationList([])]
      ensures Persisted() && storage.WellFormed()
    {
      var stored := storage.GetItem(NotificationsKey);
      Persist();
      match stored {
        case Some(b) =>
          assert FitsKey(NotificationsKey, b);
          notifications := b.notifications;
          Persist();
        case None =>
      }
    }

    method AddNotification(input: NotificationInput, id: Id, timestamp: string)
      modifies this, storage
      ensures notifications == Prepended(old(notifications), NewNotification(input, id, timestamp))
      ensures storage.items == old(storage.items)[NotificationsKey := NotificationList(notifications)]
      ensures Persisted()
      ensures old(storage.WellFormed()) ==> storage.WellFormed()
    {
      notifications := Prepended(notifications, NewNotification(input, id, timestamp));
      Persist();
    }

    method DismissNotification(id: Id)
      modifies this, storage
      ensures notifications == Dismissed(old(notifications), id)
      ensures storage.items == old(storage.items)[NotificationsKey := NotificationList(notifications)]
      ensures Persisted()
      ensures old(storage.WellFormed()) ==> storage.WellFormed()
    {
      notifications := Dismissed(notifications, id);
      Persist();
    }

    method MarkAsRead(id: Id)
      modifies this, storage
      ensures notifications == MarkedRead(old(notifications), id)
      ensures storage.items == old(storage.items)[NotificationsKey := NotificationList(notifications)]
      ensures Persisted()
      ensures old(storage.WellFormed()) ==> storage.WellFormed()
    {
      notifications := MarkedRead(notifications, id);
      Persist();
    }

    /** `getUnreadCount()` on the current list. */
    function GetUnreadCount(): (n: nat)
      reads this
      ensures n <= |notifications|
      ensures n == 0 <==> forall i :: 0 <= i < |notifications| ==> notifications[i].read
    {
      UnreadCount(notifications)
    }
  }
}
