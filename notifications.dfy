/**
 * The notification helpers: creating and broadcasting rows, marking them
 * read, and the single live realtime channel kept in a module-level slot.
 */
module Notifications {
  import opened Wrappers
  import opened Schema
  import opened Backend

  /** `userIds.map(...)`: one draft per user, in order, all of type info. */
  function BroadcastRows(title: string, message: string, userIds: seq<UserId>): (r: seq<NotificationDraft>)
    ensures |r| == |userIds|
    ensures forall i :: 0 <= i < |r| ==> r[i].userId == userIds[i]
    ensures forall i :: 0 <= i < |r| ==> r[i].title == title && r[i].message == message && r[i].kind == Info
  {
    if userIds == [] then []
    else [NotificationDraft(userIds[0], title, message, Info)] + BroadcastRows(title, message, userIds[1..])
  }

  /** The rows a broadcast stores reach exactly the given users, each once per mention, unread. */
  lemma BroadcastStoresOnePerUser(title: string, message: string, userIds: seq<UserId>, first: nat)
    ensures var rows := Stored(BroadcastRows(title, message, userIds), first);
      && |rows| == |userIds|
      && (forall i :: 0 <= i < |rows| ==> rows[i].userId == userIds[i] && rows[i].id == first + i)
      && (forall i :: 0 <= i < |rows| ==> rows[i].title == title && rows[i].message == message && rows[i].kind == Info && !rows[i].read)
  {
  }

  /** The number of unread notifications of `u`. */
  function UnreadCount(rows: seq<Notification>, u: UserId): nat {
    if rows == [] then 0
    else (if rows[0].userId == u && !rows[0].read then 1 else 0) + UnreadCount(rows[1..], u)
  }

  /** Marking all of `u`'s rows read leaves `u` with no unread notification. */
  lemma {:induction false} MarkAllClearsUnread(rows: seq<Notification>, u: UserId)
    ensures UnreadCount(MarkRead(rows, UnreadOf(u)), u) == 0
    decreases |rows|
  {
    if rows != [] {
      var r := MarkRead(rows, UnreadOf(u));
      assert r[1..] == MarkRead(rows[1..], UnreadOf(u));
      MarkAllClearsUnread(rows[1..], u);
    }
  }

  /** Marking all of `u`'s rows read makes each of them read and changes no other user's row. */
  lemma MarkAllTouchesOnlyUser(rows: seq<Notification>, u: UserId)
    ensures var r := MarkRead(rows, UnreadOf(u));
      && |r| == |rows|
      && (forall i :: 0 <= i < |r| && rows[i].userId == u ==> r[i].read && r[i] == rows[i].(read := true))
      && (forall i :: 0 <= i < |r| && rows[i].userId != u ==> r[i] == rows[i])
  {
  }

  /** Marking one id read sets that row's flag and changes no other row. */
  lemma MarkOneTouchesOnlyId(rows: seq<Notification>, id: nat)
    ensures var r := MarkRead(rows, WithId(id));
      && |r| == |rows|
      && (forall i :: 0 <= i < |r| && rows[i].id == id ==> r[i] == rows[i].(read := true))
      && (forall i :: 0 <= i < |r| && rows[i].id != id ==> r[i] == rows[i])
  {
  }

  /** Marking read is idempotent, for one id and for a user's unread rows alike. */
  lemma MarkReadIdempotent(rows: seq<Notification>, f: RowFilter)
    ensures MarkRead(MarkRead(rows, f), f) == MarkRead(rows, f)
  {
    var once := MarkRead(rows, f);
    var twice := MarkRead(once, f);
    forall i | 0 <= i < |rows| ensures twice[i] == once[i] {
    }
  }

  /** `createNotification`: one row, stored unread under the next id; `ok` is false where it throws. */
  method CreateNotification(db: Database, n: NotificationDraft, accepted: bool) returns (ok: bool)
    modifies db`notifications, db`nextNotificationId
    ensures ok == accepted
    ensures db.notifications == if ok then old(db.notifications) + [Notification(old(db.nextNotificationId), n.userId, n.title, n.message, n.kind, false)] else old(db.notifications)
    ensures db.nextNotificationId == if ok then old(db.nextNotificationId) + 1 else old(db.nextNotificationId)
    ensures old(db.IdsFresh()) ==> db.IdsFresh()
  {
    ok := db.InsertNotifications([n], accepted);
  }

  /** `broadcastNotification`: one insert holding a row for every user id. */
  method BroadcastNotification(db: Database, title: string, message: string, userIds: seq<UserId>, accepted: bool) returns (ok: bool)
    modifies db`notifications, db`nextNotificationId
    ensures ok == accepted
    ensures db.notifications == if ok then old(db.notifications) + Stored(BroadcastRows(title, message, userIds), old(db.nextNotificationId)) else old(db.notifications)
    ensures db.nextNotificationId == if ok then old(db.nextNotificationId) + |userIds| else old(db.nextNotificationId)
    ensures old(db.IdsFresh()) ==> db.IdsFresh()
  {
    ok := db.InsertNotifications(BroadcastRows(title, message, userIds), accepted);
  }

  /** `markAsRead`: `update({ read: true }).eq('id', id)`. */
  method MarkAsRead(db: Database, id: nat, accepted: bool) returns (ok: bool)
    modifies db`notifications
    ensures ok == accepted
    ensures db.notifications == if ok then MarkRead(old(db.notifications), WithId(id)) else old(db.notifications)
    ensures old(db.IdsFresh()) ==> db.IdsFresh()
  {
    ok := db.SetRead(WithId(id), accepted);
  }

  /** `markAllAsRead`: `update({ read: true }).eq('user_id', u).eq('read', false)`. */
  method MarkAllAsRead(db: Database, u: UserId, accepted: bool) returns (ok: bool)
    modifies db`notifications
    ensures ok == accepted
    ensures db.notifications == if ok then MarkRead(old(db.notifications), UnreadOf(u)) else old(db.notifications)
    ensures old(db.IdsFresh()) ==> db.IdsFresh()
    ensures ok ==> UnreadCount(db.notifications, u) == 0
  {
    ok := db.SetRead(UnreadOf(u), accepted);
    if ok {
      MarkAllClearsUnread(old(db.notifications), u);
    }
  }

  /** A realtime `postgres_changes` event. */
  datatype Operation = Insert | Update | Delete
  datatype ChangeEvent = ChangeEvent(op: Operation, table: string, row: Notification)

  /** A channel opened by one call of `subscribeToNotifications`. */
  datatype Channel = Channel(serial: nat, userId: UserId)

  /**
   * The module-level `notificationChannel` slot and the channels the
   * realtime service still has open.
   */
  class NotificationHub {
    var slot: Option<Channel>
    var live: set<nat>
    var issued: nat   // channels opened so far; the next one gets this serial

    /** At most one channel is open, and it is the one in the slot. */
    predicate Valid()
      reads this
    {
      && live == (if slot.Some? then {slot.value.serial} else {})
      && (slot.Some? ==> slot.value.serial < issued)
    }

    constructor ()
      ensures Valid() && slot.None? && live == {} && issued == 0
    {
      slot, live, issued := None, {}, 0;
    }

    /** The notification handed to the callback for `ev`, if any. */
    function Delivered(ev: ChangeEvent): (n: Option<Notification>)
      reads this
      ensures n.Some? <==> slot.Some? && slot.value.serial in live && ev.op == Insert && ev.table == "notifications" && ev.row.userId == slot.value.userId
      ensures n.Some? ==> n.value == ev.row
    {
      if slot.Some? && slot.value.serial in live && ev.op == Insert && ev.table == "notifications" && ev.row.userId == slot.value.userId
      then Some(ev.row) else None
    }

    /**
     * `subscribeToNotifications(userId, ...)`: the channel in the slot, if
     * any, is unsubscribed, and a fresh channel for `userId` takes its place.
     */
    method Subscribe(userId: UserId) returns (ch: Channel)
      requires Valid()
      modifies this
      ensures Valid()
      ensures ch == Channel(old(issued), userId) && slot == Some(ch) && live == {ch.serial}
      ensures old(slot).Some? ==> old(slot).value.serial !in live
      ensures issued == old(issued) + 1
      ensures forall ev :: Delivered(ev).Some? ==> ev.op == Insert && ev.row.userId == userId
    {
      if slot.Some? {
        live := live - {slot.value.serial};
      }
      ch := Channel(issued, userId);
      slot := Some(ch);
      live := live + {ch.serial};
      issued := issued + 1;
    }

    /**
     * The cleanup closure `subscribeToNotifications` returns: it
     * unsubscribes whatever channel the slot holds now and clears the slot;
     * with the slot empty it does nothing.
     */
    method Cleanup()
      requires Valid()
      modifies this`slot, this`live
      ensures Valid() && slot.None? && live == {}
      ensures old(slot).None? ==> live == old(live)
      ensures forall ev :: Delivered(ev).None?
    {
      if slot.Some? {
        live := live - {slot.value.serial};
        slot := None;
      }
    }
  }

  /**
   * The cleanup that a first subscription returned, run after a second
   * subscription, closes the second channel: the slot is shared, so the
   * closure does not remember which channel it was made for.
   */
  method StaleCleanupClosesNewer(a: UserId, b: UserId) returns (second: Channel, liveAfter: set<nat>, slotAfter: Option<Channel>)
    ensures second.userId == b && second.serial !in liveAfter && liveAfter == {} && slotAfter == None
  {
    var hub := new NotificationHub();
    var first := hub.Subscribe(a);
    second := hub.Subscribe(b);
    hub.Cleanup();
    liveAfter, slotAfter := hub.live, hub.slot;
  }
}
