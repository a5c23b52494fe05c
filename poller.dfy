/**
  The notification poller's tick: select the undelivered notifications whose
  application still exists, and for each one, in order, emit it to its
  owner's room and then mark it delivered. The whole loop sits in one
  try block, so the first failing query ends the tick.
*/
module Poller {
  import opened Wrappers
  import opened JsValue
  import opened Tables
  import opened Store
  import opened Gateway

  /** Which of the tick's queries throws: the SELECT, or the UPDATE of the
      row at the given position of the selection. */
  datatype TickFault = NoFault | SelectFails | UpdateFails(row: nat)

  /** The payload of a selected row: its six Notification columns; the
      owner's userID is used for the room and not sent. */
  function PayloadOf(r: PendingRow): NotificationPayload {
    NotificationPayload(r.notificationID, r.kind, r.date, r.time, r.applicationID, r.adminID)
  }

  /** What the tick emits for a selected row, given the room memberships. */
  function EmissionOf(r: PendingRow, rooms: map<SocketId, set<string>>): Emission {
    Emission(UserRoom(r.appUserID), PayloadOf(r), Recipients(rooms, UserRoom(r.appUserID)))
  }

  function Emissions(rows: seq<PendingRow>, rooms: map<SocketId, set<string>>): (es: seq<Emission>)
    ensures |es| == |rows|
    ensures forall j | 0 <= j < |rows| :: es[j] == EmissionOf(rows[j], rooms)
  {
    seq(|rows|, j requires 0 <= j < |rows| => EmissionOf(rows[j], rooms))
  }

  /** How many selected rows a tick marks delivered. */
  function Marked(fault: TickFault, selected: nat): (n: nat)
    ensures n <= selected
  {
    if fault.SelectFails? then 0
    else if fault.UpdateFails? && fault.row < selected then fault.row
    else selected
  }

  /** How many selected rows a tick emits: a failing UPDATE comes after its
      row's emit. */
  function Emitted(fault: TickFault, selected: nat): (n: nat)
    ensures Marked(fault, selected) <= n <= selected
    ensures n == Marked(fault, selected) || n == Marked(fault, selected) + 1
  {
    if fault.UpdateFails? && fault.row < selected then fault.row + 1 else Marked(fault, selected)
  }

  /** `pushPendingNotifications`. */
  method PushPendingNotifications(db: Database, io: SocketServer, fault: TickFault)
    requires db.Valid()
    modifies db, io
    ensures db.Valid()
    ensures db.applications == old(db.applications) && db.interviews == old(db.interviews)
    ensures db.nextApplicationID == old(db.nextApplicationID)
    ensures io.rooms == old(io.rooms)
    ensures var rows := SelectPending(old(db.notifications), old(db.applications));
      && db.notifications == MarkDelivered(old(db.notifications), Ids(rows[..Marked(fault, |rows|)]))
      && io.sent == old(io.sent) + Emissions(rows[..Emitted(fault, |rows|)], old(io.rooms))
    ensures fault == TickFault.NoFault ==> SelectPending(db.notifications, db.applications) == []
  {
    if fault.SelectFails? {
      assert db.notifications == MarkDelivered(db.notifications, {});
      return;
    }
    var rows := SelectPending(db.notifications, db.applications);
    if |rows| == 0 {
      assert db.notifications == MarkDelivered(db.notifications, Ids(rows[..0]));
      return;
    }
    ghost var ns0 := db.notifications;
    DeliverRows(db, io, rows, fault);
    if fault == TickFault.NoFault {
      assert rows[..|rows|] == rows;
      SelectionDrained(ns0, db.applications);
    }
  }

  /** The tick's loop over the selected rows: emit, then mark delivered; the
      first failing UPDATE ends it. Before the current row every row is
      emitted and delivered, from it on nothing is touched. */
  method DeliverRows(db: Database, io: SocketServer, rows: seq<PendingRow>, fault: TickFault)
    requires !fault.SelectFails?
    modifies db, io
    ensures db.applications == old(db.applications) && db.interviews == old(db.interviews)
    ensures db.nextApplicationID == old(db.nextApplicationID)
    ensures io.rooms == old(io.rooms)
    ensures db.notifications == MarkDelivered(old(db.notifications), Ids(rows[..Marked(fault, |rows|)]))
    ensures io.sent == old(io.sent) + Emissions(rows[..Emitted(fault, |rows|)], old(io.rooms))
  {
    ghost var ns0, sent0 := db.notifications, io.sent;
    var i := 0;
    var stopped := false;
    assert db.notifications == MarkDelivered(ns0, Ids(rows[..0]));
    while i < |rows| && !stopped
      invariant 0 <= i <= |rows|
      invariant stopped ==> fault == UpdateFails(i) && i < |rows|
      invariant !stopped ==> !(fault.UpdateFails? && fault.row < i)
      invariant db.applications == old(db.applications) && db.interviews == old(db.interviews)
      invariant db.nextApplicationID == old(db.nextApplicationID) && io.rooms == old(io.rooms)
      invariant db.notifications == MarkDelivered(ns0, Ids(rows[..i]))
      invariant io.sent == sent0 + Emissions(rows[..if stopped then i + 1 else i], io.rooms)
      decreases |rows| - i, if stopped then 0 else 1
    {
      EmitRow(io, rows, i, sent0);
      if fault == UpdateFails(i) {
        stopped := true;
      } else {
        MarkRow(db, rows, i, ns0);
        i := i + 1;
      }
    }
  }

  /** `io.to(room).emit('notification', payload)` for the i-th selected row. */
  method EmitRow(io: SocketServer, rows: seq<PendingRow>, i: nat, ghost sent0: seq<Emission>)
    requires i < |rows| && io.sent == sent0 + Emissions(rows[..i], io.rooms)
    modifies io
    ensures io.rooms == old(io.rooms)
    ensures io.sent == sent0 + Emissions(rows[..i + 1], io.rooms)
  {
    var r := rows[i];
    io.Emit(UserRoom(r.appUserID), PayloadOf(r));
    EmissionsSnoc(rows, i, io.rooms);
  }

  /** `UPDATE Notification SET delivered = 1` for the i-th selected row. */
  method MarkRow(db: Database, rows: seq<PendingRow>, i: nat, ghost ns0: seq<Notification>)
    requires i < |rows| && db.notifications == MarkDelivered(ns0, Ids(rows[..i]))
    modifies db
    ensures db.applications == old(db.applications) && db.interviews == old(db.interviews)
    ensures db.nextApplicationID == old(db.nextApplicationID)
    ensures db.notifications == MarkDelivered(ns0, Ids(rows[..i + 1]))
  {
    db.MarkNotificationDelivered(rows[i].notificationID);
    MarkDeliveredStep(ns0, rows, i);
  }

  lemma EmissionsSnoc(rows: seq<PendingRow>, i: nat, rooms: map<SocketId, set<string>>)
    requires i < |rows|
    ensures Emissions(rows[..i + 1], rooms) == Emissions(rows[..i], rooms) + [EmissionOf(rows[i], rooms)]
  {
    assert rows[..i + 1][i] == rows[i];
  }

  lemma MarkDeliveredStep(ns: seq<Notification>, rows: seq<PendingRow>, i: nat)
    requires i < |rows|
    ensures MarkDelivered(MarkDelivered(ns, Ids(rows[..i])), {rows[i].notificationID})
         == MarkDelivered(ns, Ids(rows[..i + 1]))
  {
    assert rows[..i + 1] == rows[..i] + [rows[i]];
    IdsSnoc(rows[..i], rows[i]);
  }

  /* ---------- properties of a tick ---------- */

  /** The payload of every selected row carries the stored notification's
      fields unchanged, and the row's owner, whose room `EmissionOf`
      addresses, is the user of the notification's application. */
  lemma PayloadCopiesStoredRow(ns: seq<Notification>, apps: map<int, Application>, j: nat)
    requires j < |SelectPending(ns, apps)|
    ensures var r := SelectPending(ns, apps)[j];
            && 1 <= r.notificationID <= |ns|
            && var n := ns[r.notificationID - 1];
            && n.applicationID in apps
            && PayloadOf(r) == NotificationPayload(r.notificationID, n.kind, n.date, n.time,
                                                   n.applicationID, n.adminID)
            && r.appUserID == apps[n.applicationID].userID
  {
    SelectPendingSound(ns, apps);
    var r := SelectPending(ns, apps)[j];
    assert 1 <= r.notificationID <= |ns|;
    var n := ns[r.notificationID - 1];
    assert r == PendingRowOf(r.notificationID, n, apps);
  }

  /** Two distinct notifications never produce the same payload. */
  lemma PayloadIdentifiesNotification(a: PendingRow, b: PendingRow)
    requires ToJson(PayloadOf(a)) == ToJson(PayloadOf(b))
    ensures a.(appUserID := 0) == b.(appUserID := 0)
  {
    ToJsonInjective(PayloadOf(a), PayloadOf(b));
  }

  /** The rows a tick marks are selected ones: only the delivered flag of an
      undelivered, joined notification changes; every other field and every
      other row, already delivered ones included, is left as it was. */
  lemma TickOnlyFlipsPending(ns: seq<Notification>, apps: map<int, Application>, count: nat)
    requires count <= |SelectPending(ns, apps)|
    ensures var ns' := MarkDelivered(ns, Ids(SelectPending(ns, apps)[..count]));
      && |ns'| == |ns|
      && forall k | 0 <= k < |ns| ::
           && ns'[k].(delivered := ns[k].delivered) == ns[k]
           && (ns'[k] != ns[k] ==> IsPending(ns[k], apps) && ns'[k].delivered)
  {
    var rows := SelectPending(ns, apps);
    SelectPendingSound(ns, apps);
    forall k | 0 <= k < |ns| && k + 1 in Ids(rows[..count]) ensures IsPending(ns[k], apps) {
      var j :| 0 <= j < count && rows[..count][j].notificationID == k + 1;
      assert rows[j].notificationID == k + 1;
    }
  }

  /** After a tick that fails at the UPDATE of row `d`, that row and every
      later selected row are still undelivered, and are selected again by the
      next tick. */
  lemma RemainingStayPending(ns: seq<Notification>, apps: map<int, Application>, d: nat)
    requires d <= |SelectPending(ns, apps)|
    ensures var rows := SelectPending(ns, apps);
            var ns' := MarkDelivered(ns, Ids(rows[..d]));
            forall j | d <= j < |rows| ::
              && 1 <= rows[j].notificationID <= |ns|
              && IsPending(ns'[rows[j].notificationID - 1], apps)
              && rows[j].notificationID in Ids(SelectPending(ns', apps))
  {
    var rows := SelectPending(ns, apps);
    var ns' := MarkDelivered(ns, Ids(rows[..d]));
    SelectPendingSound(ns, apps);
    SelectPendingAscending(ns, apps);
    SelectPendingComplete(ns', apps);
    forall j | d <= j < |rows|
      ensures rows[j].notificationID !in Ids(rows[..d])
    {
      forall a | 0 <= a < d ensures rows[..d][a].notificationID != rows[j].notificationID {
        assert rows[..d][a] == rows[a];
      }
    }
  }
}
