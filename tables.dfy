/**
  The rows of the three tables the core touches (JobApplication, Interview,
  Notification) and the two SELECTs over Notification, as functions of the
  tables: the poller's selection of undelivered rows and the per-user
  notification listing.

  The Notification table is a sequence: the row with notificationID k
  (auto-increment, starting at 1, never deleted) is at index k - 1.
*/
module Tables {
  import opened Wrappers

  /** A JobApplication row (role, user and company tables are not modelled). */
  datatype Application = Application(
    userID: int,
    roleID: int,
    applicationDate: string,
    deadline: Option<string>,
    status: Option<string>,
    resume: Option<string>,
    coverLetter: Option<string>)

  /** An Interview row; its interviewID is its position in the table plus one. */
  datatype Interview = Interview(applicationID: int, interviewDate: string, interviewMode: string, result: string)

  /** A Notification row; `kind` is the `type` column. */
  datatype Notification = Notification(
    kind: string,
    date: string,
    time: string,
    applicationID: int,
    adminID: Option<int>,
    delivered: bool,
    isRead: bool)

  /* ---------- the poller's SELECT ---------- */

  /** A row of `Notification n JOIN JobApplication a ON n.applicationID = a.applicationID
      WHERE n.delivered = 0`. */
  datatype PendingRow = PendingRow(
    notificationID: int,
    kind: string,
    date: string,
    time: string,
    applicationID: int,
    adminID: Option<int>,
    appUserID: int)

  /** The poller selects a notification when it is undelivered and the inner
      join finds its application. */
  predicate IsPending(n: Notification, apps: map<int, Application>) {
    !n.delivered && n.applicationID in apps
  }

  function PendingRowOf(id: int, n: Notification, apps: map<int, Application>): PendingRow
    requires n.applicationID in apps
  {
    PendingRow(id, n.kind, n.date, n.time, n.applicationID, n.adminID, apps[n.applicationID].userID)
  }

  function Ids(rows: seq<PendingRow>): set<int> {
    set j | 0 <= j < |rows| :: rows[j].notificationID
  }

  lemma IdsSnoc(rows: seq<PendingRow>, r: PendingRow)
    ensures Ids(rows + [r]) == Ids(rows) + {r.notificationID}
  {
    var all := rows + [r];
    assert all[|rows|] == r;
    forall id | id in Ids(rows) ensures id in Ids(all) {
      var j :| 0 <= j < |rows| && rows[j].notificationID == id;
      assert all[j] == rows[j];
    }
  }

  /** The poller's selection, in ascending notificationID order (the SQL has
      no ORDER BY; this fixes one order). */
  function SelectPending(ns: seq<Notification>, apps: map<int, Application>): seq<PendingRow>
    decreases |ns|
  {
    if ns == [] then []
    else
      var front := SelectPending(ns[..|ns| - 1], apps);
      var last := ns[|ns| - 1];
      if IsPending(last, apps) then front + [PendingRowOf(|ns|, last, apps)] else front
  }

  /** Each selected row is the join of an undelivered notification with its
      existing application, its fields copied from the stored row. */
  lemma {:induction false} SelectPendingSound(ns: seq<Notification>, apps: map<int, Application>)
    ensures forall j | 0 <= j < |SelectPending(ns, apps)| ::
      var r := SelectPending(ns, apps)[j];
      && 1 <= r.notificationID <= |ns|
      && IsPending(ns[r.notificationID - 1], apps)
      && r == PendingRowOf(r.notificationID, ns[r.notificationID - 1], apps)
    decreases |ns|
  {
    if ns != [] {
      var front := ns[..|ns| - 1];
      SelectPendingSound(front, apps);
      var rows := SelectPending(ns, apps);
      forall j | 0 <= j < |rows|
        ensures 1 <= rows[j].notificationID <= |ns|
        ensures IsPending(ns[rows[j].notificationID - 1], apps)
        ensures rows[j] == PendingRowOf(rows[j].notificationID, ns[rows[j].notificationID - 1], apps)
      {
        if j < |SelectPending(front, apps)| {
          assert rows[j] == SelectPending(front, apps)[j];
          assert ns[rows[j].notificationID - 1] == front[rows[j].notificationID - 1];
        }
      }
    }
  }

  /** The selection lists notificationIDs in strictly ascending order, so no
      notification is selected twice. */
  lemma {:induction false} SelectPendingAscending(ns: seq<Notification>, apps: map<int, Application>)
    ensures forall a, b | 0 <= a < b < |SelectPending(ns, apps)| ::
      SelectPending(ns, apps)[a].notificationID < SelectPending(ns, apps)[b].notificationID
    decreases |ns|
  {
    if ns != [] {
      var front := ns[..|ns| - 1];
      SelectPendingAscending(front, apps);
      SelectPendingSound(front, apps);
    }
  }

  /** Every undelivered notification whose application exists is selected,
      and nothing else is. */
  lemma {:induction false} SelectPendingComplete(ns: seq<Notification>, apps: map<int, Application>)
    ensures forall k | 0 <= k < |ns| :: IsPending(ns[k], apps) <==> k + 1 in Ids(SelectPending(ns, apps))
    decreases |ns|
  {
    SelectPendingSound(ns, apps);
    if ns != [] {
      var front := ns[..|ns| - 1];
      SelectPendingComplete(front, apps);
      var rows := SelectPending(ns, apps);
      var frontRows := SelectPending(front, apps);
      if IsPending(ns[|ns| - 1], apps) {
        IdsSnoc(frontRows, PendingRowOf(|ns|, ns[|ns| - 1], apps));
      }
      assert Ids(frontRows) <= Ids(rows);
      forall k | 0 <= k < |ns| && IsPending(ns[k], apps) ensures k + 1 in Ids(rows) {
        if k < |front| {
          assert front[k] == ns[k];
        }
      }
    }
  }

  /** The Notification table after `UPDATE Notification SET delivered = 1` for
      every notificationID in `ids`. */
  function MarkDelivered(ns: seq<Notification>, ids: set<int>): seq<Notification> {
    seq(|ns|, k requires 0 <= k < |ns| => if k + 1 in ids then ns[k].(delivered := true) else ns[k])
  }

  /** Marking every selected row delivered leaves nothing for the next
      selection. */
  lemma SelectionDrained(ns: seq<Notification>, apps: map<int, Application>)
    ensures SelectPending(MarkDelivered(ns, Ids(SelectPending(ns, apps))), apps) == []
  {
    var ns' := MarkDelivered(ns, Ids(SelectPending(ns, apps)));
    SelectPendingComplete(ns, apps);
    assert forall k | 0 <= k < |ns'| :: !IsPending(ns'[k], apps);
    NothingPendingNothingSelected(ns', apps);
  }

  /** With no undelivered joined notification the poller selects nothing, so
      its tick emits nothing and writes nothing. */
  lemma {:induction false} NothingPendingNothingSelected(ns: seq<Notification>, apps: map<int, Application>)
    requires forall k | 0 <= k < |ns| :: !IsPending(ns[k], apps)
    ensures SelectPending(ns, apps) == []
    decreases |ns|
  {
    if ns != [] {
      NothingPendingNothingSelected(ns[..|ns| - 1], apps);
    }
  }

  /** Deleting an application removes its notifications from every later
      selection, whatever their delivered flag. */
  lemma DeletedApplicationNotSelected(ns: seq<Notification>, apps: map<int, Application>, id: int)
    ensures forall j | 0 <= j < |SelectPending(ns, apps - {id})| ::
      SelectPending(ns, apps - {id})[j].applicationID != id
  {
    SelectPendingSound(ns, apps - {id});
  }

  /* ---------- GET /api/notifications/:userID ---------- */

  /** A row of the per-user listing (roleTitle and companyName are not modelled). */
  datatype ListedNotification = ListedNotification(
    notificationID: int,
    kind: string,
    date: string,
    time: string,
    applicationID: int,
    adminID: Option<int>,
    appUserID: int,
    delivered: bool,
    isRead: bool)

  /** `WHERE a.userID = ?` over the left join: the application must exist and
      belong to the user. */
  predicate OwnedBy(n: Notification, apps: map<int, Application>, uid: int) {
    n.applicationID in apps && apps[n.applicationID].userID == uid
  }

  function ListedOf(id: int, n: Notification, apps: map<int, Application>): ListedNotification
    requires n.applicationID in apps
  {
    ListedNotification(id, n.kind, n.date, n.time, n.applicationID, n.adminID,
                       apps[n.applicationID].userID, n.delivered, n.isRead)
  }

  function ListedIds(rows: seq<ListedNotification>): set<int> {
    set j | 0 <= j < |rows| :: rows[j].notificationID
  }

  lemma ListedIdsCons(r: ListedNotification, rows: seq<ListedNotification>)
    ensures ListedIds([r] + rows) == {r.notificationID} + ListedIds(rows)
  {
    var all := [r] + rows;
    assert all[0] == r;
    forall id | id in ListedIds(rows) ensures id in ListedIds(all) {
      var j :| 0 <= j < |rows| && rows[j].notificationID == id;
      assert all[j + 1] == rows[j];
    }
  }

  /** The user's notifications, newest first (`ORDER BY n.notificationID DESC`),
      delivered or not. */
  function NotificationsOf(ns: seq<Notification>, apps: map<int, Application>, uid: int): seq<ListedNotification>
    decreases |ns|
  {
    if ns == [] then []
    else
      var rest := NotificationsOf(ns[..|ns| - 1], apps, uid);
      var last := ns[|ns| - 1];
      if OwnedBy(last, apps, uid) then [ListedOf(|ns|, last, apps)] + rest else rest
  }

  /** Each listed row is a notification of an existing application of the
      user, with its stored values, including `delivered` and `isRead`. */
  lemma {:induction false} NotificationsOfSound(ns: seq<Notification>, apps: map<int, Application>, uid: int)
    ensures forall j | 0 <= j < |NotificationsOf(ns, apps, uid)| ::
      var r := NotificationsOf(ns, apps, uid)[j];
      && 1 <= r.notificationID <= |ns|
      && OwnedBy(ns[r.notificationID - 1], apps, uid)
      && r == ListedOf(r.notificationID, ns[r.notificationID - 1], apps)
    decreases |ns|
  {
    if ns != [] {
      var front := ns[..|ns| - 1];
      NotificationsOfSound(front, apps, uid);
      var rows := NotificationsOf(ns, apps, uid);
      var rest := NotificationsOf(front, apps, uid);
      var off := |rows| - |rest|;
      forall j | 0 <= j < |rows|
        ensures 1 <= rows[j].notificationID <= |ns|
        ensures OwnedBy(ns[rows[j].notificationID - 1], apps, uid)
        ensures rows[j] == ListedOf(rows[j].notificationID, ns[rows[j].notificationID - 1], apps)
      {
        if j >= off {
          assert rows[j] == rest[j - off];
          assert ns[rows[j].notificationID - 1] == front[rows[j].notificationID - 1];
        }
      }
    }
  }

  /** The listing is in strictly descending notificationID order. */
  lemma {:induction false} NotificationsOfDescending(ns: seq<Notification>, apps: map<int, Application>, uid: int)
    ensures forall a, b | 0 <= a < b < |NotificationsOf(ns, apps, uid)| ::
      NotificationsOf(ns, apps, uid)[a].notificationID > NotificationsOf(ns, apps, uid)[b].notificationID
    decreases |ns|
  {
    if ns != [] {
      var front := ns[..|ns| - 1];
      NotificationsOfDescending(front, apps, uid);
      NotificationsOfSound(front, apps, uid);
    }
  }

  /** Every notification of an existing application of the user is listed,
      and nothing else is. */
  lemma {:induction false} NotificationsOfComplete(ns: seq<Notification>, apps: map<int, Application>, uid: int)
    ensures forall k | 0 <= k < |ns| :: OwnedBy(ns[k], apps, uid) <==> k + 1 in ListedIds(NotificationsOf(ns, apps, uid))
    decreases |ns|
  {
    NotificationsOfSound(ns, apps, uid);
    if ns != [] {
      var front := ns[..|ns| - 1];
      NotificationsOfComplete(front, apps, uid);
      var rows := NotificationsOf(ns, apps, uid);
      var rest := NotificationsOf(front, apps, uid);
      if OwnedBy(ns[|ns| - 1], apps, uid) {
        ListedIdsCons(ListedOf(|ns|, ns[|ns| - 1], apps), rest);
      }
      assert ListedIds(rest) <= ListedIds(rows);
      forall k | 0 <= k < |ns| && OwnedBy(ns[k], apps, uid) ensures k + 1 in ListedIds(rows) {
        if k < |front| {
          assert front[k] == ns[k];
        }
      }
    }
  }

  lemma MarkDeliveredPrefix(ns: seq<Notification>, ids: set<int>)
    requires ns != []
    ensures MarkDelivered(ns, ids)[..|ns| - 1] == MarkDelivered(ns[..|ns| - 1], ids)
  {
  }

  /** Delivery never hides a notification from its owner's listing: the
      listing after marking lists the same rows, only with `delivered` set on
      the marked ones. */
  lemma {:induction false} ListingKeepsDelivered(ns: seq<Notification>, apps: map<int, Application>, uid: int, ids: set<int>)
    ensures |NotificationsOf(MarkDelivered(ns, ids), apps, uid)| == |NotificationsOf(ns, apps, uid)|
    ensures forall j | 0 <= j < |NotificationsOf(ns, apps, uid)| ::
      var before := NotificationsOf(ns, apps, uid)[j];
      NotificationsOf(MarkDelivered(ns, ids), apps, uid)[j]
        == before.(delivered := before.delivered || before.notificationID in ids)
    decreases |ns|
  {
    if ns != [] {
      MarkDeliveredPrefix(ns, ids);
      ListingKeepsDelivered(ns[..|ns| - 1], apps, uid, ids);
    }
  }
}
