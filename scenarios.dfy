/**
  End-to-end scenarios of the handlers, the socket server and the poller on
  concrete requests, proved by the verifier: what the tables and the
  emission log hold afterwards.
*/
module Scenarios {
  import opened Wrappers
  import opened JsValue
  import opened Tables
  import opened Store
  import opened Gateway
  import opened Poller

  const Today := "2024-02-20"
  const Now := "09:30:00"
  const InterviewDay := "2024-03-01"

  /** No `Date` fallback is needed: every date below is already YYYY-MM-DD. */
  function NoCalendar(v: Value): Option<string> {
    None
  }

  /** User 5 has applied for role 3 without dates or documents (an empty
      cover letter counts as none): application 1, dated today, 'Applied'. */
  method DatabaseWithApplication() returns (db: Database)
    ensures fresh(db) && db.Valid()
    ensures db.applications == map[1 := Application(5, 3, Today, None, Some("Applied"), None, None)]
    ensures db.interviews == [] && db.notifications == []
  {
    db := new Database();
    var three := IntToDecimal(3);
    DecimalRoundTrip(3);
    assert StringToNumber(three) == Int(3);
    assert NormalizeToDate(Null, NoCalendar) == None;
    assert AppliedRow(5, 3, Today, None, None, Some("")) == Application(5, 3, Today, None, Some("Applied"), None, None);
    var reply := db.Apply(three, Some(5), Null, Null, None, Some(""), Today, NoCalendar, Fault.NoFault);
  }

  /** Sessions "A" and "B" are connected; "A" identified as user 5 with the
      number, "B" with its decimal string. */
  method TwoSessionsOfUser5() returns (io: SocketServer)
    ensures fresh(io) && io.sent == []
    ensures Recipients(io.rooms, UserRoom(5)) == {"A", "B"}
  {
    io := new SocketServer();
    io.Connect("A");
    io.Connect("B");
    var byNumber := Obj(map["userID" := Num(Int(5))]);
    var byString := Obj(map["userID" := Str(IntToDecimal(5))]);
    assert Recipients(io.rooms, UserRoom(5)) == {};
    ghost var before := io.rooms;
    io.Identify("A", byNumber);
    IdentifyNumericUser(5);
    JoinsAccumulate(before, "A", byNumber, UserRoom(5));
    before := io.rooms;
    io.Identify("B", byString);
    IdentifyDecimalUser(5);
    JoinsAccumulate(before, "B", byString, UserRoom(5));
  }

  /** A table holding one undelivered notification of an existing
      application yields exactly that row. */
  lemma SelectSingle(n: Notification, apps: map<int, Application>)
    requires !n.delivered && n.applicationID in apps
    ensures SelectPending([n], apps) == [PendingRowOf(1, n, apps)]
  {
    assert [n][..0] == [];
  }

  /** An 'Applied' application gets an interview: its status becomes
      'Interview' and exactly one undelivered notification for it exists. */
  method InterviewForAppliedApplication() returns (db: Database)
    ensures fresh(db) && db.Valid()
    ensures db.applications == map[1 := Application(5, 3, Today, None, Some("Interview"), None, None)]
    ensures db.notifications == [Notification(InterviewNotice(InterviewDay), Today, Now, 1, None, false, false)]
  {
    db := DatabaseWithApplication();
    var reply := db.ScheduleInterview(Some(1), Some(InterviewDay), Some("Online"), None, Today, Now, Fault.NoFault);
  }

  /** The admin rejects application 1 with the status overwrite. */
  method DatabaseWithRejection() returns (db: Database)
    ensures fresh(db) && db.Valid()
    ensures db.applications == map[1 := Application(5, 3, Today, None, Some("Rejected"), None, None)]
    ensures db.interviews == [] && db.notifications == []
  {
    db := DatabaseWithApplication();
    var one := IntToDecimal(1);
    DecimalRoundTrip(1);
    assert StringToNumber(one) == Int(1);
    ghost var before := db.applications;
    var patched := db.UpdateStatus(one, Some("Rejected"), Fault.NoFault);
    assert db.applications == before[1 := before[1].(status := Some("Rejected"))];
  }

  /** The connection is lost at the notification insert of an interview for
      an 'Applied' application: the insert's failure is swallowed, the final
      read fails, so the reply is 500, while the interview row and the status
      change stay and no notification is written. */
  method ConnectionLostAtNotification() returns (reply: Reply<Scheduled>, db: Database)
    ensures reply == ServerError
    ensures db.applications == map[1 := Application(5, 3, Today, None, Some("Interview"), None, None)]
    ensures db.interviews == [Interview(1, InterviewDay, "Online", "Pending")]
    ensures db.notifications == []
  {
    db := DatabaseWithApplication();
    reply := db.ScheduleInterview(Some(1), Some(InterviewDay), Some("Online"), None, Today, Now, FailFrom(4));
  }

  /** A 'Rejected' application keeps its status when an interview is
      scheduled, and the notification is appended all the same. */
  method InterviewForRejectedApplication() returns (status: Option<string>, notes: seq<Notification>)
    ensures status == Some("Rejected")
    ensures notes == [Notification(InterviewNotice(InterviewDay), Today, Now, 1, None, false, false)]
  {
    var db := DatabaseWithRejection();
    var reply := db.ScheduleInterview(Some(1), Some(InterviewDay), Some("Online"), None, Today, Now, Fault.NoFault);
    status := db.applications[1].status;
    notes := db.notifications;
  }

  /** What a tick does to a table holding one undelivered notification of an
      existing application. */
  lemma TickOnSingle(n: Notification, apps: map<int, Application>, rooms: map<SocketId, set<string>>)
    requires !n.delivered && n.applicationID in apps
    ensures var rows := SelectPending([n], apps);
      && MarkDelivered([n], Ids(rows[..Marked(TickFault.NoFault, |rows|)])) == [n.(delivered := true)]
      && Emissions(rows[..Emitted(TickFault.NoFault, |rows|)], rooms) == [EmissionOf(PendingRowOf(1, n, apps), rooms)]
  {
    SelectSingle(n, apps);
    var rows := SelectPending([n], apps);
    assert rows[..1] == rows;
    assert Ids(rows) == {1} by {
      assert rows[0].notificationID == 1;
    }
  }

  /** User 5's notification is pushed to both of user 5's sessions and marked
      delivered. */
  method BothSessionsReceive() returns (sent: seq<Emission>, notes: seq<Notification>)
    ensures |sent| == 1 && sent[0].room == UserRoom(5) && sent[0].recipients == {"A", "B"}
    ensures sent[0].payload == NotificationPayload(1, InterviewNotice(InterviewDay), Today, Now, 1, None)
    ensures notes == [Notification(InterviewNotice(InterviewDay), Today, Now, 1, None, true, false)]
  {
    var io := TwoSessionsOfUser5();
    var db := InterviewForAppliedApplication();
    TickOnSingle(db.notifications[0], db.applications, io.rooms);
    PushPendingNotifications(db, io, TickFault.NoFault);
    sent := io.sent;
    notes := db.notifications;
  }

  /** A tick that finds no undelivered notification (the previous tick
      delivered them all) writes nothing and pushes nothing. */
  method SecondTickIsEmpty() returns (sentBefore: seq<Emission>, sentAfter: seq<Emission>,
                                      notesBefore: seq<Notification>, notesAfter: seq<Notification>)
    ensures sentAfter == sentBefore && notesAfter == notesBefore
    ensures |notesBefore| == 1 && notesBefore[0].delivered
  {
    var io := TwoSessionsOfUser5();
    var db := InterviewForAppliedApplication();
    TickOnSingle(db.notifications[0], db.applications, io.rooms);
    PushPendingNotifications(db, io, TickFault.NoFault);
    sentBefore, notesBefore := io.sent, db.notifications;
    PushPendingNotifications(db, io, TickFault.NoFault);
    sentAfter, notesAfter := io.sent, db.notifications;
  }
}
