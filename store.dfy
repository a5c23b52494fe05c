/**
  The back end's REST handlers that write the JobApplication, Interview and
  Notification tables, as methods of one in-memory `Database`. Each SQL
  statement is an update of the corresponding field; `runQuery` failures
  are a `Fault` parameter naming which of the handler's queries (counted
  from 0, in the order the handler issues them) throw.
*/
module Store {
  import opened Wrappers
  import opened JsValue
  import ApplicationStatus
  import opened Tables

  /** Which of a handler's queries throw: none, only the one numbered
      `query` (a transient error), or that one and every later one (the
      connection is lost). */
  datatype Fault = NoFault | FailAt(query: nat) | FailFrom(query: nat)

  /** Query `q` of the handler throws under `fault`. */
  predicate Fails(fault: Fault, q: nat) {
    match fault
    case NoFault => false
    case FailAt(k) => q == k
    case FailFrom(k) => q >= k
  }

  /** A handler's response: 400 with its message, 500, or a JSON body. */
  datatype Reply<T> = BadRequest(error: string) | ServerError | Ok(body: T)

  /** The body of a successful `POST /api/interviews`. */
  datatype Scheduled = Scheduled(interviewID: int, interview: Interview, application: Option<Application>)

  /** A request-body text field is truthy: present and not ''. */
  predicate Present(t: Option<string>) {
    t.Some? && t.value != ""
  }

  /** A request-body identifier is truthy: present and not 0. */
  predicate PresentId(i: Option<int>) {
    i.Some? && i.value != 0
  }

  /** `field || fallback` on a request-body text field. */
  function TextOr(t: Option<string>, fallback: string): (r: string)
    ensures Present(t) ==> r == t.value
    ensures !Present(t) ==> r == fallback
  {
    if Present(t) then t.value else fallback
  }

  /** `Number(req.params.x)` is truthy. */
  predicate TruthyNumber(n: Number) {
    n.Int? && n.i != 0
  }

  /** The type text of the notification an interview creates. */
  function InterviewNotice(interviewDate: string): string {
    "Interview scheduled on " + interviewDate
  }

  /** Position, among the interview handler's queries, of the notification
      insert: after the interview insert, the two reads and the status update
      when the guard issues one. */
  function NotificationQuery(overrides: bool): nat {
    if overrides then 4 else 3
  }

  /** Position of the interview handler's final read of the application. */
  function FinalQuery(found: bool, overrides: bool): nat {
    if found then NotificationQuery(overrides) + 1 else 3
  }

  /* ---------- POST /api/jobs/:roleID/apply: dates and the INSERT ---------- */

  /** The `^\d{4}-\d{2}-\d{2}` test on a string of at least ten characters. */
  predicate HasDatePrefix(s: string) {
    && |s| >= 10
    && IsDigit(s[0]) && IsDigit(s[1]) && IsDigit(s[2]) && IsDigit(s[3]) && s[4] == '-'
    && IsDigit(s[5]) && IsDigit(s[6]) && s[7] == '-' && IsDigit(s[8]) && IsDigit(s[9])
  }

  /** `normalizeToDate`: null for a falsy value, the first ten characters of a
      string that starts like YYYY-MM-DD, and otherwise whatever the `Date`
      fallback (`calendarDate`, not modelled) gives. */
  function NormalizeToDate(val: Value, calendarDate: Value -> Option<string>): (r: Option<string>)
    ensures !Truthy(val) ==> r == None
    ensures val.Str? && HasDatePrefix(val.s) ==> r.Some? && |r.value| == 10 && HasDatePrefix(r.value)
    ensures val.Str? && HasDatePrefix(val.s) ==> val.s == r.value + val.s[10..]
  {
    if !Truthy(val) then None
    else if val.Str? && HasDatePrefix(val.s) then Some(val.s[..10])
    else calendarDate(val)
  }

  /** A normalized date string is normalized to itself. */
  lemma NormalizeToDateIdempotent(s: string, calendarDate: Value -> Option<string>)
    requires HasDatePrefix(s)
    ensures NormalizeToDate(Str(NormalizeToDate(Str(s), calendarDate).value), calendarDate)
         == NormalizeToDate(Str(s), calendarDate)
  {
    var d := s[..10];
    assert NormalizeToDate(Str(s), calendarDate) == Some(d);
    assert d[..10] == d;
  }

  /** `normalizeToDate(applicationDate) || today`. */
  function ApplicationDate(normalized: Option<string>, today: string): (r: string)
    ensures normalized.Some? && normalized.value != "" ==> r == normalized.value
    ensures normalized.None? ==> r == today
  {
    if normalized.Some? && normalized.value != "" then normalized.value else today
  }

  /** An item of a VALUES list. */
  datatype SqlValue = Placeholder | Literal(text: string)

  /** A bound parameter. */
  datatype SqlParam = PInt(i: int) | PText(s: string) | PNull

  /** `INSERT INTO t (columns) VALUES (values)` executed with `params`. */
  datatype Insert = Insert(columns: seq<string>, values: seq<SqlValue>, params: seq<SqlParam>)

  function Placeholders(vs: seq<SqlValue>): nat
    decreases |vs|
  {
    if vs == [] then 0 else (if vs[0].Placeholder? then 1 else 0) + Placeholders(vs[1..])
  }

  lemma {:induction false} PlaceholdersAppend(a: seq<SqlValue>, b: seq<SqlValue>)
    ensures Placeholders(a + b) == Placeholders(a) + Placeholders(b)
    decreases |a|
  {
    if a != [] {
      assert (a + b)[0] == a[0];
      assert (a + b)[1..] == a[1..] + b;
      PlaceholdersAppend(a[1..], b);
    } else {
      assert a + b == b;
    }
  }

  function OptionalText(t: Option<string>): SqlParam {
    if t.Some? then PText(t.value) else PNull
  }

  /** The optional part of the column list, of the VALUES list and of the
      parameters: one entry each for a truthy resume, then for a truthy cover
      letter. */
  function Extra<T>(resume: Option<string>, coverLetter: Option<string>, forResume: T, forCover: T): (r: seq<T>)
    ensures |r| == (if Present(resume) then 1 else 0) + (if Present(coverLetter) then 1 else 0)
  {
    (if Present(resume) then [forResume] else []) + (if Present(coverLetter) then [forCover] else [])
  }

  /** The apply handler's INSERT. Columns and VALUES items pair up; the fifth
      pair is the literal status 'Applied'; every other item is a placeholder,
      bound in order to the parameters, so the k-th column (k > 4) takes the
      (k-1)-th parameter: a truthy resume and cover letter each add a column,
      a placeholder and a parameter together. */
  function ApplyInsert(userID: int, roleID: int, appDate: string, deadline: Option<string>,
                       resume: Option<string>, coverLetter: Option<string>): (st: Insert)
    ensures |st.columns| == |st.values| == |st.params| + 1
    ensures Placeholders(st.values) == |st.params|
    ensures |st.params| == 4 + (if Present(resume) then 1 else 0) + (if Present(coverLetter) then 1 else 0)
    ensures st.columns[4] == "status" && st.values[4] == Literal("Applied")
  {
    var fixedValues := [Placeholder, Placeholder, Placeholder, Placeholder, Literal("Applied")];
    var extraValues := Extra(resume, coverLetter, Placeholder, Placeholder);
    PlaceholdersAppend(fixedValues, extraValues);
    PlaceholdersAppend(if Present(resume) then [Placeholder] else [], if Present(coverLetter) then [Placeholder] else []);
    Insert(
      ["userID", "roleID", "applicationDate", "deadline", "status"] + Extra(resume, coverLetter, "resume", "coverLetter"),
      fixedValues + extraValues,
      [PInt(userID), PInt(roleID), PText(appDate), OptionalText(deadline)]
        + Extra(resume, coverLetter, PText(resume.GetOr("")), PText(coverLetter.GetOr(""))))
  }

  /** Every VALUES item but the status literal is a placeholder. */
  lemma ApplyInsertPlaceholders(userID: int, roleID: int, appDate: string, deadline: Option<string>,
                                resume: Option<string>, coverLetter: Option<string>)
    ensures var st := ApplyInsert(userID, roleID, appDate, deadline, resume, coverLetter);
      forall k | 0 <= k < |st.values| && k != 4 :: st.values[k] == Placeholder
  {
  }

  /** The four fixed placeholders take the user, the role and the two dates. */
  lemma ApplyInsertFixedColumns(userID: int, roleID: int, appDate: string, deadline: Option<string>,
                                resume: Option<string>, coverLetter: Option<string>)
    ensures var st := ApplyInsert(userID, roleID, appDate, deadline, resume, coverLetter);
      && st.columns[..4] == ["userID", "roleID", "applicationDate", "deadline"]
      && st.params[..4] == [PInt(userID), PInt(roleID), PText(appDate), OptionalText(deadline)]
  {
  }

  /** A resume or cover letter column is present exactly when the request
      carried a truthy one, and its placeholder takes that text. */
  lemma ApplyInsertOptionalColumns(userID: int, roleID: int, appDate: string, deadline: Option<string>,
                                   resume: Option<string>, coverLetter: Option<string>)
    ensures var st := ApplyInsert(userID, roleID, appDate, deadline, resume, coverLetter);
      && ("resume" in st.columns <==> Present(resume))
      && ("coverLetter" in st.columns <==> Present(coverLetter))
      && forall k | 5 <= k < |st.columns| ::
           && (st.columns[k] == "resume" ==> st.params[k - 1] == PText(resume.value))
           && (st.columns[k] == "coverLetter" ==> st.params[k - 1] == PText(coverLetter.value))
  {
  }

  /** The row the apply handler's INSERT stores: status 'Applied', and a
      resume or cover letter only when the request carried a truthy one. */
  function AppliedRow(userID: int, roleID: int, appDate: string, deadline: Option<string>,
                      resume: Option<string>, coverLetter: Option<string>): (app: Application)
    ensures app.status == Some("Applied")
    ensures app.resume.Some? <==> Present(resume)
    ensures app.coverLetter.Some? <==> Present(coverLetter)
    ensures app.resume.Some? ==> app.resume == resume
    ensures app.coverLetter.Some? ==> app.coverLetter == coverLetter
  {
    Application(userID, roleID, appDate, deadline, Some("Applied"),
                if Present(resume) then resume else None,
                if Present(coverLetter) then coverLetter else None)
  }

  /** The stored row holds what the INSERT binds: a resume or cover letter
      exactly when its column is in the statement, with the bound text. */
  lemma AppliedRowMatchesInsert(userID: int, roleID: int, appDate: string, deadline: Option<string>,
                                resume: Option<string>, coverLetter: Option<string>)
    ensures var st := ApplyInsert(userID, roleID, appDate, deadline, resume, coverLetter);
            var app := AppliedRow(userID, roleID, appDate, deadline, resume, coverLetter);
      && (app.resume.Some? <==> "resume" in st.columns)
      && (app.coverLetter.Some? <==> "coverLetter" in st.columns)
      && forall k | 5 <= k < |st.columns| ::
           && (st.columns[k] == "resume" ==> st.params[k - 1] == PText(app.resume.value))
           && (st.columns[k] == "coverLetter" ==> st.params[k - 1] == PText(app.coverLetter.value))
  {
    ApplyInsertOptionalColumns(userID, roleID, appDate, deadline, resume, coverLetter);
  }

  /* ---------- the tables ---------- */

  class Database {
    var applications: map<int, Application>
    var interviews: seq<Interview>
    var notifications: seq<Notification>
    /** The JobApplication auto-increment counter. */
    var nextApplicationID: int

    ghost predicate Valid()
      reads this
    {
      && 1 <= nextApplicationID
      && forall id | id in applications :: 1 <= id < nextApplicationID
    }

    constructor ()
      ensures Valid()
      ensures applications == map[] && interviews == [] && notifications == [] && nextApplicationID == 1
    {
      applications := map[];
      interviews := [];
      notifications := [];
      nextApplicationID := 1;
    }

    /** `POST /api/interviews`. */
    method ScheduleInterview(applicationID: Option<int>, interviewDate: Option<string>,
                             interviewMode: Option<string>, result: Option<string>,
                             today: string, now: string, fault: Fault)
      returns (reply: Reply<Scheduled>)
      requires Valid()
      modifies this
      ensures Valid() && nextApplicationID == old(nextApplicationID)
      ensures !(PresentId(applicationID) && Present(interviewDate) && Present(interviewMode)) ==>
        && reply == BadRequest("applicationID, interviewDate and interviewMode required")
        && applications == old(applications) && interviews == old(interviews)
        && notifications == old(notifications)
      ensures PresentId(applicationID) && Present(interviewDate) && Present(interviewMode) ==>
        var id := applicationID.value;
        var row := Interview(id, interviewDate.value, interviewMode.value, TextOr(result, "Pending"));
        var found := id in old(applications);
        var overrides := found && ApplicationStatus.InterviewOverrides(ApplicationStatus.CurrentStatus(old(applications)[id].status));
        var readsDone := !Fails(fault, 0) && !Fails(fault, 1) && !Fails(fault, 2);
        var statusWritten := readsDone && overrides && !Fails(fault, 3);
        var notified := readsDone && found && (!overrides || !Fails(fault, 3))
                        && !Fails(fault, NotificationQuery(overrides));
        && interviews == (if Fails(fault, 0) then old(interviews) else old(interviews) + [row])
        && applications == (if statusWritten
                             then old(applications)[id := old(applications)[id].(status := Some("Interview"))]
                             else old(applications))
        && notifications == (if notified
                             then old(notifications) + [Notification(InterviewNotice(interviewDate.value),
                                                                     today, now, id, None, false, false)]
                             else old(notifications))
        && (reply.Ok? <==> readsDone && !(overrides && Fails(fault, 3))
                           && !Fails(fault, FinalQuery(found, overrides)))
        && (reply.Ok? ==> reply.body == Scheduled(|old(interviews)| + 1, row,
                                                  if found then Some(applications[id]) else None))
        && (!reply.Ok? ==> reply == ServerError)
      ensures fault == NoFault && applicationID.Some? && applicationID.value in old(applications) ==>
        && applicationID.value in applications
        && ApplicationStatus.CurrentStatus(applications[applicationID.value].status)
           == (if PresentId(applicationID) && Present(interviewDate) && Present(interviewMode)
               then ApplicationStatus.StatusAfterInterview(ApplicationStatus.CurrentStatus(old(applications)[applicationID.value].status))
               else ApplicationStatus.CurrentStatus(old(applications)[applicationID.value].status))
    {
      if !(PresentId(applicationID) && Present(interviewDate) && Present(interviewMode)) {
        return BadRequest("applicationID, interviewDate and interviewMode required");
      }
      var id, date, mode := applicationID.value, interviewDate.value, interviewMode.value;
      // query 0: INSERT INTO Interview
      if Fails(fault, 0) { return ServerError; }
      var row := Interview(id, date, mode, TextOr(result, "Pending"));
      interviews := interviews + [row];
      var interviewID := |interviews|;
      // queries 1 and 2: read back the interview, read the application's status
      if Fails(fault, 1) || Fails(fault, 2) { return ServerError; }
      var found := id in applications;
      var overrides := false;
      if found {
        overrides := ApplicationStatus.InterviewOverrides(ApplicationStatus.CurrentStatus(applications[id].status));
        if overrides {
          // query 3: UPDATE JobApplication SET status = 'Interview'
          if Fails(fault, 3) { return ServerError; }
          applications := applications[id := applications[id].(status := Some("Interview"))];
        }
        // the notification insert; its failure is swallowed
        if !Fails(fault, NotificationQuery(overrides)) {
          notifications := notifications + [Notification(InterviewNotice(date), today, now, id, None, false, false)];
        }
      }
      // the final read of the application
      if Fails(fault, FinalQuery(found, overrides)) { return ServerError; }
      reply := Ok(Scheduled(interviewID, row, if found then Some(applications[id]) else None));
    }

    /** `PATCH /api/applications/:id`: the admin's unguarded status overwrite. */
    method UpdateStatus(idParam: string, status: Option<string>, fault: Fault)
      returns (reply: Reply<Option<Application>>)
      requires Valid()
      modifies this
      ensures Valid() && nextApplicationID == old(nextApplicationID)
      ensures interviews == old(interviews) && notifications == old(notifications)
      ensures !(TruthyNumber(StringToNumber(idParam)) && Present(status)) ==>
        reply == BadRequest("applicationID and status required") && applications == old(applications)
      ensures TruthyNumber(StringToNumber(idParam)) && Present(status) ==>
        var id := StringToNumber(idParam).i;
        && applications == (if !Fails(fault, 0) && id in old(applications)
                            then old(applications)[id := old(applications)[id].(status := Some(status.value))]
                            else old(applications))
        && (reply.Ok? <==> !Fails(fault, 0) && !Fails(fault, 1))
        && (reply.Ok? ==> reply.body == if id in applications then Some(applications[id]) else None)
        && (!reply.Ok? ==> reply == ServerError)
    {
      var n := StringToNumber(idParam);
      if !(TruthyNumber(n) && Present(status)) {
        return BadRequest("applicationID and status required");
      }
      var id := n.i;
      if Fails(fault, 0) { return ServerError; }
      if id in applications {
        applications := applications[id := applications[id].(status := Some(status.value))];
      }
      if Fails(fault, 1) { return ServerError; }
      reply := Ok(if id in applications then Some(applications[id]) else None);
    }

    /** `DELETE /api/applications/:id`. The application's interviews and
        notifications stay in their tables. */
    method DeleteApplication(idParam: string, fault: Fault) returns (reply: Reply<()>)
      requires Valid()
      modifies this
      ensures Valid() && nextApplicationID == old(nextApplicationID)
      ensures interviews == old(interviews) && notifications == old(notifications)
      ensures !TruthyNumber(StringToNumber(idParam)) ==>
        reply == BadRequest("applicationID required") && applications == old(applications)
      ensures TruthyNumber(StringToNumber(idParam)) ==>
        && applications == (if Fails(fault, 0) then old(applications)
                            else old(applications) - {StringToNumber(idParam).i})
        && reply == (if Fails(fault, 0) then ServerError else Ok(()))
    {
      var n := StringToNumber(idParam);
      if !TruthyNumber(n) {
        return BadRequest("applicationID required");
      }
      if Fails(fault, 0) { return ServerError; }
      applications := applications - {n.i};
      reply := Ok(());
    }

    /** `POST /api/jobs/:roleID/apply`. `calendarDate` stands for the `Date`
        fallback of `normalizeToDate`; `today` for the current date. */
    method Apply(roleParam: string, userID: Option<int>, applicationDate: Value, deadline: Value,
                 resume: Option<string>, coverLetter: Option<string>,
                 today: string, calendarDate: Value -> Option<string>, fault: Fault)
      returns (reply: Reply<(int, Application)>)
      requires Valid()
      modifies this
      ensures Valid()
      ensures interviews == old(interviews) && notifications == old(notifications)
      ensures !(TruthyNumber(StringToNumber(roleParam)) && PresentId(userID)) ==>
        && reply == BadRequest("roleID and userID are required")
        && applications == old(applications) && nextApplicationID == old(nextApplicationID)
      ensures TruthyNumber(StringToNumber(roleParam)) && PresentId(userID) ==>
        var id := old(nextApplicationID);
        var app := AppliedRow(userID.value, StringToNumber(roleParam).i,
                              ApplicationDate(NormalizeToDate(applicationDate, calendarDate), today),
                              NormalizeToDate(deadline, calendarDate), resume, coverLetter);
        && id !in old(applications)
        && applications == (if Fails(fault, 0) then old(applications) else old(applications)[id := app])
        && nextApplicationID == (if Fails(fault, 0) then id else id + 1)
        && reply == (if Fails(fault, 0) || Fails(fault, 1) then ServerError else Ok((id, app)))
    {
      var roleID := StringToNumber(roleParam);
      if !(TruthyNumber(roleID) && PresentId(userID)) {
        return BadRequest("roleID and userID are required");
      }
      var appDate := ApplicationDate(NormalizeToDate(applicationDate, calendarDate), today);
      var deadlineDate := NormalizeToDate(deadline, calendarDate);
      reply := InsertApplication(AppliedRow(userID.value, roleID.i, appDate, deadlineDate, resume, coverLetter), fault);
    }

    /** The apply handler's two queries: the INSERT built by ApplyInsert,
        which takes the next auto-increment id, and the read-back. */
    method InsertApplication(app: Application, fault: Fault) returns (reply: Reply<(int, Application)>)
      requires Valid()
      modifies this
      ensures Valid()
      ensures interviews == old(interviews) && notifications == old(notifications)
      ensures old(nextApplicationID) !in old(applications)
      ensures applications == (if Fails(fault, 0) then old(applications)
                               else old(applications)[old(nextApplicationID) := app])
      ensures nextApplicationID == (if Fails(fault, 0) then old(nextApplicationID) else old(nextApplicationID) + 1)
      ensures reply == (if Fails(fault, 0) || Fails(fault, 1) then ServerError
                        else Ok((old(nextApplicationID), app)))
    {
      // query 0: the INSERT
      if Fails(fault, 0) { return ServerError; }
      var id := nextApplicationID;
      applications := applications[id := app];
      nextApplicationID := nextApplicationID + 1;
      // query 1: read the row back
      if Fails(fault, 1) { return ServerError; }
      reply := Ok((id, app));
    }

    /** `POST /api/notifications`: a manual notification, undelivered and
        unread. The application is not required to exist. */
    method InsertNotification(kind: Option<string>, date: Option<string>, time: Option<string>,
                              applicationID: Option<int>, adminID: Option<int>,
                              today: string, now: string, fault: Fault)
      returns (reply: Reply<(int, Notification)>)
      requires Valid()
      modifies this
      ensures Valid() && nextApplicationID == old(nextApplicationID)
      ensures applications == old(applications) && interviews == old(interviews)
      ensures !(Present(kind) && PresentId(applicationID)) ==>
        reply == BadRequest("type and applicationID required") && notifications == old(notifications)
      ensures Present(kind) && PresentId(applicationID) ==>
        var n := Notification(kind.value, TextOr(date, today), TextOr(time, now), applicationID.value,
                              if PresentId(adminID) then adminID else None, false, false);
        && notifications == (if Fails(fault, 0) then old(notifications) else old(notifications) + [n])
        && reply == (if Fails(fault, 0) || Fails(fault, 1) then ServerError
                     else Ok((|old(notifications)| + 1, n)))
    {
      if !(Present(kind) && PresentId(applicationID)) {
        return BadRequest("type and applicationID required");
      }
      if Fails(fault, 0) { return ServerError; }
      var n := Notification(kind.value, TextOr(date, today), TextOr(time, now), applicationID.value,
                            if PresentId(adminID) then adminID else None, false, false);
      notifications := notifications + [n];
      var id := |notifications|;
      if Fails(fault, 1) { return ServerError; }
      reply := Ok((id, n));
    }

    /** `GET /api/notifications/:userID`: only a NaN user id is rejected
        (`!userID && userID !== 0`). */
    method ListNotifications(userParam: string, fault: Fault) returns (reply: Reply<seq<ListedNotification>>)
      ensures StringToNumber(userParam).NaN? ==> reply == BadRequest("Invalid userID")
      ensures StringToNumber(userParam).Int? ==>
        reply == if Fails(fault, 0) then ServerError
                 else Ok(NotificationsOf(notifications, applications, StringToNumber(userParam).i))
    {
      var n := StringToNumber(userParam);
      if n.NaN? {
        return BadRequest("Invalid userID");
      }
      if Fails(fault, 0) { return ServerError; }
      reply := Ok(NotificationsOf(notifications, applications, n.i));
    }

    /** `UPDATE Notification SET delivered = 1 WHERE notificationID = ?`. */
    method MarkNotificationDelivered(id: int)
      modifies this
      ensures applications == old(applications) && interviews == old(interviews)
      ensures nextApplicationID == old(nextApplicationID)
      ensures notifications == MarkDelivered(old(notifications), {id})
    {
      notifications := MarkDelivered(notifications, {id});
    }
  }
}
