# Job tracker: verified model of the notification pipeline

This project is a Dafny model of the core of a job-application tracker. The
tracker has an Express/MySQL back end and a React front end. The model covers:

- **Scheduling an interview** (`POST /api/interviews`). It inserts an
  Interview row and runs the status guard. The guard leaves `Selected`,
  `Rejected` and `Interview` alone and turns anything else into `Interview`.
  For an existing application it then inserts an undelivered Notification row.
  If that insert fails, no row is written, the failure is swallowed and the
  handler carries on to its final read.
- **The other table operations** on JobApplication and Notification: the
  admin's unguarded status overwrite, applying for a role (which builds an
  INSERT with optional columns), deleting an application, inserting a
  notification by hand, and listing a user's notifications.
- **The delivery poller's tick**. It selects the undelivered notifications
  whose application still exists. For each one, in order, it emits a six-field
  payload to the room `user:<owner>` and then marks the row delivered. The
  first failing query ends the tick.
- **The Socket.IO room registry**. `identify` joins the room `user:<uid>` when
  the payload is an object whose `userID` is truthy or the number 0 and
  converts to a number. `null`, `false` and `''` are refused, although
  `Number` would turn each of them into 0. Joins accumulate. An emit reaches
  every socket in the room at that moment.
- **The client helpers**: the `API` URL builder, the error object `fetchJson`
  throws, `deleteApplication` (which always throws), and the sign-in screen's
  `showErrorFrom`.

The project has one module per concern:

- `Wrappers`: `Option`.
- `JsValue`: JavaScript values, truthiness, `Number(...)` and `String(n)` for
  integers, with the decimal round trip.
- `ApplicationStatus`: the status enumeration and the guard.
- `Tables`: the rows and the two SELECTs over Notification.
- `Store`: class `Database`, with the REST handlers as methods.
- `Gateway`: class `SocketServer`.
- `Poller`: the tick.
- `ApiClient` and `Auth`: the front end.
- `Scenarios`: end-to-end scenarios, proved by the verifier.

A handler's `runQuery` failures are a `Fault` parameter. Queries are counted
from 0 in the order the handler issues them. The parameter says which of them
throw: none, only one (a transient error), or one and every later one (the
connection is lost). The current date and time are parameters.

## Model

| member | source | states |
|---|---|---|
| ApplicationStatus.Parse | frontend/types.ts:2-9 | a stored string that names a status is exactly that status's label |
| ApplicationStatus.ParseLabel | frontend/types.ts:2-9 | every status survives being stored as its label and read back |
| ApplicationStatus.DecideOnInterview | backend/server.js:369-373 | terminal statuses (Selected, Rejected) are kept; every non-terminal status ends as Interview |
| ApplicationStatus.StatusAfterInterview | backend/server.js:369-373 | the stored status after the guard is Interview, Selected or Rejected; it is unchanged exactly when the guard does not fire; otherwise it is 'Interview' |
| ApplicationStatus.CurrentStatus | backend/server.js:369 | `(app.status \|\| '')`: the stored status, or '' for NULL; its meaning under the guard is stated by GuardOverridesUnknown |
| ApplicationStatus.InterviewOverrides | backend/server.js:371 | the guard fires exactly for a status other than Selected, Rejected and Interview; stated by StatusAfterInterview and GuardMatchesDecision |
| ApplicationStatus.GuardMatchesDecision | backend/server.js:369-373 | on the enumeration's labels the string guard agrees with the terminal-state rule |
| ApplicationStatus.GuardIdempotent | backend/server.js:371 | a second interview changes the status no further |
| ApplicationStatus.GuardOverridesUnknown | backend/server.js:369-372 | a NULL, empty or unknown stored status becomes 'Interview' |
| JsValue.StringToNumber | backend/server.js:157 | `Number(string)` on the model's integers: round trip stated by DecimalRoundTrip, NaN for non-numeric strings used by IdentifyNotNumeric |
| JsValue.ToNumber | backend/server.js:464-465 | `Number(value)` for every JavaScript value; a string goes through StringToNumber, so DecimalRoundTrip and IdentifyDecimalUser state its meaning on ids |
| JsValue.IntToDecimal | backend/server.js:466 | `${uid}`: a non-empty decimal form, optionally signed; DecimalRoundTrip and DecimalInjective state that it determines the integer |
| JsValue.DecimalRoundTrip | backend/server.js:464-466 | `Number(String(n)) == n` for every integer n |
| JsValue.DecimalInjective | backend/server.js:466 | distinct integers have distinct decimal forms |
| Tables.SelectPending | backend/server.js:484-490 | the poller's JOIN; its meaning is stated by SelectPendingSound, SelectPendingComplete and SelectPendingAscending |
| Tables.MarkDelivered | backend/server.js:509 | `UPDATE … SET delivered = 1` for a set of ids; stated by TickOnlyFlipsPending, SelectionDrained and ListingKeepsDelivered |
| Tables.SelectPendingSound | backend/server.js:484-490 | every selected row is an undelivered notification whose application exists, with its columns and the owner's userID copied from the tables |
| Tables.SelectPendingComplete | backend/server.js:484-490 | a notification is selected if and only if it is undelivered and its application exists |
| Tables.SelectPendingAscending | backend/server.js:484-490 | the selection is in strictly ascending notificationID order, so no row is selected twice |
| Tables.SelectionDrained | backend/server.js:484-510 | after every selected row is marked delivered, the next selection is empty |
| Tables.NothingPendingNothingSelected | backend/server.js:492 | with no undelivered joined notification the selection is empty |
| Tables.DeletedApplicationNotSelected | backend/server.js:486-490 | after an application is deleted none of its notifications is ever selected |
| Tables.NotificationsOf | backend/server.js:429-439 | the per-user listing; its meaning is stated by NotificationsOfSound, NotificationsOfComplete and NotificationsOfDescending |
| Tables.NotificationsOfSound | backend/server.js:429-439 | every listed row is a notification of an application owned by the user, with its stored fields |
| Tables.NotificationsOfComplete | backend/server.js:429-439 | a notification is listed if and only if its application exists and belongs to the user |
| Tables.NotificationsOfDescending | backend/server.js:437 | the listing is in strictly descending notificationID order |
| Tables.ListingKeepsDelivered | backend/server.js:429-439 | marking rows delivered leaves the listing the same apart from the delivered flags |
| Store.TextOr | backend/server.js:358 | `field \|\| fallback`: a present non-empty text is kept, otherwise the fallback |
| Store.NormalizeToDate | backend/server.js:270-274 | a falsy value gives null; a string starting with dddd-dd-dd gives its first ten characters, which are a prefix of it |
| Store.NormalizeToDateIdempotent | backend/server.js:270-274 | a normalised date normalises to itself |
| Store.ApplicationDate | backend/server.js:282 | the normalised application date, or today when there is none |
| Store.ApplyInsert | backend/server.js:288-293 | the INSERT's columns and VALUES pair up; its placeholders are exactly as many as its parameters: 4, plus one each for a truthy resume and a truthy cover letter; the fifth value is the literal 'Applied' |
| Store.ApplyInsertPlaceholders | backend/server.js:288-289 | every VALUES item except the status literal is a placeholder |
| Store.ApplyInsertFixedColumns | backend/server.js:288-291 | the first four columns are userID, roleID, applicationDate and deadline, bound in that order |
| Store.ApplyInsertOptionalColumns | backend/server.js:288-293 | a resume or coverLetter column is present exactly when the request carries a truthy one, and its placeholder is bound to that text |
| Store.AppliedRow | backend/server.js:288-289 | the applied row has status 'Applied' and holds a resume or cover letter exactly when the request carried a truthy one |
| Store.AppliedRowMatchesInsert | backend/server.js:288-293 | the stored row's optional fields match the INSERT's optional columns and their bound parameters |
| Store.Database.ScheduleInterview | backend/server.js:347-397 | a request missing a field is rejected with no table change. Otherwise the method states every table after each combination of failing queries (one transient failure, or a lost connection from some query on): the interview row with result defaulting to 'Pending'; the guarded status as the only change to JobApplication; exactly one undelivered, unread notification with adminID null for an existing application, whose insert failure is swallowed; and the reply |
| Store.Database.UpdateStatus | backend/server.js:155-168 | an id that is NaN or 0, or a missing status, is rejected; otherwise the status is overwritten without any guard, and only that field of that row changes |
| Store.Database.DeleteApplication | backend/server.js:170-180 | an id that is NaN or 0 is rejected; otherwise exactly that application is removed and its interviews and notifications stay |
| Store.Database.Apply | backend/server.js:258-306 | roleID and userID are required; the new row gets the next id and the applied row, with normalised dates; nothing else changes |
| Store.Database.InsertApplication | backend/server.js:286-298 | a failing INSERT changes nothing; otherwise the row is stored under the next, unused id and the counter advances; a failing read-back still leaves the row stored but replies 500 |
| Store.Database.InsertNotification | backend/server.js:405-422 | type and applicationID are required; one undelivered, unread row is appended; date and time default to now; a falsy adminID becomes null |
| Store.Database.ListNotifications | backend/server.js:424-445 | only a NaN user id is rejected (0 is accepted); otherwise the reply is the user's listing |
| Store.Database.MarkNotificationDelivered | backend/server.js:509 | the row with that id is marked delivered and nothing else changes |
| Gateway.UserRoom | backend/server.js:466 | a user's room is `user:` followed by the decimal id |
| Gateway.UserRoomInjective | backend/server.js:466 | two users never share a room |
| Gateway.IdentifyRoom | backend/server.js:464-466 | a falsy payload, a non-object payload or a missing userID names no room; a room is named only for a userID that is truthy or 0 and converts to a number, and it is the room of `Number(userID)`; conversely every object payload with such a userID names that room |
| Gateway.IdentifyNumericUser | backend/server.js:464-466 | a numeric userID, 0 included, names that user's room |
| Gateway.IdentifyDecimalUser | backend/server.js:464-466 | a userID sent as its decimal string names the same room as the number |
| Gateway.IdentifyFalsyUser | backend/server.js:464 | a payload whose userID is null, false, '' or NaN names no room, whatever its other fields |
| Gateway.IdentifyNotNumeric | backend/server.js:465 | a string that does not convert to a number names no room |
| Gateway.Joined | backend/server.js:465-468 | identify adds the named room to that socket only; without a room nothing changes |
| Gateway.Recipients | backend/server.js:507 | an emit reaches exactly the sockets that joined the room |
| Gateway.JoinsAccumulate | backend/server.js:467 | identifying never removes a socket from a room; it adds exactly the identifying socket to the named room's audience |
| Gateway.IdentifyIdempotent | backend/server.js:467 | identifying twice with the same payload is the same as once |
| Gateway.SessionsOfUserReceive | backend/server.js:462-468 | every session that identified as a user is in that user's room, whatever else it identified as |
| Gateway.ToJson | backend/server.js:498-506 | the wire object of a payload; stated by ToJsonFields and ToJsonInjective |
| Gateway.ToJsonFields | backend/server.js:499-506 | the wire payload has exactly the six keys, each carrying its field |
| Gateway.ToJsonInjective | backend/server.js:499-506 | distinct payloads are distinct on the wire |
| Gateway.SocketServer.Connect | backend/server.js:461 | a new socket is in no room; the emission log is unchanged |
| Gateway.SocketServer.Identify | backend/server.js:462-473 | the room memberships become `Joined(old, socket, payload)` |
| Gateway.SocketServer.Emit | backend/server.js:507 | one emission is appended, with the room's sockets at that moment; memberships are unchanged |
| Poller.PushPendingNotifications | backend/server.js:482-514 | the rows before the first failing query are emitted and marked delivered. Row k's failing UPDATE leaves rows 0..k emitted and 0..k-1 marked. A failing SELECT changes nothing. Applications, interviews and rooms are unchanged. A clean tick leaves nothing to select |
| Poller.DeliverRows | backend/server.js:494-510 | loop invariant: rows before the current one are emitted and marked, rows after it are untouched |
| Poller.EmitRow | backend/server.js:496-507 | one row's emission extends the log by exactly that row's emission |
| Poller.MarkRow | backend/server.js:509 | one row's UPDATE extends the marked set by exactly that row |
| Poller.PayloadOf | backend/server.js:498-506 | the six notification columns of a selected row; stated by PayloadCopiesStoredRow and PayloadIdentifiesNotification |
| Poller.EmissionOf | backend/server.js:496-507 | the emit to the owner's room `user:<appUserID>` with the room's current sockets; stated through EmitRow and PushPendingNotifications |
| Poller.PayloadCopiesStoredRow | backend/server.js:495-507 | every payload carries the stored notification's fields unchanged; the row's owner is the application's user |
| Poller.PayloadIdentifiesNotification | backend/server.js:499-506 | equal wire payloads come from the same notification |
| Poller.TickOnlyFlipsPending | backend/server.js:509 | marking selected rows changes only the delivered flag, and only of undelivered joined rows; already-delivered rows are untouched |
| Poller.RemainingStayPending | backend/server.js:494-513 | after a tick ends early, the failing row and every later one stay undelivered and are selected by the next tick |
| ApiClient.TrimTrailingSlash | frontend/services/MockApiService.tsx:3 | at most one trailing '/' is removed, and only if there is one |
| ApiClient.Rooted | frontend/services/MockApiService.tsx:3 | the path gets a leading '/' exactly when it has none |
| ApiClient.Api | frontend/services/MockApiService.tsx:3 | the URL is the trimmed base, then `/api`, then the rooted path |
| ApiClient.ApiStartsWithBase | frontend/services/MockApiService.tsx:3 | the URL starts with the base, minus at most its last '/' |
| ApiClient.ApiEndsWithPath | frontend/services/MockApiService.tsx:3 | the URL ends with the path as given |
| ApiClient.ApiLeadingSlashOptional | frontend/services/MockApiService.tsx:3 | a path with or without its leading '/' gives the same URL |
| ApiClient.ApiTrailingSlashOptional | frontend/services/MockApiService.tsx:3 | a base with or without a trailing '/' gives the same URL |
| ApiClient.ApiKeepsSecondSlash | frontend/services/MockApiService.tsx:3 | only one trailing '/' is removed |
| ApiClient.ErrorMessage | frontend/services/MockApiService.tsx:14-20 | for a truthy object body the message is body.error, else body.message, else the serialised body; otherwise it is the status text, else "HTTP " and the status |
| ApiClient.FetchJson | frontend/services/MockApiService.tsx:9-25 | an ok response returns the body unchanged; otherwise it throws an object with exactly status, message and body, where status is the response status and body is the parsed body |
| ApiClient.ErrorMessageTruthy | frontend/services/MockApiService.tsx:14-20 | the thrown message is never falsy |
| ApiClient.ErrorMessageNamesStatus | frontend/services/MockApiService.tsx:19 | for an empty status text and a non-object body, the error is exactly status, "HTTP <status>" and the body |
| ApiClient.ErrorWith | frontend/services/MockApiService.tsx:70 | `new Error(text)` is an object whose message is the text |
| ApiClient.DeleteApplication | frontend/services/MockApiService.tsx:69-71 | always throws the not-implemented error, for every id |
| Auth.ShowErrorFrom | frontend/components/Auth.tsx:22-32 | a falsy err gives the default; a string is returned as is; a truthy message wins, then a truthy error; without an object body the result is the default |
| Auth.ShowErrorFromBody | frontend/components/Auth.tsx:28-30 | with an object body and no message or error, the result is body.error, else body.message, else the serialised body |
| Auth.ShowsFetchJsonMessage | frontend/components/Auth.tsx:23-26 | what fetchJson throws for a non-ok response is shown as exactly its message |
| Auth.ShowsDeleteApplicationError | frontend/components/Auth.tsx:26 | deleteApplication's failure is shown as its message |
| Auth.ShowErrorFromTruthy | frontend/components/Auth.tsx:22-32 | the displayed value is never falsy |
| Scenarios.DatabaseWithApplication | backend/server.js:258-306 | an apply without dates or documents stores application 1 for the user, dated today, status 'Applied', with an empty cover letter dropped |
| Scenarios.DatabaseWithRejection | backend/server.js:155-161 | the admin's overwrite makes application 1 'Rejected' |
| Scenarios.InterviewForAppliedApplication | backend/server.js:347-386 | an 'Applied' application becomes 'Interview' and exactly one undelivered notification for it exists |
| Scenarios.ConnectionLostAtNotification | backend/server.js:375-392 | when the connection is lost at the notification insert, the interview row and the status change stay, no notification is written, and the reply is 500 |
| Scenarios.InterviewForRejectedApplication | backend/server.js:369-385 | a 'Rejected' application stays 'Rejected' and still gets its notification |
| Scenarios.TwoSessionsOfUser5 | backend/server.js:462-468 | two sessions identifying as user 5, once as a number and once as a string, are both in user 5's room |
| Scenarios.SelectSingle | backend/server.js:484-490 | a single undelivered notification of an existing application is selected as itself |
| Scenarios.TickOnSingle | backend/server.js:494-510 | a clean tick over it marks it delivered and emits exactly its payload |
| Scenarios.BothSessionsReceive | backend/server.js:494-510 | the tick pushes user 5's notification once, to both sessions, and marks it delivered |
| Scenarios.SecondTickIsEmpty | backend/server.js:492 | a tick after a clean tick writes nothing and emits nothing |

Two behaviours of the code that the model keeps:

- A tick ends at the first failing UPDATE. The whole loop sits in one `try`
  (backend/server.js:483-513), so the remaining rows wait for the next tick.
- The code never removes a socket from a room. `identify` only joins rooms
  (backend/server.js:467), and the disconnect handler only logs
  (backend/server.js:475-477). Socket.IO's own cleanup on disconnect is listed
  under "Left out".

## Left out

- Tables.SelectPending: the poller's SELECT has no ORDER BY. The model fixes
  ascending notificationID order, so the tick's emission order is one of the
  orders MySQL may return.
- JsValue.ToNumber: numbers are NaN or integers only. A string in any other
  numeric notation converts to NaN in the model, while JavaScript gives a
  number. Examples are `"1.0"` (1), `"1e3"` (1000), `"0x10"` (16), `"0b1"`,
  `"Infinity"` and strings padded with non-ASCII white space. So for such ids
  the model's `identify` names no room where the source joins one; PATCH,
  DELETE and apply (a roleID of `"3.0"`) reply 400 where the source runs its
  query; and the per-user listing of `"5.0"` replies 400 where the source
  lists user 5's notifications.
- JsValue.IntToDecimal: integers are exact and unbounded, while JavaScript
  numbers are doubles. `Number` rounds integers beyond 2^53, and `String(n)`
  switches to exponent form from 1e21. So the decimal round trip and
  `UserRoom` hold for the source only on safe integers.
- Store.Database.Apply: the reply carries the whole applied row. The source
  reads back every column except resume and coverLetter. The `detail` field of
  the 500 reply is not modelled.
- Store.Database.ScheduleInterview: the reply carries the stored interview and
  the whole application row, not the subset of columns the source reads back.
  The `detail` field of the 500 reply is not modelled.
- Store.Database.UpdateStatus, Store.Database.ScheduleInterview,
  Store.Database.Apply and Store.Database.InsertNotification: request fields
  are typed. Texts are optional strings and body ids are optional integers. A
  non-string text and MySQL's coercion of a non-integer id are not modelled.
- Store.Database.ScheduleInterview and Store.Database.InsertNotification: ids
  assume auto-increment without gaps. The notification with id k is entry k-1
  of the table, and an interview's id is its position plus one. MySQL's InnoDB
  can lose a value to a failed or rolled-back insert, so in the source the ids
  in replies and payloads can be larger than the model's.
- Store.NormalizeToDate: the `new Date(val)` fallback is a function parameter
  (`calendarDate`). Its calendar arithmetic is not modelled.
- ApiClient.FetchJson: a rejected `fetch` (a network error), which fetchJson
  passes on unchanged, is not modelled; the model starts from a received
  response.
- ApiClient.ErrorMessageTruthy: `JSON.stringify` is a function parameter. This
  lemma and Auth.ShowErrorFromTruthy assume it writes at least something for an
  object or an array.
- Gateway.SocketServer.Connect: socket ids are assumed unique. The room
  Socket.IO gives every socket for its own id is not modelled.
- Socket disconnect: the library's automatic room cleanup is not modelled. The
  handler itself only logs.
- `setInterval`, the interval setting and overlapping ticks are not modelled.
  One tick is one method call, so duplicate pushes from overlapping ticks are
  outside the model.
- The MySQL pool, `runQuery`, Express routing and HTTP status codes are not
  modelled. A reply is `BadRequest`, `ServerError` or `Ok`.
- The role, company and user tables are not modelled. This also covers the
  listing's `roleTitle` and `companyName` columns and the credential checks of
  the login and registration handlers.
- The other fetch wrappers of the API client, the React components other than
  `showErrorFrom`, `localStorage`, and the client socket singleton are not
  modelled.
- Logging (`console.log`, `console.warn`, `console.error`) is not modelled.
