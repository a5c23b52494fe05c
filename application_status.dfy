/**
  Application status: the closed enumeration the front end uses, and the
  guard the interview handler applies to the status string the back end
  actually stores (any string, or NULL).
*/
module ApplicationStatus {
  import opened Wrappers

  /** The statuses the front end knows. */
  datatype Status = Applied | Processing | Interview | Rejected | Selected | NoResponse

  /** The string each status is stored and sent as. */
  function Label(s: Status): string {
    match s
    case Applied => "Applied"
    case Processing => "Processing"
    case Interview => "Interview"
    case Rejected => "Rejected"
    case Selected => "Selected"
    case NoResponse => "No Response"
  }

  /** The status a stored string names, if any. */
  function Parse(t: string): (r: Option<Status>)
    ensures r.Some? ==> Label(r.value) == t
  {
    if t == "Applied" then Some(Applied)
    else if t == "Processing" then Some(Processing)
    else if t == "Interview" then Some(Interview)
    else if t == "Rejected" then Some(Rejected)
    else if t == "Selected" then Some(Selected)
    else if t == "No Response" then Some(NoResponse)
    else None
  }

  /** Every status survives being stored as its label and read back. */
  lemma ParseLabel(s: Status)
    ensures Parse(Label(s)) == Some(s)
  {
  }

  /** Terminal statuses: no automated event may change them. */
  predicate IsTerminal(s: Status) {
    s == Selected || s == Rejected
  }

  /** The reference rule on the enumeration: scheduling an interview keeps a
      terminal status and an `Interview` status, and moves every other status
      to `Interview`. */
  function DecideOnInterview(current: Status): (r: Status)
    ensures IsTerminal(current) ==> r == current
    ensures !IsTerminal(current) ==> r == Interview
  {
    if IsTerminal(current) || current == Interview then current else Interview
  }

  /** The stored status as the handler reads it: `(app.status || '').toString()`. */
  function CurrentStatus(stored: Option<string>): string {
    if stored.Some? then stored.value else ""
  }

  /** The handler's guard on the stored string: true when it issues the update
      to 'Interview'. */
  predicate InterviewOverrides(current: string) {
    current != "Selected" && current != "Rejected" && current != "Interview"
  }

  /** The status string stored after the guard has run. */
  function StatusAfterInterview(current: string): (r: string)
    ensures Parse(r).Some? && Parse(r).value in {Interview, Selected, Rejected}
    ensures r == current || r == "Interview"
    ensures r == current <==> !InterviewOverrides(current)
  {
    if InterviewOverrides(current) then "Interview" else current
  }

  /** On the enumeration's labels the string guard agrees with the reference rule. */
  lemma GuardMatchesDecision(s: Status)
    ensures StatusAfterInterview(Label(s)) == Label(DecideOnInterview(s))
  {
  }

  /** A second interview changes nothing further. */
  lemma GuardIdempotent(current: string)
    ensures StatusAfterInterview(StatusAfterInterview(current)) == StatusAfterInterview(current)
  {
  }

  /** A missing or empty stored status, and any string outside the three the
      guard protects, becomes 'Interview'. */
  lemma GuardOverridesUnknown(stored: Option<string>)
    requires Parse(CurrentStatus(stored)).None?
    ensures StatusAfterInterview(CurrentStatus(stored)) == "Interview"
  {
  }
}
