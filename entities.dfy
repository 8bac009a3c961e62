/**
 * The application-side records of the portal (Models/Entities.cs): the status
 * enumeration, service types, applications with their attachments and history,
 * counter-party confirmation requests, and the user accounts they refer to.
 * A C# object initializer `new X { F = v }` is written `DefaultX(now).(f := v)`:
 * the defaults below are the initial values of the C# properties.
 */
module Entities {
  import opened Wrappers
  import opened Calendar

  /** `ApplicationStatus`, in declaration order (its stored integer is `Ordinal`). */
  datatype ApplicationStatus =
    | Draft
    | AwaitingConfirmation
    | Submitted
    | InReview
    | SupplementRequired
    | PendingApproval
    | Signed
    | Completed
    | Rejected

  /** The integer value of the enumeration constant. */
  function Ordinal(s: ApplicationStatus): (n: nat)
    ensures n < 9
  {
    match s
    case Draft => 0
    case AwaitingConfirmation => 1
    case Submitted => 2
    case InReview => 3
    case SupplementRequired => 4
    case PendingApproval => 5
    case Signed => 6
    case Completed => 7
    case Rejected => 8
  }

  /** The enumeration constant with a given integer value, if there is one. */
  function StatusOf(n: int): (r: Option<ApplicationStatus>)
    ensures r.Some? <==> 0 <= n < 9
  {
    if n == 0 then Some(Draft)
    else if n == 1 then Some(AwaitingConfirmation)
    else if n == 2 then Some(Submitted)
    else if n == 3 then Some(InReview)
    else if n == 4 then Some(SupplementRequired)
    else if n == 5 then Some(PendingApproval)
    else if n == 6 then Some(Signed)
    else if n == 7 then Some(Completed)
    else if n == 8 then Some(Rejected)
    else None
  }

  /** The nine constants are numbered 0 to 8 one-to-one, in declaration order. */
  lemma StatusNumbering(s: ApplicationStatus, n: int)
    ensures StatusOf(Ordinal(s)) == Some(s)
    ensures 0 <= n < 9 ==> Ordinal(StatusOf(n).value) == n
  {
  }

  /** The content document of an application: each field is a string or JSON null. */
  type Content = map<string, Option<string>>

  datatype ServiceType = ServiceType(id: int, name: string, description: string, fee: int)

  datatype Application = Application(
    id: int,
    citizenId: string,
    serviceTypeId: int,
    content: Content,
    status: ApplicationStatus,
    createdDate: DateTime,
    lastModifiedDate: Option<DateTime>,
    currentOfficialId: Option<string>,
    rejectReason: Option<string>,
    supplementNote: Option<string>)

  /** `new Application()`: Draft, empty content, no official, no reason, never modified. */
  function DefaultApplication(now: DateTime): Application {
    Application(0, "", 0, map[], Draft, now, None, None, None, None)
  }

  /** An attachment belongs to exactly one application. */
  datatype Attachment = Attachment(
    id: int,
    applicationId: int,
    fileName: string,
    filePath: string,
    documentType: string)

  function DefaultAttachment(): Attachment {
    Attachment(0, 0, "", "", "")
  }

  /** One history entry names one application, one status, a note and the actor. */
  datatype ApplicationHistory = ApplicationHistory(
    id: int,
    applicationId: int,
    changeDate: DateTime,
    status: ApplicationStatus,
    note: string,
    changedById: string)

  function DefaultHistory(now: DateTime): ApplicationHistory {
    ApplicationHistory(0, 0, now, Draft, "", "")
  }

  /** A request that a spouse (or owner) confirm an application. */
  datatype ConfirmationRequest = ConfirmationRequest(
    id: int,
    applicationId: int,
    requesterId: string,
    targetUserId: string,
    targetCccd: string,
    requestType: string,
    status: string,
    rejectReason: Option<string>,
    createdDate: DateTime,
    responseDate: Option<DateTime>)

  const PendingRequest: string := "Pending"

  /** `new ConfirmationRequest()`: Pending, no reason, no response yet. */
  function DefaultConfirmationRequest(now: DateTime): ConfirmationRequest {
    ConfirmationRequest(0, 0, "", "", "", "", PendingRequest, None, now, None)
  }

  /** The account fields of `ApplicationUser` that the core reads. */
  datatype User = User(
    id: string,
    fullName: Option<string>,
    cccd: Option<string>,
    address: Option<string>)
}
