/** The job record, the manifest and the other records every component shares. */
module Domain {
  import opened Wrappers

  datatype Status =
    | AwaitingUpload
    | QueuedDetection
    | Detecting
    | ReviewRequired
    | QueuedRedaction
    | Redacting
    | Complete
    | Failed
    | Deleted
    | Expired

  /** A job the user or the retention cleaner has taken away. */
  predicate Terminal(s: Status) {
    s == Deleted || s == Expired
  }

  predicate InFlight(s: Status) {
    s == Detecting || s == Redacting
  }

  predicate Queued(s: Status) {
    s == QueuedDetection || s == QueuedRedaction
  }

  type JobId = string

  /** Times are seconds since the epoch. */
  datatype JobRecord = JobRecord(
    jobId: JobId,
    status: Status,
    createdAt: nat,
    expiresAt: nat,
    updatedAt: nat,
    pageCount: Option<nat>,
    pagesCompleted: nat,
    findingCount: nat,
    errorCode: Option<string>,
    autoFinalize: bool,
    version: nat)

  /** The keyword arguments of a repository update: None leaves the field alone. */
  datatype Changes = Changes(
    status: Option<Status> := None,
    expiresAt: Option<nat> := None,
    pageCount: Option<nat> := None,
    pagesCompleted: Option<nat> := None,
    findingCount: Option<nat> := None,
    errorCode: Option<Option<string>> := None,
    autoFinalize: Option<bool> := None)

  function Or<T>(change: Option<T>, current: T): T {
    if change.Some? then change.value else current
  }

  /** The record a committed update stores: the changes, a new time and the next version. */
  function Updated(row: JobRecord, c: Changes, now: nat): JobRecord {
    row.(status := Or(c.status, row.status),
         expiresAt := Or(c.expiresAt, row.expiresAt),
         pageCount := if c.pageCount.Some? then c.pageCount else row.pageCount,
         pagesCompleted := Or(c.pagesCompleted, row.pagesCompleted),
         findingCount := Or(c.findingCount, row.findingCount),
         errorCode := Or(c.errorCode, row.errorCode),
         autoFinalize := Or(c.autoFinalize, row.autoFinalize),
         updatedAt := now,
         version := row.version + 1)
  }

  /** None admits every status. */
  predicate Admits(allowed: Option<set<Status>>, s: Status) {
    allowed.None? || s in allowed.value
  }

  type Rotation = r: int | r == 0 || r == 90 || r == 180 || r == 270

  datatype Category =
    | PersonName | OrganizationName | StreetAddress | Email | Phone | Ssn | Itin | Ein | Ptin
    | Efin | IpPin | CafNumber | BankAccount | RoutingNumber | PaymentCard | StateTaxId
    | EmployeeId | HealthInsuranceId | OtherPrivateId | DateOfBirth | DateOfDeath
    | DriverLicense | Passport | IpAddress | Signature | UserAdded

  /** A page-relative box in thousandths of the page. */
  datatype Box = Box(x1: int, y1: int, x2: int, y2: int) {
    predicate Valid() {
      0 <= x1 < x2 <= 1000 && 0 <= y1 < y2 <= 1000
    }
  }
}
