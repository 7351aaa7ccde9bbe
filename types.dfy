/**
 * The entities the front end declares for the requisition tracker:
 * users, requisitions with their items, the closed status set, the
 * form data a new requisition is entered as, approval actions and
 * notifications.
 */
module Types {

  datatype Option<+T> = None | Some(value: T)

  /** One opaque identity for every entity (the code mixes `id` and `_id`). */
  type Id = nat

  /** What a Mongoose `required` String path accepts: a value, and not the empty string. */
  predicate RequiredString(s: Option<string>)
  {
    s.Some? && s.value != ""
  }

  /** Timestamps are abstract clock readings. */
  type Time = int

  datatype Status = Draft | Pending | Approved | Rejected | Processing | Completed

  datatype Role = UserRole | ManagerRole | AdminRole

  /** The wire name of each status. */
  function StatusName(s: Status): string
  {
    match s
    case Draft => "draft"
    case Pending => "pending"
    case Approved => "approved"
    case Rejected => "rejected"
    case Processing => "processing"
    case Completed => "completed"
  }

  /** The six accepted status names, in declaration order. */
  const StatusNames: seq<string> := ["draft", "pending", "approved", "rejected", "processing", "completed"]

  /** Reads a wire name back; anything outside the six names is refused. */
  function ParseStatus(name: string): (r: Option<Status>)
    ensures r.Some? ==> StatusName(r.value) == name
    ensures r.Some? <==> name in StatusNames
  {
    if name == "draft" then Some(Draft)
    else if name == "pending" then Some(Pending)
    else if name == "approved" then Some(Approved)
    else if name == "rejected" then Some(Rejected)
    else if name == "processing" then Some(Processing)
    else if name == "completed" then Some(Completed)
    else None
  }

  /** The status set is closed: every status has a name and reads back as itself. */
  lemma StatusNameRoundTrip(s: Status)
    ensures StatusName(s) in StatusNames
    ensures ParseStatus(StatusName(s)) == Some(s)
  {
  }

  /** Distinct statuses have distinct names. */
  lemma StatusNameInjective(s: Status, t: Status)
    ensures StatusName(s) == StatusName(t) <==> s == t
  {
  }

  function RoleName(r: Role): string
  {
    match r
    case UserRole => "user"
    case ManagerRole => "manager"
    case AdminRole => "admin"
  }

  const RoleNames: seq<string> := ["user", "manager", "admin"]

  function ParseRole(name: string): (r: Option<Role>)
    ensures r.Some? ==> RoleName(r.value) == name
    ensures r.Some? <==> name in RoleNames
  {
    if name == "user" then Some(UserRole)
    else if name == "manager" then Some(ManagerRole)
    else if name == "admin" then Some(AdminRole)
    else None
  }

  /** A role is exactly one of the three names, and reads back as itself. */
  lemma RoleNameRoundTrip(r: Role)
    ensures RoleName(r) in RoleNames
    ensures ParseRole(RoleName(r)) == Some(r)
  {
  }

  datatype User = User(id: Id, name: string, email: string, role: Role, department: string)

  datatype Item = Item(
    id: Id,
    name: string,
    description: string,
    quantity: int,
    estimatedCost: int,
    justification: string)

  /** A requisition as the client sees it; the audit fields are optional. */
  datatype Requisition = Requisition(
    id: Id,
    title: string,
    description: string,
    items: seq<Item>,
    totalCost: int,
    status: Status,
    createdBy: Id,
    createdAt: Time,
    updatedAt: Time,
    approvedBy: Option<Id>,
    approvedAt: Option<Time>,
    rejectedBy: Option<Id>,
    rejectedAt: Option<Time>,
    rejectionReason: Option<string>,
    processingNotes: Option<string>)

  /** A form item: the fields of an item without its id. */
  datatype FormItem = FormItem(
    name: string,
    description: string,
    quantity: int,
    estimatedCost: int,
    justification: string)

  datatype FormData = FormData(title: string, description: string, items: seq<FormItem>)

  datatype ApprovalKind = Approve | Reject

  datatype ApprovalAction = ApprovalAction(requisitionId: Id, action: ApprovalKind, notes: Option<string>)

  datatype Notification = Notification(id: Id, title: string, message: string, read: bool, createdAt: Time)

  /** The cost of one line: quantity times unit cost. */
  function LineTotal(quantity: int, unitCost: int): (t: int)
    ensures quantity >= 1 && unitCost >= 0 ==> t >= unitCost
    ensures quantity == 0 || unitCost == 0 ==> t == 0
  {
    quantity * unitCost
  }
}
