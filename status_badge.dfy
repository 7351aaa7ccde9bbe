/**
 * The status badge: a human label per status and the colour class from
 * `Utils.StatusColor`.
 */
module StatusBadge {
  import opened Types
  import opened Utils

  /** `getLabel`: each status name has its label; anything else is shown as it is. */
  function Label(status: string): (r: string)
    ensures status !in StatusNames ==> r == status
    ensures status == "pending" ==> r == "Pending Approval"
  {
    if status == "draft" then "Draft"
    else if status == "pending" then "Pending Approval"
    else if status == "approved" then "Approved"
    else if status == "rejected" then "Rejected"
    else if status == "processing" then "Processing"
    else if status == "completed" then "Completed"
    else status
  }

  /** The label of each status, stated per status. */
  lemma LabelOfStatus(s: Status)
    ensures Label(StatusName(s)) == match s
      case Draft => "Draft"
      case Pending => "Pending Approval"
      case Approved => "Approved"
      case Rejected => "Rejected"
      case Processing => "Processing"
      case Completed => "Completed"
  {
  }

  /** Two different statuses never share a label. */
  lemma LabelsDistinct(s: Status, t: Status)
    requires s != t
    ensures Label(StatusName(s)) != Label(StatusName(t))
  {
    LabelOfStatus(s);
    LabelOfStatus(t);
  }

  /** The badge's class list: the fixed `status-badge` class, then the status colour. */
  function BadgeClass(status: string): (r: string)
    ensures |r| > 13 && r[..13] == "status-badge " && r[13..] == StatusColor(status)
  {
    "status-badge " + StatusColor(status)
  }

  /** Two statuses whose badges carry the same class have the same colour. */
  lemma BadgeClassDeterminesColor(s: string, t: string)
    requires BadgeClass(s) == BadgeClass(t)
    ensures StatusColor(s) == StatusColor(t)
  {
    assert BadgeClass(s)[13..] == BadgeClass(t)[13..];
  }
}
