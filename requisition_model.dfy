/**
 * The server's document schema for a requisition and its items: which
 * fields are required, the closed status enumeration with its default,
 * and the optional audit fields. A field the request did not supply is
 * `None`; validation happens when a document is saved.
 */
module RequisitionSchema {
  import opened Types

  datatype ItemDoc = ItemDoc(
    name: Option<string>,
    description: Option<string>,
    quantity: Option<int>,
    estimatedCost: Option<int>,
    justification: Option<string>)

  datatype RequisitionDoc = RequisitionDoc(
    title: Option<string>,
    description: Option<string>,
    items: Option<seq<ItemDoc>>,
    totalCost: Option<int>,
    status: Option<string>,
    createdBy: Option<Id>,
    approvedBy: Option<Id>,
    rejectedBy: Option<Id>,
    rejectionReason: Option<string>,
    processingNotes: Option<string>,
    createdAt: Time,
    updatedAt: Time)

  /** Every item path is required; the numbers carry no bounds. */
  predicate ValidItem(item: ItemDoc)
  {
    && RequiredString(item.name)
    && RequiredString(item.description)
    && item.quantity.Some?
    && item.estimatedCost.Some?
    && RequiredString(item.justification)
  }

  /** The item array has no minimum length and may be absent; each element is validated. */
  predicate ValidItems(items: Option<seq<ItemDoc>>)
  {
    items.Some? ==> forall i :: 0 <= i < |items.value| ==> ValidItem(items.value[i])
  }

  /** `status` is required and must be one of the six enumeration values. */
  predicate ValidStatus(status: Option<string>)
  {
    status.Some? && status.value in StatusNames
  }

  const DefaultStatus: string := "draft"

  /** The schema default: a document constructed without a status gets `draft`. */
  function WithDefaultStatus(status: Option<string>): (s: Option<string>)
    ensures status.None? ==> s == Some("draft")
    ensures status.Some? ==> s == status
  {
    if status.None? then Some(DefaultStatus) else status
  }

  /** What a save accepts. Nothing is required of the four audit fields. */
  predicate ValidRequisition(d: RequisitionDoc)
  {
    && RequiredString(d.title)
    && RequiredString(d.description)
    && ValidItems(d.items)
    && d.totalCost.Some?
    && ValidStatus(d.status)
    && d.createdBy.Some?
  }

  /** An item is accepted exactly when its five fields are present, whatever the numbers. */
  lemma ItemNumbersUnbounded(item: ItemDoc)
    ensures ValidItem(item) <==>
      RequiredString(item.name) && RequiredString(item.description) && RequiredString(item.justification)
      && item.quantity.Some? && item.estimatedCost.Some?
    ensures ValidItem(item) ==> ValidItem(item.(quantity := Some(-1), estimatedCost := Some(-1)))
  {
  }

  /** A saved requisition has its four required fields and a status from the enumeration. */
  lemma ValidRequisitionHasRequiredFields(d: RequisitionDoc)
    requires ValidRequisition(d)
    ensures RequiredString(d.title) && RequiredString(d.description)
    ensures d.totalCost.Some? && d.createdBy.Some?
    ensures ParseStatus(d.status.value).Some?
  {
  }

  /** A requisition with no items passes validation. */
  lemma EmptyItemsAccepted(d: RequisitionDoc)
    requires ValidRequisition(d)
    ensures ValidRequisition(d.(items := Some([])))
  {
  }

  /** The audit fields are unconstrained: neither the status nor each other limits them. */
  lemma AuditFieldsUnconstrained(d: RequisitionDoc, approver: Option<Id>, rejecter: Option<Id>,
                                 reason: Option<string>, notes: Option<string>)
    requires ValidRequisition(d)
    ensures ValidRequisition(d.(approvedBy := approver, rejectedBy := rejecter,
                                rejectionReason := reason, processingNotes := notes))
  {
  }
}
