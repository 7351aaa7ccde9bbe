/**
 * The requisition detail modal: which panels it shows for a status, and
 * the approve/reject form state machine. Two flags say which form is
 * open; the openers exist only while both are off, so at most one form
 * is ever open. A click on a control that is not rendered does nothing.
 */
module RequisitionModal {
  import opened Types
  import opened Text

  /** The approve/reject section: the requisition is pending and both callbacks were supplied. */
  predicate ActionsShown(status: Status, hasApprove: bool, hasReject: bool)
  {
    status == Pending && hasApprove && hasReject
  }

  /** The green "Approved" panel. */
  predicate ApprovedPanelShown(status: Status)
  {
    status == Approved
  }

  /** The red "Rejected" panel. */
  predicate RejectedPanelShown(status: Status)
  {
    status == Rejected
  }

  /** Confirm Rejection is enabled once the reason has a character that is not white space. */
  predicate ConfirmRejectEnabled(reason: string)
  {
    Trim(reason) != ""
  }

  /** Each row's line total. */
  function RowTotal(item: Item): (t: int)
    ensures item.quantity >= 1 && item.estimatedCost >= 0 ==> t >= item.estimatedCost
  {
    LineTotal(item.quantity, item.estimatedCost)
  }

  /** At most one of the three sections shows for any status. */
  lemma SectionsExclusive(status: Status, hasApprove: bool, hasReject: bool)
    ensures !(ApprovedPanelShown(status) && RejectedPanelShown(status))
    ensures ActionsShown(status, hasApprove, hasReject) ==> !ApprovedPanelShown(status) && !RejectedPanelShown(status)
    ensures ActionsShown(status, hasApprove, hasReject) <==> status == Pending && hasApprove && hasReject
  {
  }

  /** An enabled Confirm Rejection means the reason holds a character that is not white space. */
  lemma {:induction false} EnabledReasonNotBlank(reason: string)
    ensures ConfirmRejectEnabled(reason) <==> exists i :: 0 <= i < |reason| && !IsSpace(reason[i])
  {
    TrimEmptyIffAllSpace(reason);
  }

  /** The call `onApprove(id, notes)` when the callback is there, nothing otherwise. */
  function ApproveCall(requisition: Requisition, hasApprove: bool, notes: string): (r: Option<ApprovalAction>)
    ensures r.Some? <==> hasApprove
    ensures r.Some? ==> r.value.requisitionId == requisition.id && r.value.action == Approve && r.value.notes == Some(notes)
  {
    if hasApprove then Some(ApprovalAction(requisition.id, Approve, Some(notes))) else None
  }

  /** The call `onReject(id, reason)` when the callback is there, nothing otherwise. */
  function RejectCall(requisition: Requisition, hasReject: bool, reason: string): (r: Option<ApprovalAction>)
    ensures r.Some? <==> hasReject
    ensures r.Some? ==> r.value.requisitionId == requisition.id && r.value.action == Reject && r.value.notes == Some(reason)
  {
    if hasReject then Some(ApprovalAction(requisition.id, Reject, Some(reason))) else None
  }

  class RequisitionModal {
    const requisition: Requisition
    const hasApprove: bool
    const hasReject: bool
    var notes: string
    var reason: string
    var showApproveForm: bool
    var showRejectForm: bool
    var closed: bool

    /** At most one form is open, and a form is open only inside a rendered actions section. */
    ghost predicate Valid()
      reads this
    {
      && !(showApproveForm && showRejectForm)
      && (showApproveForm || showRejectForm ==> ActionsShown(requisition.status, hasApprove, hasReject))
    }

    /** Both texts empty, both forms closed. */
    constructor (requisition: Requisition, hasApprove: bool, hasReject: bool)
      ensures Valid()
      ensures this.requisition == requisition && this.hasApprove == hasApprove && this.hasReject == hasReject
      ensures notes == "" && reason == "" && !showApproveForm && !showRejectForm && !closed
    {
      this.requisition := requisition;
      this.hasApprove := hasApprove;
      this.hasReject := hasReject;
      notes := "";
      reason := "";
      showApproveForm := false;
      showRejectForm := false;
      closed := false;
    }

    /** The openers are rendered only while neither form is open. */
    predicate OpenersShown()
      reads this
    {
      ActionsShown(requisition.status, hasApprove, hasReject) && !showApproveForm && !showRejectForm
    }

    /** The "Approve" opener. */
    method ClickOpenApprove()
      requires Valid()
      modifies this
      ensures Valid()
      ensures showApproveForm == (old(showApproveForm) || old(OpenersShown()))
      ensures showRejectForm == old(showRejectForm)
      ensures notes == old(notes) && reason == old(reason) && closed == old(closed)
    {
      if OpenersShown() {
        showApproveForm := true;
      }
    }

    /** The "Reject" opener. */
    method ClickOpenReject()
      requires Valid()
      modifies this
      ensures Valid()
      ensures showRejectForm == (old(showRejectForm) || old(OpenersShown()))
      ensures showApproveForm == old(showApproveForm)
      ensures notes == old(notes) && reason == old(reason) && closed == old(closed)
    {
      if OpenersShown() {
        showRejectForm := true;
      }
    }

    /** Cancel in the approve form clears that flag only. */
    method ClickCancelApprove()
      requires Valid()
      modifies this
      ensures Valid()
      ensures !showApproveForm && showRejectForm == old(showRejectForm)
      ensures notes == old(notes) && reason == old(reason) && closed == old(closed)
    {
      showApproveForm := false;
    }

    /** Cancel in the reject form clears that flag only. */
    method ClickCancelReject()
      requires Valid()
      modifies this
      ensures Valid()
      ensures !showRejectForm && showApproveForm == old(showApproveForm)
      ensures notes == old(notes) && reason == old(reason) && closed == old(closed)
    {
      showRejectForm := false;
    }

    /** Typing in the notes box, which exists only while the approve form is open. */
    method EditNotes(text: string)
      requires Valid()
      modifies this
      ensures Valid()
      ensures notes == if old(showApproveForm) then text else old(notes)
      ensures reason == old(reason) && showApproveForm == old(showApproveForm)
      ensures showRejectForm == old(showRejectForm) && closed == old(closed)
    {
      if showApproveForm {
        notes := text;
      }
    }

    /** Typing in the reason box, which exists only while the reject form is open. */
    method EditReason(text: string)
      requires Valid()
      modifies this
      ensures Valid()
      ensures reason == if old(showRejectForm) then text else old(reason)
      ensures notes == old(notes) && showApproveForm == old(showApproveForm)
      ensures showRejectForm == old(showRejectForm) && closed == old(closed)
    {
      if showRejectForm {
        reason := text;
      }
    }

    /** `handleApprove`: call `onApprove` when supplied, then close in every case. */
    method HandleApprove() returns (call: Option<ApprovalAction>)
      requires Valid()
      modifies this
      ensures Valid()
      ensures call == ApproveCall(requisition, hasApprove, notes)
      ensures closed && notes == old(notes) && reason == old(reason)
      ensures showApproveForm == old(showApproveForm) && showRejectForm == old(showRejectForm)
    {
      call := ApproveCall(requisition, hasApprove, notes);
      closed := true;
    }

    /** `handleReject`: call `onReject` when supplied, then close in every case. */
    method HandleReject() returns (call: Option<ApprovalAction>)
      requires Valid()
      modifies this
      ensures Valid()
      ensures call == RejectCall(requisition, hasReject, reason)
      ensures closed && notes == old(notes) && reason == old(reason)
      ensures showApproveForm == old(showApproveForm) && showRejectForm == old(showRejectForm)
    {
      call := RejectCall(requisition, hasReject, reason);
      closed := true;
    }

    /** Confirm Approval, rendered only in the open approve form: it approves with the current notes. */
    method ClickConfirmApproval() returns (call: Option<ApprovalAction>)
      requires Valid()
      modifies this
      ensures Valid()
      ensures old(showApproveForm) ==> closed && call == Some(ApprovalAction(requisition.id, Approve, Some(notes)))
      ensures !old(showApproveForm) ==> call.None? && closed == old(closed)
      ensures notes == old(notes) && reason == old(reason)
      ensures showApproveForm == old(showApproveForm) && showRejectForm == old(showRejectForm)
    {
      call := None;
      if showApproveForm {
        call := HandleApprove();
      }
    }

    /**
     * Confirm Rejection, rendered only in the open reject form and
     * disabled while the reason is blank: a rejection always carries a
     * reason with a character that is not white space.
     */
    method ClickConfirmRejection() returns (call: Option<ApprovalAction>)
      requires Valid()
      modifies this
      ensures Valid()
      ensures old(showRejectForm) && ConfirmRejectEnabled(old(reason)) ==>
        closed && call == Some(ApprovalAction(requisition.id, Reject, Some(reason)))
      ensures !(old(showRejectForm) && ConfirmRejectEnabled(old(reason))) ==> call.None? && closed == old(closed)
      ensures call.Some? ==> exists i :: 0 <= i < |reason| && !IsSpace(reason[i])
      ensures notes == old(notes) && reason == old(reason)
      ensures showApproveForm == old(showApproveForm) && showRejectForm == old(showRejectForm)
    {
      call := None;
      if showRejectForm && ConfirmRejectEnabled(reason) {
        EnabledReasonNotBlank(reason);
        call := HandleReject();
      }
    }
  }
}
