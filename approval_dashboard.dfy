/**
 * The approval dashboard: the queue of pending requisitions, and the
 * approve and reject handlers that post a three-field body to the update
 * route and drop the entry from the queue when the request succeeds.
 *
 * The update route overwrites nine fields from the body, and these
 * bodies carry neither title, description nor total, so the server
 * refuses every one of them: the handlers never reach their success path.
 */
module ApprovalDashboard {
  import opened Types
  import opened Seqs
  import opened RequisitionSchema
  import opened RequisitionRoutes
  import opened RequisitionList

  /** The fetched requisitions whose status is `pending`, in fetched order. */
  function PendingQueue(fetched: seq<Requisition>): (q: seq<Requisition>)
    ensures forall r :: r in q <==> r in fetched && r.status == Pending
    ensures IsSubsequence(q, fetched)
  {
    FilterIsSubsequence(fetched, HasStatus(Pending));
    Filter(fetched, HasStatus(Pending))
  }

  /** The signed-in user's id, absent when nobody is signed in. */
  function UserId(user: Option<User>): (r: Option<Id>)
    ensures r.Some? <==> user.Some?
  {
    if user.Some? then Some(user.value.id) else None
  }

  /** The approve body: status, approver and notes, nothing else. */
  function ApproveBody(user: Option<User>, notes: string): (b: Body)
    ensures b.status == Some("approved") && b.approvedBy == UserId(user) && b.processingNotes == Some(notes)
    ensures b.title.None? && b.description.None? && b.items.None? && b.totalCost.None?
    ensures b.createdBy.None? && b.rejectedBy.None? && b.rejectionReason.None?
  {
    Body(None, None, None, None, Some("approved"), None, UserId(user), None, None, Some(notes))
  }

  /** The reject body: status, rejecter and reason, nothing else. */
  function RejectBody(user: Option<User>, reason: string): (b: Body)
    ensures b.status == Some("rejected") && b.rejectedBy == UserId(user) && b.rejectionReason == Some(reason)
    ensures b.title.None? && b.description.None? && b.items.None? && b.totalCost.None?
    ensures b.createdBy.None? && b.approvedBy.None? && b.processingNotes.None?
  {
    Body(None, None, None, None, Some("rejected"), None, None, UserId(user), Some(reason), None)
  }

  /** The test `_id !== id`. */
  function NotId(id: Id): Requisition -> bool
  {
    (r: Requisition) => r.id != id
  }

  /** `filter(req => req._id !== id)`: every entry with that id goes, the rest keep their order. */
  function RemoveById(queue: seq<Requisition>, id: Id): (r: seq<Requisition>)
    ensures forall x :: x in r <==> x in queue && x.id != id
    ensures IsSubsequence(r, queue)
  {
    FilterIsSubsequence(queue, NotId(id));
    Filter(queue, NotId(id))
  }

  /** Removing an id that is not queued leaves the queue as it was. */
  lemma {:induction false} RemoveAbsentId(queue: seq<Requisition>, id: Id)
    requires forall i :: 0 <= i < |queue| ==> queue[i].id != id
    ensures RemoveById(queue, id) == queue
  {
    FilterKeepsAll(queue, NotId(id));
  }

  /** The server refuses the approve body for every stored requisition. */
  lemma {:induction false} ApproveBodyRefused(doc: RequisitionDoc, user: Option<User>, notes: string, now: Time)
    ensures !ValidRequisition(Overwrite(doc, ApproveBody(user, notes), now))
  {
    MissingRequiredFieldRefused(doc, ApproveBody(user, notes), now);
  }

  /** The server refuses the reject body for every stored requisition. */
  lemma {:induction false} RejectBodyRefused(doc: RequisitionDoc, user: Option<User>, reason: string, now: Time)
    ensures !ValidRequisition(Overwrite(doc, RejectBody(user, reason), now))
  {
    MissingRequiredFieldRefused(doc, RejectBody(user, reason), now);
  }

  /**
   * A requisition just created by the add route arrives as a draft, so it
   * never enters the approval queue; nothing in the model moves it to
   * `pending`.
   */
  lemma {:induction false} NewRequisitionNeverQueued(id: Id, body: Body, now: Time, fetched: seq<Requisition>)
    requires ValidRequisition(NewRecord(body, now))
    ensures View(id, NewRecord(body, now)) !in PendingQueue(fetched)
  {
    AddedRecordIsDraft(body, id, now);
  }

  class ApprovalDashboard {
    const user: Option<User>
    var requisitions: seq<Requisition>

    /** The page after its fetch: only pending requisitions are kept. */
    constructor (user: Option<User>, fetched: seq<Requisition>)
      ensures this.user == user && requisitions == PendingQueue(fetched)
    {
      this.user := user;
      requisitions := PendingQueue(fetched);
    }

    /**
     * `handleApprove(id, notes)`: posts the approve body; `accepted` is the
     * update route's answer. An accepted request drops the entry from the
     * queue; a refused one leaves the queue as it was.
     */
    method HandleApprove(id: Id, notes: string, accepted: bool) returns (sent: Body)
      modifies this
      ensures sent == ApproveBody(user, notes)
      ensures requisitions == if accepted then RemoveById(old(requisitions), id) else old(requisitions)
    {
      sent := ApproveBody(user, notes);
      if accepted {
        requisitions := RemoveById(requisitions, id);
      }
    }

    /** `handleReject(id, reason)`: the same, with the reject body. */
    method HandleReject(id: Id, reason: string, accepted: bool) returns (sent: Body)
      modifies this
      ensures sent == RejectBody(user, reason)
      ensures requisitions == if accepted then RemoveById(old(requisitions), id) else old(requisitions)
    {
      sent := RejectBody(user, reason);
      if accepted {
        requisitions := RemoveById(requisitions, id);
      }
    }
  }

  /** The body a dashboard decision posts. */
  function DecisionBody(kind: ApprovalKind, user: Option<User>, text: string): (b: Body)
    ensures kind == Approve ==> b == ApproveBody(user, text)
    ensures kind == Reject ==> b == RejectBody(user, text)
  {
    match kind
    case Approve => ApproveBody(user, text)
    case Reject => RejectBody(user, text)
  }

  /**
   * The update route's answer to a dashboard decision, whatever the
   * stored requisition: it is refused and the store is left as it was,
   * so the handlers always take their failure path and the queue never
   * changes.
   */
  method SendDecision(store: RequisitionStore, id: Id, kind: ApprovalKind, user: Option<User>, text: string, now: Time)
    returns (accepted: bool)
    requires store.Valid()
    modifies store
    ensures store.Valid()
    ensures !accepted && store.records == old(store.records)
  {
    accepted := store.Update(id, DecisionBody(kind, user, text), now);
  }
}
