/**
 * The requisition routes over a keyed store of documents: list with an
 * optional `createdBy` filter, add, get by id, the nine-field overwrite
 * update and delete. Every save runs the schema validation; a save that
 * fails leaves the store as it was.
 */
module RequisitionRoutes {
  import opened Types
  import opened RequisitionSchema

  /** A request body: each field the client may send, each possibly absent. */
  datatype Body = Body(
    title: Option<string>,
    description: Option<string>,
    items: Option<seq<ItemDoc>>,
    totalCost: Option<int>,
    status: Option<string>,
    createdBy: Option<Id>,
    approvedBy: Option<Id>,
    rejectedBy: Option<Id>,
    rejectionReason: Option<string>,
    processingNotes: Option<string>)

  /**
   * The document `add` builds: title, description, items, totalCost and
   * createdBy from the body, the schema default for status, no audit
   * fields, both timestamps at `now`.
   */
  function NewRecord(body: Body, now: Time): (d: RequisitionDoc)
    ensures d.title == body.title && d.description == body.description && d.items == body.items
    ensures d.totalCost == body.totalCost && d.createdBy == body.createdBy
    ensures d.status == Some("draft")
    ensures d.approvedBy.None? && d.rejectedBy.None? && d.rejectionReason.None? && d.processingNotes.None?
    ensures d.createdAt == now && d.updatedAt == now
  {
    RequisitionDoc(body.title, body.description, body.items, body.totalCost,
                   WithDefaultStatus(None), body.createdBy, None, None, None, None, now, now)
  }

  /**
   * The update handler: the nine fields are assigned from the body
   * unconditionally (an absent one becomes absent), owner and creation
   * time are kept, and the save refreshes `updatedAt`.
   */
  function Overwrite(doc: RequisitionDoc, body: Body, now: Time): (d: RequisitionDoc)
    ensures d.title == body.title && d.description == body.description && d.items == body.items
    ensures d.totalCost == body.totalCost && d.status == body.status
    ensures d.approvedBy == body.approvedBy && d.rejectedBy == body.rejectedBy
    ensures d.rejectionReason == body.rejectionReason && d.processingNotes == body.processingNotes
    ensures d.createdBy == doc.createdBy && d.createdAt == doc.createdAt && d.updatedAt == now
  {
    doc.(title := body.title, description := body.description, items := body.items,
         totalCost := body.totalCost, status := body.status, approvedBy := body.approvedBy,
         rejectedBy := body.rejectedBy, rejectionReason := body.rejectionReason,
         processingNotes := body.processingNotes, updatedAt := now)
  }

  /** The body that resends a document's own nine fields, with the status replaced. */
  function ResendWithStatus(doc: RequisitionDoc, status: string): (b: Body)
    ensures b.status == Some(status)
  {
    Body(doc.title, doc.description, doc.items, doc.totalCost, Some(status), doc.createdBy,
         doc.approvedBy, doc.rejectedBy, doc.rejectionReason, doc.processingNotes)
  }

  class RequisitionStore {
    var records: map<Id, RequisitionDoc>
    var nextId: Id

    /** Ids are below the next fresh id, and every stored document passed validation. */
    ghost predicate Valid()
      reads this
    {
      && (forall id :: id in records ==> id < nextId)
      && (forall id :: id in records ==> ValidRequisition(records[id]))
    }

    constructor ()
      ensures Valid() && records == map[]
    {
      records := map[];
      nextId := 0;
    }

    /** GET /: every record, or exactly those whose `createdBy` equals the query value. */
    method List(createdBy: Option<Id>) returns (result: map<Id, RequisitionDoc>)
      ensures forall id :: id in result <==> id in records && (createdBy.None? || records[id].createdBy == createdBy)
      ensures forall id :: id in result ==> result[id] == records[id]
    {
      if createdBy.Some? {
        result := map id | id in records && records[id].createdBy == createdBy :: records[id];
      } else {
        result := records;
      }
    }

    /** GET /:id: the record, or nothing when the id is unknown. */
    method Get(id: Id) returns (r: Option<RequisitionDoc>)
      ensures r.Some? <==> id in records
      ensures r.Some? ==> r.value == records[id]
    {
      if id in records {
        r := Some(records[id]);
      } else {
        r := None;
      }
    }

    /** POST /add: saves `NewRecord(body, now)` under a fresh id when it validates. */
    method Add(body: Body, now: Time) returns (ok: bool, id: Id)
      requires Valid()
      modifies this
      ensures Valid()
      ensures ok <==> ValidRequisition(NewRecord(body, now))
      ensures ok ==> id !in old(records) && records == old(records)[id := NewRecord(body, now)]
      ensures !ok ==> records == old(records)
    {
      var doc := NewRecord(body, now);
      ok := ValidRequisition(doc);
      id := nextId;
      if ok {
        records := records[id := doc];
        nextId := nextId + 1;
      }
    }

    /**
     * POST /update/:id: an unknown id fails; otherwise the overwritten
     * document is saved if it validates, and nothing changes if it does not.
     */
    method Update(id: Id, body: Body, now: Time) returns (ok: bool)
      requires Valid()
      modifies this
      ensures Valid() && nextId == old(nextId)
      ensures ok <==> id in old(records) && ValidRequisition(Overwrite(old(records)[id], body, now))
      ensures records == if ok then old(records)[id := Overwrite(old(records)[id], body, now)] else old(records)
    {
      ok := false;
      if id in records {
        var doc := Overwrite(records[id], body, now);
        if ValidRequisition(doc) {
          records := records[id := doc];
          ok := true;
        }
      }
    }

    /** DELETE /:id: removes that record, if any, and reports success either way. */
    method Delete(id: Id)
      requires Valid()
      modifies this
      ensures Valid() && nextId == old(nextId)
      ensures records == old(records) - {id}
    {
      records := records - {id};
    }
  }

  /** Add reads only five body fields: a status or audit field in the body makes no difference. */
  lemma AddUsesFiveFields(b1: Body, b2: Body, now: Time)
    requires b1.title == b2.title && b1.description == b2.description && b1.items == b2.items
    requires b1.totalCost == b2.totalCost && b1.createdBy == b2.createdBy
    ensures NewRecord(b1, now) == NewRecord(b2, now)
  {
  }

  /** Add stores the caller's `totalCost` as sent: no total is refused, whatever the items. */
  lemma AddAcceptsAnyTotal(body: Body, now: Time, total: int)
    requires ValidRequisition(NewRecord(body, now))
    ensures ValidRequisition(NewRecord(body.(totalCost := Some(total)), now))
    ensures NewRecord(body.(totalCost := Some(total)), now).totalCost == Some(total)
  {
  }

  /** Update reads only the nine fields: a `createdBy` in the body is ignored. */
  lemma OverwriteUsesNineFields(doc: RequisitionDoc, b1: Body, b2: Body, now: Time)
    requires b1.(createdBy := b2.createdBy) == b2
    ensures Overwrite(doc, b1, now) == Overwrite(doc, b2, now)
  {
  }

  /**
   * An overwrite of a valid document validates exactly when the body
   * carries the required fields, a status from the enumeration and
   * valid items.
   */
  lemma OverwriteAcceptedIff(doc: RequisitionDoc, body: Body, now: Time)
    requires ValidRequisition(doc)
    ensures ValidRequisition(Overwrite(doc, body, now)) <==>
      RequiredString(body.title) && RequiredString(body.description) && body.totalCost.Some?
      && ValidStatus(body.status) && ValidItems(body.items)
  {
  }

  /** A body that omits title, description or totalCost is refused. */
  lemma MissingRequiredFieldRefused(doc: RequisitionDoc, body: Body, now: Time)
    requires body.title.None? || body.description.None? || body.totalCost.None?
    ensures !ValidRequisition(Overwrite(doc, body, now))
  {
  }

  /**
   * No transition guard: from any saved document, whatever its status
   * (completed included), resending its fields with any enumeration
   * status is accepted and sets that status.
   */
  lemma NoTransitionGuard(doc: RequisitionDoc, target: Status, now: Time)
    requires ValidRequisition(doc)
    ensures ValidRequisition(Overwrite(doc, ResendWithStatus(doc, StatusName(target)), now))
    ensures Overwrite(doc, ResendWithStatus(doc, StatusName(target)), now).status == Some(StatusName(target))
  {
    StatusNameRoundTrip(target);
  }

  /** An item document as the client receives it; its position stands in for its id. */
  function ItemView(index: Id, item: ItemDoc): (r: Item)
    requires ValidItem(item)
    ensures r.id == index && r.quantity == item.quantity.value && r.estimatedCost == item.estimatedCost.value
    ensures r.name == item.name.value && r.description == item.description.value
    ensures r.justification == item.justification.value
  {
    Item(index, item.name.value, item.description.value, item.quantity.value,
         item.estimatedCost.value, item.justification.value)
  }

  /** A saved document as the client receives it from GET /. */
  function View(id: Id, doc: RequisitionDoc): (r: Requisition)
    requires ValidRequisition(doc)
    ensures r.id == id && StatusName(r.status) == doc.status.value
    ensures r.createdBy == doc.createdBy.value && r.totalCost == doc.totalCost.value
    ensures r.approvedBy == doc.approvedBy && r.rejectedBy == doc.rejectedBy
    ensures r.approvedAt.None? && r.rejectedAt.None?
    ensures r.title == doc.title.value && r.description == doc.description.value
    ensures r.createdAt == doc.createdAt && r.updatedAt == doc.updatedAt
    ensures r.rejectionReason == doc.rejectionReason && r.processingNotes == doc.processingNotes
    ensures |r.items| == if doc.items.Some? then |doc.items.value| else 0
    ensures doc.items.Some? ==> forall i :: 0 <= i < |doc.items.value| ==> r.items[i] == ItemView(i, doc.items.value[i])
  {
    var items := if doc.items.Some? then doc.items.value else [];
    Requisition(
      id, doc.title.value, doc.description.value,
      seq(|items|, i requires 0 <= i < |items| => ItemView(i, items[i])),
      doc.totalCost.value, ParseStatus(doc.status.value).value, doc.createdBy.value,
      doc.createdAt, doc.updatedAt, doc.approvedBy, None, doc.rejectedBy, None,
      doc.rejectionReason, doc.processingNotes)
  }

  /** Whatever the body says, a requisition that add saves reaches the client as a draft. */
  lemma AddedRecordIsDraft(body: Body, id: Id, now: Time)
    requires ValidRequisition(NewRecord(body, now))
    ensures View(id, NewRecord(body, now)).status == Draft
  {
    StatusNameInjective(View(id, NewRecord(body, now)).status, Draft);
  }
}
