/**
 * The admin dashboard: the queue of approved requisitions, its total
 * value, and completing one, which only drops it from the page's list.
 */
module AdminDashboard {
  import opened Types
  import opened Seqs
  import opened RequisitionList
  import opened ApprovalDashboard
  import opened Dashboard

  /** The fetched requisitions whose status is `approved`, in fetched order. */
  function ApprovedQueue(fetched: seq<Requisition>): (q: seq<Requisition>)
    ensures forall r :: r in q <==> r in fetched && r.status == Approved
    ensures IsSubsequence(q, fetched)
  {
    FilterIsSubsequence(fetched, HasStatus(Approved));
    Filter(fetched, HasStatus(Approved))
  }

  /** One requisition's contribution to the total. */
  function CostOf(r: Requisition): int
  {
    r.totalCost
  }

  /** `reduce((sum, req) => sum + req.totalCost, 0)`. */
  function TotalValue(queue: seq<Requisition>): int
  {
    SumOf(queue, CostOf)
  }

  /** The test `id === id`, the complement of `NotId`. */
  function HasId(id: Id): Requisition -> bool
  {
    (r: Requisition) => r.id == id
  }

  /**
   * The "Approved" figure, the queue's length, equals the approved
   * figure the main dashboard shows for the same fetched list.
   */
  lemma {:induction false} ApprovedFigureIsCount(fetched: seq<Requisition>)
    ensures |ApprovedQueue(fetched)| == ComputeStats(fetched).approved
    ensures |ApprovedQueue(fetched)| <= |fetched|
  {
  }

  /** Removing an id takes exactly the costs of the entries with that id off the total. */
  lemma {:induction false} RemoveSubtractsCosts(queue: seq<Requisition>, id: Id)
    ensures TotalValue(RemoveById(queue, id)) == TotalValue(queue) - SumOf(Filter(queue, HasId(id)), CostOf)
  {
    SumOfSplits(queue, CostOf, NotId(id), HasId(id));
  }

  /** Non-negative costs add up to a non-negative total. */
  lemma {:induction false} SumNonNegative(queue: seq<Requisition>)
    requires forall i :: 0 <= i < |queue| ==> queue[i].totalCost >= 0
    ensures TotalValue(queue) >= 0
  {
    if queue != [] {
      SumNonNegative(queue[..|queue| - 1]);
    }
  }

  class AdminDashboard {
    var requisitions: seq<Requisition>

    /** The page after its fetch: only approved requisitions are kept. */
    constructor (fetched: seq<Requisition>)
      ensures requisitions == ApprovedQueue(fetched)
    {
      requisitions := ApprovedQueue(fetched);
    }

    /**
     * `handleCompleteProcessing(id)`: every entry with that id leaves the
     * list and the shown total drops by their costs. Nothing is sent to
     * the server.
     */
    method HandleCompleteProcessing(id: Id)
      modifies this
      ensures requisitions == RemoveById(old(requisitions), id)
      ensures TotalValue(requisitions) == TotalValue(old(requisitions)) - SumOf(Filter(old(requisitions), HasId(id)), CostOf)
    {
      RemoveSubtractsCosts(requisitions, id);
      requisitions := RemoveById(requisitions, id);
    }
  }

  /** Completing with non-negative costs never raises the total value. */
  lemma {:induction false} CompletingNeverRaisesTotal(queue: seq<Requisition>, id: Id)
    requires forall i :: 0 <= i < |queue| ==> queue[i].totalCost >= 0
    ensures TotalValue(RemoveById(queue, id)) <= TotalValue(queue)
  {
    var removed := Filter(queue, HasId(id));
    RemoveSubtractsCosts(queue, id);
    forall i | 0 <= i < |removed|
      ensures removed[i].totalCost >= 0
    {
      assert removed[i] in queue;
    }
    SumNonNegative(removed);
  }
}
