/**
 * The dashboard page: the viewer's list (the same role rule as the list
 * page), four per-status counts and the five most recent entries.
 */
module Dashboard {
  import opened Types
  import opened Seqs
  import opened RequisitionList

  /** `requisitions.filter(r => r.status === s).length`. */
  function StatusCount(xs: seq<Requisition>, s: Status): (n: nat)
    ensures n <= |xs|
  {
    Count(xs, HasStatus(s))
  }

  /** The four figures at the top of the page; draft and processing have none. */
  datatype Stats = Stats(pending: nat, approved: nat, completed: nat, rejected: nat)

  /** Each status drops out of the count on the rest of the list, one element at a time. */
  lemma CountUnfold(xs: seq<Requisition>, s: Status)
    requires xs != []
    ensures StatusCount(xs, s) == (if xs[0].status == s then 1 else 0) + StatusCount(xs[1..], s)
  {
  }

  /** The six per-status counts add up to the length of the list: every requisition has exactly one status. */
  lemma {:induction false} StatusCountsPartition(xs: seq<Requisition>)
    ensures StatusCount(xs, Draft) + StatusCount(xs, Pending) + StatusCount(xs, Approved)
          + StatusCount(xs, Rejected) + StatusCount(xs, Processing) + StatusCount(xs, Completed) == |xs|
  {
    if xs != [] {
      StatusCountsPartition(xs[1..]);
      CountUnfold(xs, Draft);
      CountUnfold(xs, Pending);
      CountUnfold(xs, Approved);
      CountUnfold(xs, Rejected);
      CountUnfold(xs, Processing);
      CountUnfold(xs, Completed);
    }
  }

  /** `stats`: the pending, approved, completed and rejected counts. */
  function ComputeStats(xs: seq<Requisition>): (st: Stats)
    ensures st.pending == StatusCount(xs, Pending) && st.approved == StatusCount(xs, Approved)
    ensures st.completed == StatusCount(xs, Completed) && st.rejected == StatusCount(xs, Rejected)
    ensures st.pending + st.approved + st.completed + st.rejected
         == |xs| - StatusCount(xs, Draft) - StatusCount(xs, Processing)
    ensures st.pending + st.approved + st.completed + st.rejected <= |xs|
  {
    StatusCountsPartition(xs);
    Stats(StatusCount(xs, Pending), StatusCount(xs, Approved),
          StatusCount(xs, Completed), StatusCount(xs, Rejected))
  }

  /** A status's count is positive exactly when some requisition in the list has it. */
  lemma StatusCountPositive(xs: seq<Requisition>, s: Status)
    ensures StatusCount(xs, s) > 0 <==> exists i :: 0 <= i < |xs| && xs[i].status == s
  {
    var p := Filter(xs, HasStatus(s));
    if exists i :: 0 <= i < |xs| && xs[i].status == s {
      var i :| 0 <= i < |xs| && xs[i].status == s;
      assert xs[i] in p;
    }
    if |p| > 0 {
      assert p[0] in xs;
    }
  }

  /** `slice(0, 5)`: the first five entries, or all of them when there are fewer. */
  function Recent(xs: seq<Requisition>): (r: seq<Requisition>)
    ensures |r| == if |xs| < 5 then |xs| else 5
    ensures forall i :: 0 <= i < |r| ==> r[i] == xs[i]
  {
    if |xs| < 5 then xs else xs[..5]
  }

  /** A `user`'s figures never exceed the counts over every requisition: they count only their own. */
  lemma {:induction false} OwnCountsBounded(user: User, all: seq<Requisition>, s: Status)
    requires user.role == UserRole
    ensures StatusCount(Visible(Some(user), all), s) <= StatusCount(all, s)
    ensures StatusCount(Visible(Some(user), all), s) == |Filter(Filter(all, HasStatus(s)), OwnedBy(user.id))|
  {
    FilterCommutes(all, OwnedBy(user.id), HasStatus(s));
  }
}
