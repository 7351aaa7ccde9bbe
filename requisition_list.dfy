/**
 * The requisition list page: which requisitions a viewer may see, then
 * the search and status filters applied to that list. Every step is a
 * filter, so what is displayed is always an order-preserving selection
 * of what is visible.
 */
module RequisitionList {
  import opened Types
  import opened Text
  import opened Seqs

  /** The test `createdBy === id`. */
  function OwnedBy(id: Id): Requisition -> bool
  {
    (r: Requisition) => r.createdBy == id
  }

  /** The test `status === s`. */
  function HasStatus(s: Status): Requisition -> bool
  {
    (r: Requisition) => r.status == s
  }

  /** The role visibility rule: a `user` sees what they created; a manager, an admin or no one signed in sees all. */
  function Visible(user: Option<User>, all: seq<Requisition>): (v: seq<Requisition>)
    ensures user.Some? && user.value.role == UserRole ==>
      forall r :: r in v <==> r in all && r.createdBy == user.value.id
    ensures !(user.Some? && user.value.role == UserRole) ==> v == all
  {
    if user.Some? && user.value.role == UserRole then Filter(all, OwnedBy(user.value.id))
    else all
  }

  /** The search test: the lower-cased query occurs in the lower-cased title or description. */
  predicate MatchesQuery(r: Requisition, query: string)
  {
    Contains(Lower(r.title), Lower(query)) || Contains(Lower(r.description), Lower(query))
  }

  /** The search test as a filter argument. */
  function Matching(query: string): Requisition -> bool
  {
    (r: Requisition) => MatchesQuery(r, query)
  }

  /** The search filter; an empty query switches it off. */
  function SearchFilter(xs: seq<Requisition>, query: string): (r: seq<Requisition>)
    ensures query == "" ==> r == xs
    ensures query != "" ==> forall x :: x in r <==> x in xs && MatchesQuery(x, query)
  {
    if query == "" then xs else Filter(xs, Matching(query))
  }

  /** The status drop-down: `all`, or one of the six statuses. */
  datatype StatusChoice = AllStatuses | Only(status: Status)

  /** The status filter. */
  function StatusFilter(xs: seq<Requisition>, choice: StatusChoice): (r: seq<Requisition>)
    ensures choice == AllStatuses ==> r == xs
    ensures choice.Only? ==> forall x :: x in r <==> x in xs && x.status == choice.status
  {
    if choice == AllStatuses then xs else Filter(xs, HasStatus(choice.status))
  }

  /** What the page shows: search first, then status. */
  function Displayed(visible: seq<Requisition>, query: string, choice: StatusChoice): seq<Requisition>
  {
    StatusFilter(SearchFilter(visible, query), choice)
  }

  /** An empty query would match everything anyway, so switching the search off changes nothing. */
  lemma {:induction false} EmptyQueryMatchesAll(r: Requisition)
    ensures MatchesQuery(r, "")
  {
    ContainsEmpty(Lower(r.title));
  }

  /** Searching ignores the case of the query. */
  lemma SearchIgnoresQueryCase(query: string)
    ensures forall x :: MatchesQuery(x, Lower(query)) == MatchesQuery(x, query)
  {
    LowerIdempotent(query);
  }

  /** The visible list is an order-preserving selection of all requisitions. */
  lemma {:induction false} VisibleIsSubsequence(user: Option<User>, all: seq<Requisition>)
    ensures IsSubsequence(Visible(user, all), all)
  {
    if user.Some? && user.value.role == UserRole {
      FilterIsSubsequence(all, OwnedBy(user.value.id));
    } else {
      SubsequenceReflexive(all);
    }
  }

  /** The displayed list is an order-preserving selection of the visible list. */
  lemma {:induction false} DisplayedIsSubsequence(visible: seq<Requisition>, query: string, choice: StatusChoice)
    ensures IsSubsequence(Displayed(visible, query, choice), visible)
  {
    var searched := SearchFilter(visible, query);
    if query == "" {
      SubsequenceReflexive(visible);
    } else {
      FilterIsSubsequence(visible, Matching(query));
    }
    if choice == AllStatuses {
      SubsequenceReflexive(searched);
    } else {
      FilterIsSubsequence(searched, HasStatus(choice.status));
    }
    SubsequenceTransitive(Displayed(visible, query, choice), searched, visible);
  }

  /** The two filters commute. */
  lemma {:induction false} FiltersCommute(xs: seq<Requisition>, query: string, choice: StatusChoice)
    ensures StatusFilter(SearchFilter(xs, query), choice) == SearchFilter(StatusFilter(xs, choice), query)
  {
    if query != "" && choice.Only? {
      FilterCommutes(xs, Matching(query), HasStatus(choice.status));
    }
  }

  /** A requisition is displayed exactly when it is visible, matches the search and passes the status choice. */
  lemma DisplayedMembership(visible: seq<Requisition>, query: string, choice: StatusChoice, r: Requisition)
    ensures r in Displayed(visible, query, choice) <==>
      r in visible && (query == "" || MatchesQuery(r, query)) && (choice == AllStatuses || r.status == choice.status)
  {
  }
}
