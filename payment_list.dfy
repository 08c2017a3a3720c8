/** The payment history view: the case-insensitive concept search, the
    ordering of the shown list, and the sort buttons' state. */
module PaymentList {
  import opened Text
  import opened Payments

  /** `payment.concept.toLowerCase().includes(searchTerm.toLowerCase())` */
  predicate Matches(p: Payment, searchTerm: string): (m: bool)
    ensures searchTerm == [] ==> m
    ensures ToLower(searchTerm) == ToLower(p.concept) ==> m
  {
    Contains(ToLower(p.concept), ToLower(searchTerm))
  }

  /** `result.filter(...)`: keeps the matching payments, each as often as it
      occurs, in their order. */
  function Filter(payments: seq<Payment>, searchTerm: string): (r: seq<Payment>)
    ensures forall p :: multiset(r)[p] == if Matches(p, searchTerm) then multiset(payments)[p] else 0
    ensures forall i :: 0 <= i < |r| ==> Matches(r[i], searchTerm)
  {
    if payments == [] then []
    else
      var rest := Filter(payments[1..], searchTerm);
      assert payments == [payments[0]] + payments[1..];
      if Matches(payments[0], searchTerm) then [payments[0]] + rest else rest
  }

  /** The `useMemo` list: the payments matching a non-empty search term (all
      of them for an empty one), in the chosen order. The result is a new
      list; `payments` itself is not reordered. */
  function FilteredAndSorted(payments: seq<Payment>, searchTerm: string, sortBy: SortField, sortOrder: SortOrder)
    : (r: seq<Payment>)
    ensures Sorted(r, sortBy, sortOrder)
    ensures searchTerm == [] ==> multiset(r) == multiset(payments)
    ensures searchTerm != [] ==>
      forall p :: multiset(r)[p] == if Matches(p, searchTerm) then multiset(payments)[p] else 0
  {
    var result := if searchTerm != [] then Filter(payments, searchTerm) else payments;
    Sort(result, sortBy, sortOrder)
  }

  /** Every payment shown matches the search term, and none that matches is
      left out. */
  lemma {:induction false} ShownIffMatches(payments: seq<Payment>, searchTerm: string, sortBy: SortField, sortOrder: SortOrder, p: Payment)
    ensures p in FilteredAndSorted(payments, searchTerm, sortBy, sortOrder) <==>
            p in payments && (searchTerm == [] || Matches(p, searchTerm))
  {
    var r := FilteredAndSorted(payments, searchTerm, sortBy, sortOrder);
    assert p in r <==> multiset(r)[p] > 0;
    assert p in payments <==> multiset(payments)[p] > 0;
  }

  /** The search ignores case: searching for a term or its lower-case form
      shows the same list. */
  lemma SearchIgnoresCase(payments: seq<Payment>, searchTerm: string, sortBy: SortField, sortOrder: SortOrder)
    requires searchTerm != []
    ensures FilteredAndSorted(payments, ToLower(searchTerm), sortBy, sortOrder)
         == FilteredAndSorted(payments, searchTerm, sortBy, sortOrder)
  {
    ToLowerIdempotent(searchTerm);
    FilterIgnoresCase(payments, searchTerm);
  }

  lemma {:induction false} FilterIgnoresCase(payments: seq<Payment>, searchTerm: string)
    requires ToLower(ToLower(searchTerm)) == ToLower(searchTerm)
    ensures Filter(payments, ToLower(searchTerm)) == Filter(payments, searchTerm)
  {
    if payments != [] {
      FilterIgnoresCase(payments[1..], searchTerm);
    }
  }

  /** The `sortBy` and `sortOrder` state. */
  datatype SortState = SortState(sortBy: SortField, sortOrder: SortOrder)

  /** What `handleSortChange(newSortBy)` makes of the state. */
  function SortChange(s: SortState, newSortBy: SortField): (t: SortState)
    ensures t.sortBy == newSortBy
    ensures s.sortBy == newSortBy ==> t.sortOrder != s.sortOrder
    ensures s.sortBy != newSortBy ==> t.sortOrder == Desc
  {
    if s.sortBy == newSortBy then
      SortState(s.sortBy, if s.sortOrder == Asc then Desc else Asc)
    else
      SortState(newSortBy, Desc)
  }

  /** Pressing the active button twice restores the order. */
  lemma SameButtonTwiceRestores(s: SortState)
    ensures SortChange(SortChange(s, s.sortBy), s.sortBy) == s
  {
  }

  class PaymentListView {
    var sortBy: SortField
    var sortOrder: SortOrder
    var searchTerm: string

    /** Newest first, no search. */
    constructor ()
      ensures sortBy == ByDate && sortOrder == Desc && searchTerm == ""
    {
      sortBy, sortOrder, searchTerm := ByDate, Desc, "";
    }

    /** `handleSortChange(newSortBy)` */
    method HandleSortChange(newSortBy: SortField)
      modifies this`sortBy, this`sortOrder
      ensures SortState(sortBy, sortOrder) == SortChange(SortState(old(sortBy), old(sortOrder)), newSortBy)
    {
      if sortBy == newSortBy {
        sortOrder := if sortOrder == Asc then Desc else Asc;
      } else {
        sortBy := newSortBy;
        sortOrder := Desc;
      }
    }

    /** The list the view shows for `payments`. */
    function Shown(payments: seq<Payment>): (r: seq<Payment>)
      reads this
      ensures Sorted(r, sortBy, sortOrder)
      ensures forall p :: p in r ==> p in payments
    {
      ShownIffMatchesAll(payments, searchTerm, sortBy, sortOrder);
      FilteredAndSorted(payments, searchTerm, sortBy, sortOrder)
    }
  }

  lemma ShownIffMatchesAll(payments: seq<Payment>, searchTerm: string, sortBy: SortField, sortOrder: SortOrder)
    ensures forall p :: p in FilteredAndSorted(payments, searchTerm, sortBy, sortOrder) ==> p in payments
  {
    forall p | p in FilteredAndSorted(payments, searchTerm, sortBy, sortOrder) {
      ShownIffMatches(payments, searchTerm, sortBy, sortOrder, p);
    }
  }
}
