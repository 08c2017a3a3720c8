/** The payment record as the views receive it, and the ordering both the
    ledger read and the history view apply to lists of payments. */
module Payments {
  import opened Types

  /** A recorded installment: the Firestore document id, its owner, the
      amount, the free-text concept and the creation time. */
  datatype Payment = Payment(id: string, userId: string, amount: Cents, concept: string, createdAt: Timestamp)

  /** The field a list of payments is ordered by. */
  datatype SortField = ByDate | ByAmount

  /** Ascending (`'asc'`) or descending (`'desc'`). */
  datatype SortOrder = Asc | Desc

  function FieldValue(p: Payment, field: SortField): int {
    match field
    case ByDate => p.createdAt
    case ByAmount => p.amount
  }

  /** `a` may stand before `b`: the comparator does not put `b` first. */
  predicate InOrder(a: Payment, b: Payment, field: SortField, order: SortOrder) {
    match order
    case Asc => FieldValue(a, field) <= FieldValue(b, field)
    case Desc => FieldValue(a, field) >= FieldValue(b, field)
  }

  predicate Sorted(s: seq<Payment>, field: SortField, order: SortOrder) {
    forall i, j :: 0 <= i < j < |s| ==> InOrder(s[i], s[j], field, order)
  }

  /** Puts `x` into the sorted `s`, before every element it may precede. */
  function Insert(x: Payment, s: seq<Payment>, field: SortField, order: SortOrder): (r: seq<Payment>)
    requires Sorted(s, field, order)
    ensures multiset(r) == multiset(s) + multiset{x}
    ensures Sorted(r, field, order)
  {
    if s == [] || InOrder(x, s[0], field, order) then
      [x] + s
    else
      var rest := Insert(x, s[1..], field, order);
      assert multiset(s) == multiset{s[0]} + multiset(s[1..]) by {
        assert s == [s[0]] + s[1..];
      }
      assert forall k :: 0 <= k < |rest| ==> InOrder(s[0], rest[k], field, order) by {
        forall k | 0 <= k < |rest|
          ensures InOrder(s[0], rest[k], field, order)
        {
          assert rest[k] in multiset(rest);
        }
      }
      [s[0]] + rest
  }

  /** `Array.prototype.sort` with the comparator of `field` and `order`: a
      stable sort, modelled as insertion sort. */
  function Sort(s: seq<Payment>, field: SortField, order: SortOrder): (r: seq<Payment>)
    ensures multiset(r) == multiset(s)
    ensures Sorted(r, field, order)
  {
    if s == [] then []
    else
      assert s == [s[0]] + s[1..];
      Insert(s[0], Sort(s[1..], field, order), field, order)
  }

  /** A permutation keeps the length. */
  lemma SortLength(s: seq<Payment>, field: SortField, order: SortOrder)
    ensures |Sort(s, field, order)| == |s|
  {
    assert |multiset(Sort(s, field, order))| == |multiset(s)|;
  }
}
