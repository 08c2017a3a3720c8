/** The installment engine and the record handling of the payments
    service: the remaining balance, the adjusted quota and the number of
    installments left, the total paid, the document a new payment is
    stored as, and the newest-first read of a user's ledger. */
module PaymentService {
  import opened Types
  import opened Text
  import opened Payments

  /** What the engine derives from the debt, the total paid and the quota. */
  datatype Status = Status(remainingAmount: Cents, remainingPayments: nat, adjustedQuota: Cents)

  /** `Math.ceil(a / b)` for a positive divisor. */
  function CeilDiv(a: int, b: int): (q: int)
    requires b > 0
    ensures a > 0 ==> q >= 1
    ensures a <= 0 ==> q <= 0
    ensures a <= b ==> q <= 1
  {
    (a + b - 1) / b
  }

  /** `CeilDiv(a, b)` is the fewest installments of `b` that cover `a`. */
  lemma CeilDivBounds(a: int, b: int)
    requires b > 0
    ensures (CeilDiv(a, b) - 1) * b < a <= CeilDiv(a, b) * b
  {
    var q, r := (a + b - 1) / b, (a + b - 1) % b;
    assert a + b - 1 == q * b + r;
    assert (q - 1) * b == q * b - b;
  }

  /** Only one count of installments of `b` covers `a` without a spare one. */
  lemma CeilDivUnique(a: int, b: int, n: int)
    requires b > 0
    requires (n - 1) * b < a <= n * b
    ensures n == CeilDiv(a, b)
  {
    CeilDivBounds(a, b);
  }

  /** `calculateRemainingPayments(totalDebt, totalPaid, defaultQuota)`.
      The source divides by the adjusted quota without a guard: it is only
      safe when an outstanding balance comes with a positive quota. */
  function CalculateRemainingPayments(totalDebt: Cents, totalPaid: Cents, defaultQuota: Cents): (s: Status)
    requires totalDebt - totalPaid > 0 ==> defaultQuota > 0
    ensures totalDebt - totalPaid <= 0 ==> s == Status(0, 0, 0)
    ensures totalDebt - totalPaid > 0 ==>
      && s.remainingAmount == totalDebt - totalPaid
      && s.adjustedQuota == Min(s.remainingAmount, defaultQuota)
      && 0 < s.adjustedQuota <= s.remainingAmount
      && s.remainingPayments >= 1
      && (s.remainingAmount < defaultQuota ==> s.remainingPayments == 1)
    ensures s.remainingAmount >= 0 && s.adjustedQuota >= 0
  {
    var remaining := totalDebt - totalPaid;
    if remaining <= 0 then
      Status(0, 0, 0)
    else
      var adjustedQuota := if remaining < defaultQuota then remaining else defaultQuota;
      CeilDivBounds(remaining, adjustedQuota);
      var remainingPayments := CeilDiv(remaining, adjustedQuota);
      assert remaining < defaultQuota ==> remainingPayments == 1 by {
        if remaining < defaultQuota {
          assert (1 - 1) * adjustedQuota < remaining <= 1 * adjustedQuota;
          CeilDivUnique(remaining, adjustedQuota, 1);
        }
      }
      Status(remaining, remainingPayments, adjustedQuota)
  }

  /** With a balance outstanding, the installment count is exactly the
      fewest installments of the adjusted quota that pay it off. */
  lemma RemainingPaymentsCoverBalance(totalDebt: Cents, totalPaid: Cents, defaultQuota: Cents)
    requires defaultQuota > 0
    ensures var s := CalculateRemainingPayments(totalDebt, totalPaid, defaultQuota);
      (s.remainingPayments - 1) * s.adjustedQuota < s.remainingAmount <= s.remainingPayments * s.adjustedQuota
      || (s.remainingAmount == 0 && s.remainingPayments == 0)
  {
    var s := CalculateRemainingPayments(totalDebt, totalPaid, defaultQuota);
    if totalDebt - totalPaid > 0 {
      CeilDivBounds(s.remainingAmount, s.adjustedQuota);
    }
  }

  /** The three scenarios of paymentService.test.js, in cents. */
  lemma EngineScenarios()
    ensures CalculateRemainingPayments(100000, 20000, 10000) == Status(80000, 8, 10000)
    ensures CalculateRemainingPayments(100000, 95000, 10000) == Status(5000, 1, 5000)
    ensures CalculateRemainingPayments(100000, 100000, 10000) == Status(0, 0, 0)
  {
  }

  /** Overpaying is treated as paid off. */
  lemma OverpaymentIsPaidOff(totalDebt: Cents, totalPaid: Cents, defaultQuota: Cents)
    requires totalPaid >= totalDebt
    ensures CalculateRemainingPayments(totalDebt, totalPaid, defaultQuota) == Status(0, 0, 0)
  {
  }

  /** `calculateTotalPaid(payments)`: the `reduce` from the left, from 0. */
  function TotalPaid(payments: seq<Payment>): (total: Cents)
    ensures payments == [] ==> total == 0
    ensures (forall i :: 0 <= i < |payments| ==> payments[i].amount >= 0) ==> total >= 0
  {
    if payments == [] then 0
    else TotalPaid(payments[..|payments| - 1]) + payments[|payments| - 1].amount
  }

  /** The sum over a concatenation is the sum of the sums. */
  lemma {:induction false} TotalPaidAppend(a: seq<Payment>, b: seq<Payment>)
    ensures TotalPaid(a + b) == TotalPaid(a) + TotalPaid(b)
  {
    if b == [] {
      assert a + b == a;
    } else {
      assert (a + b)[..|a + b| - 1] == a + b[..|b| - 1];
      TotalPaidAppend(a, b[..|b| - 1]);
    }
  }

  /** The total does not depend on the order of the payments. */
  lemma {:induction false} TotalPaidPermutation(a: seq<Payment>, b: seq<Payment>)
    requires multiset(a) == multiset(b)
    ensures TotalPaid(a) == TotalPaid(b)
  {
    if a == [] {
      assert |multiset(b)| == 0;
    } else {
      var x := a[|a| - 1];
      var a' := a[..|a| - 1];
      assert x in multiset(b) by { assert x in multiset(a); }
      var k :| 0 <= k < |b| && b[k] == x;
      var b' := b[..k] + b[k + 1..];
      RemoveOne(a, |a| - 1);
      RemoveOne(b, k);
      TotalPaidPermutation(a', b');
      TotalPaidWithout(b, k);
    }
  }

  lemma RemoveOne(s: seq<Payment>, k: nat)
    requires k < |s|
    ensures multiset(s[..k] + s[k + 1..]) == multiset(s) - multiset{s[k]}
  {
    assert s == s[..k] + [s[k]] + s[k + 1..];
  }

  /** Taking one payment out lowers the total by its amount. */
  lemma {:induction false} TotalPaidWithout(s: seq<Payment>, k: nat)
    requires k < |s|
    ensures TotalPaid(s) == TotalPaid(s[..k] + s[k + 1..]) + s[k].amount
  {
    var before, x, after := s[..k], s[k], s[k + 1..];
    assert s == before + [x] + after;
    TotalPaidAppend(before + [x], after);
    TotalPaidAppend(before, [x]);
    TotalPaidAppend(before, after);
    TotalPaidSingle(x);
  }

  lemma TotalPaidSingle(x: Payment)
    ensures TotalPaid([x]) == x.amount
  {
    assert [x][..0] == [];
  }

  /** paymentService.test.js: 100 + 50.50 + 200 is 350.50, and [] sums to 0. */
  lemma TotalPaidScenarios()
    ensures TotalPaid([Payment("a", "u", 10000, "", 0), Payment("b", "u", 5050, "", 0), Payment("c", "u", 20000, "", 0)]) == 35050
    ensures TotalPaid([]) == 0
  {
    var s := [Payment("a", "u", 10000, "", 0), Payment("b", "u", 5050, "", 0), Payment("c", "u", 20000, "", 0)];
    assert s[..2][..1][..0] == [];
  }

  /** The document `addPayment` asks Firestore to store; `createdAt` is the
      server timestamp, filled in by the store. */
  datatype NewPayment = NewPayment(userId: string, amount: Cents, concept: string)

  /** The record built by `addPayment(userId, amount, concept = '')`: the
      owner and the amount unchanged, the concept trimmed, '' when absent. */
  function NewPaymentDocument(userId: string, amount: Cents, concept: Option<string>): (d: NewPayment)
    ensures d.userId == userId && d.amount == amount
    ensures IsTrimOf(d.concept, concept.GetOr(""))
    ensures concept.None? ==> d.concept == ""
  {
    NewPayment(userId, amount, Trim(concept.GetOr("")))
  }

  /** A document of the user's query snapshot: its id and its data, whose
      `createdAt` may still be unset. */
  datatype StoredPayment = StoredPayment(id: string, userId: string, amount: Cents, concept: string, createdAt: Option<Timestamp>)

  /** `{id: doc.id, ...data, createdAt: data.createdAt?.toDate() || new Date()}` */
  function FromStored(d: StoredPayment, now: Timestamp): (p: Payment)
    ensures p.id == d.id && p.userId == d.userId && p.amount == d.amount && p.concept == d.concept
    ensures p.createdAt == (if d.createdAt.Some? then d.createdAt.value else now)
  {
    Payment(d.id, d.userId, d.amount, d.concept, d.createdAt.GetOr(now))
  }

  /** The payments the snapshot holds, in snapshot order. */
  function FromSnapshot(docs: seq<StoredPayment>, now: Timestamp): (ps: seq<Payment>)
    ensures |ps| == |docs|
    ensures forall k :: 0 <= k < |docs| ==> ps[k] == FromStored(docs[k], now)
  {
    if docs == [] then [] else [FromStored(docs[0], now)] + FromSnapshot(docs[1..], now)
  }

  /** `getPayments(userId)`, given the outcome of the Firestore query for the
      user (its documents, or the message of the error it raised) and the
      clock reading `new Date()` gives to documents without a timestamp. */
  method GetPayments(snapshot: Result<seq<StoredPayment>, string>, now: Timestamp)
    returns (data: seq<Payment>, error: Option<string>)
    ensures snapshot.Err? ==> data == [] && error == Some(snapshot.error)
    ensures snapshot.Ok? ==>
      && error == None
      && multiset(data) == multiset(FromSnapshot(snapshot.value, now))
      && Sorted(data, ByDate, Desc)
  {
    if snapshot.Err? {
      return [], Some(snapshot.error);
    }
    var docs := snapshot.value;
    var payments: seq<Payment> := [];
    var i := 0;
    while i < |docs|
      invariant 0 <= i <= |docs|
      invariant payments == FromSnapshot(docs[..i], now)
    {
      assert docs[..i + 1] == docs[..i] + [docs[i]];
      FromSnapshotAppend(docs[..i], [docs[i]], now);
      payments := payments + [FromStored(docs[i], now)];
      i := i + 1;
    }
    assert docs[..i] == docs;
    data := Sort(payments, ByDate, Desc);
    error := None;
  }

  lemma FromSnapshotAppend(a: seq<StoredPayment>, b: seq<StoredPayment>, now: Timestamp)
    ensures FromSnapshot(a + b, now) == FromSnapshot(a, now) + FromSnapshot(b, now)
  {
  }
}
