/** The values the progress chart derives from the debt and the total paid. */
module PaymentChart {
  import opened Types

  /** `Math.max(0, totalDebt - totalPaid)`: what is still owed, never negative. */
  function Pending(totalDebt: Cents, totalPaid: Cents): (r: Cents)
    ensures r >= 0
    ensures r >= totalDebt - totalPaid
    ensures r == 0 || r == totalDebt - totalPaid
  {
    Max(0, totalDebt - totalPaid)
  }

  /** The share paid, in percent, before `toFixed(1)` rounds it; 0 when there
      is no positive debt to divide by. */
  function Percentage(totalDebt: Cents, totalPaid: Cents): (p: real)
    ensures totalDebt <= 0 ==> p == 0.0
    ensures totalDebt > 0 ==> p * (totalDebt as real) == 100.0 * (totalPaid as real)
  {
    if totalDebt > 0 then (totalPaid as real / totalDebt as real) * 100.0 else 0.0
  }

  /** Between nothing and everything paid the percentage runs from 0 to 100,
      and reaches 100 exactly when the debt is paid in full. */
  lemma PercentageBounds(totalDebt: Cents, totalPaid: Cents)
    requires totalDebt > 0 && 0 <= totalPaid <= totalDebt
    ensures 0.0 <= Percentage(totalDebt, totalPaid) <= 100.0
    ensures Percentage(totalDebt, totalPaid) == 100.0 <==> totalPaid == totalDebt
  {
    var d, t := totalDebt as real, totalPaid as real;
    var p := Percentage(totalDebt, totalPaid);
    assert p * d == 100.0 * t;
    if p == 100.0 {
      assert 100.0 * d == 100.0 * t;
    }
  }

  /** One slice of the pie. */
  datatype Slice = Slice(name: string, value: Cents)

  /** The pie's `data`: the paid slice, then the pending slice. */
  function PieData(totalDebt: Cents, totalPaid: Cents): (data: seq<Slice>)
    ensures |data| == 2
    ensures data[0] == Slice("Pagado", totalPaid)
    ensures data[1] == Slice("Pendiente", Pending(totalDebt, totalPaid))
    ensures data[0].value + data[1].value == Max(totalDebt, totalPaid)
  {
    [Slice("Pagado", totalPaid), Slice("Pendiente", Pending(totalDebt, totalPaid))]
  }

  /** The add-payment button is disabled when nothing is pending. */
  function AddPaymentDisabled(totalDebt: Cents, totalPaid: Cents): (disabled: bool)
    ensures disabled <==> totalPaid >= totalDebt
  {
    Pending(totalDebt, totalPaid) <= 0
  }
}
