/** The payment report: its summary figures and where each payment row and
    each page footer go. Drawing, fonts, date formatting and the two-decimal
    rendering of amounts belong to the PDF library and are not modelled. */
module PdfReport {
  import opened Types
  import opened Payments
  import PaymentChart

  const FirstRowY := 110
  const RowHeight := 8
  /** A row is drawn on a new page once `yPosition` has passed this. */
  const PageBreakY := 270
  const TopOfPageY := 20

  /** Rows at 110, 118, ..., 270 fit on the first page, at 20, 28, ..., 268
      on each further page. */
  const RowsOnFirstPage := 21
  const RowsPerPage := 32

  /** The page of the k-th row (from 0), in closed form. */
  function RowPage(k: nat): (page: nat)
    ensures page >= 1
  {
    if k < RowsOnFirstPage then 1 else 2 + (k - RowsOnFirstPage) / RowsPerPage
  }

  /** The `yPosition` of the k-th row, in closed form. */
  function RowY(k: nat): (y: int)
    ensures RowPage(k) == 1 ==> FirstRowY <= y
    ensures RowPage(k) > 1 ==> TopOfPageY <= y < PageBreakY
  {
    if k < RowsOnFirstPage then FirstRowY + RowHeight * k
    else TopOfPageY + RowHeight * ((k - RowsOnFirstPage) % RowsPerPage)
  }

  /** `doc.internal.getNumberOfPages()` once `n` rows have been laid out. */
  function PageCount(n: nat): (pages: nat)
    ensures pages >= 1
  {
    if n == 0 then 1 else RowPage(n - 1)
  }

  /** Every row lies between the top margin and the page-break line. */
  lemma RowInBounds(k: nat)
    ensures TopOfPageY <= RowY(k) <= PageBreakY
  {
  }

  /** From one row to the next the layout moves down one row height, and
      starts a new page, back at the top, exactly when that would pass the
      page-break line. */
  lemma {:induction false} RowStep(k: nat)
    ensures RowY(k) + RowHeight > PageBreakY ==> RowPage(k + 1) == RowPage(k) + 1 && RowY(k + 1) == TopOfPageY
    ensures RowY(k) + RowHeight <= PageBreakY ==> RowPage(k + 1) == RowPage(k) && RowY(k + 1) == RowY(k) + RowHeight
  {
    if k >= RowsOnFirstPage {
      var j := k - RowsOnFirstPage;
      var q, m := j / RowsPerPage, j % RowsPerPage;
      assert j == RowsPerPage * q + m;
      if m < RowsPerPage - 1 {
        assert j + 1 == RowsPerPage * q + (m + 1);
        assert (j + 1) / RowsPerPage == q && (j + 1) % RowsPerPage == m + 1;
      } else {
        assert j + 1 == RowsPerPage * (q + 1) + 0;
        assert (j + 1) / RowsPerPage == q + 1 && (j + 1) % RowsPerPage == 0;
      }
    }
  }

  /** Pages are filled in order. */
  lemma {:induction false} RowPageMonotone(k: nat, m: nat)
    requires k <= m
    ensures RowPage(k) <= RowPage(m)
  {
    if k < m {
      RowPageMonotone(k, m - 1);
      RowStep(m - 1);
    }
  }

  /** Every row of a table of `n` rows is on one of its pages. */
  lemma RowOnAPage(n: nat, k: nat)
    requires k < n
    ensures 1 <= RowPage(k) <= PageCount(n)
  {
    RowPageMonotone(k, n - 1);
  }

  /** `payment.createdAt ? format(...) : 'N/A'` */
  datatype DateCell = Dated(at: Timestamp) | NotAvailable

  function DateCellOf(createdAt: Option<Timestamp>): (cell: DateCell)
    ensures cell == NotAvailable <==> createdAt.None?
  {
    match createdAt
    case Some(t) => Dated(t)
    case None => NotAvailable
  }

  /** `payment.concept || '-'` */
  function ConceptCell(concept: string): (text: string)
    ensures concept == "" ==> text == "-"
    ensures concept != "" ==> text == concept
    ensures text != ""
  {
    if concept == "" then "-" else concept
  }

  /** A table row: where it is drawn and what its three cells hold. */
  datatype Row = Row(page: nat, y: int, date: DateCell, amount: Cents, concept: string)

  /** The row the k-th payment becomes. */
  function RowFor(p: Payment, k: nat): (row: Row)
    ensures row.page == RowPage(k) && row.y == RowY(k)
    ensures row.date == Dated(p.createdAt) && row.amount == p.amount
    ensures row.concept != "" && (p.concept != "" ==> row.concept == p.concept)
  {
    Row(RowPage(k), RowY(k), DateCellOf(Some(p.createdAt)), p.amount, ConceptCell(p.concept))
  }

  /** The figures of the summary block. */
  datatype Summary = Summary(totalDebt: Cents, totalPaid: Cents, percentage: real, pending: int)

  /** `totalDebt = debtData.totalAmount || 0`, the paid percentage (0 for no
      positive debt) and `totalDebt - totalPaid`, which is not clamped. */
  function ReportSummary(totalAmount: Option<Cents>, totalPaid: Cents): (s: Summary)
    ensures s.totalDebt == totalAmount.GetOr(0) && s.totalPaid == totalPaid
    ensures s.totalDebt <= 0 ==> s.percentage == 0.0
    ensures s.totalDebt > 0 ==> s.percentage * (s.totalDebt as real) == 100.0 * (totalPaid as real)
    ensures s.pending == s.totalDebt - totalPaid
  {
    var totalDebt := totalAmount.GetOr(0);
    Summary(totalDebt, totalPaid, PaymentChart.Percentage(totalDebt, totalPaid), totalDebt - totalPaid)
  }

  /** The report's pending figure agrees with the chart's while the debt is
      not overpaid, and goes negative, where the chart shows 0, once it is. */
  lemma PendingAgainstChart(totalAmount: Cents, totalPaid: Cents)
    ensures totalPaid <= totalAmount ==>
      ReportSummary(Some(totalAmount), totalPaid).pending == PaymentChart.Pending(totalAmount, totalPaid)
    ensures totalPaid > totalAmount ==>
      ReportSummary(Some(totalAmount), totalPaid).pending < 0 && PaymentChart.Pending(totalAmount, totalPaid) == 0
  {
  }

  /** The history section: the placeholder line, or the table. */
  datatype Body = NoPayments | Table(rows: seq<Row>)

  /** The footer drawn on page `page`: "Página page de pageCount". */
  datatype Footer = Footer(page: nat, pageCount: nat)

  datatype Report = Report(summary: Summary, body: Body, pageCount: nat, footers: seq<Footer>)

  /** The `forEach` over the payments: `yPosition` starts at 110, a new page
      is added when it has passed 270, and it grows by 8 per row. */
  method LayoutRows(payments: seq<Payment>) returns (rows: seq<Row>, pageCount: nat)
    ensures |rows| == |payments|
    ensures forall k :: 0 <= k < |payments| ==> rows[k] == RowFor(payments[k], k)
    ensures pageCount == PageCount(|payments|)
  {
    rows := [];
    pageCount := 1;
    var yPosition := FirstRowY;
    var i := 0;
    while i < |payments|
      invariant 0 <= i <= |payments|
      invariant |rows| == i
      invariant forall k :: 0 <= k < i ==> rows[k] == RowFor(payments[k], k)
      invariant pageCount == PageCount(i)
      invariant yPosition == if i == 0 then FirstRowY else RowY(i - 1) + RowHeight
    {
      if i > 0 {
        RowStep(i - 1);
      }
      if yPosition > PageBreakY {
        pageCount := pageCount + 1;
        yPosition := TopOfPageY;
      }
      var p := payments[i];
      rows := rows + [Row(pageCount, yPosition, DateCellOf(Some(p.createdAt)), p.amount, ConceptCell(p.concept))];
      yPosition := yPosition + RowHeight;
      i := i + 1;
    }
  }

  /** The footer loop `for (let i = 1; i <= pageCount; i++)`. */
  method Footers(pageCount: nat) returns (footers: seq<Footer>)
    ensures |footers| == pageCount
    ensures forall k :: 0 <= k < pageCount ==> footers[k] == Footer(k + 1, pageCount)
  {
    footers := [];
    for i := 1 to pageCount + 1
      invariant |footers| == i - 1
      invariant forall k :: 0 <= k < i - 1 ==> footers[k] == Footer(k + 1, pageCount)
    {
      footers := footers + [Footer(i, pageCount)];
    }
  }

  /** `generatePaymentReport(debtData, payments, totalPaid)` */
  method GeneratePaymentReport(totalAmount: Option<Cents>, payments: seq<Payment>, totalPaid: Cents)
    returns (report: Report)
    ensures report.summary == ReportSummary(totalAmount, totalPaid)
    ensures report.body.NoPayments? <==> payments == []
    ensures report.body.Table? ==>
      |report.body.rows| == |payments| &&
      forall k :: 0 <= k < |payments| ==> report.body.rows[k] == RowFor(payments[k], k)
    ensures report.pageCount == PageCount(|payments|)
    ensures |report.footers| == report.pageCount
    ensures forall k :: 0 <= k < report.pageCount ==> report.footers[k] == Footer(k + 1, report.pageCount)
  {
    var summary := ReportSummary(totalAmount, totalPaid);
    var body: Body;
    var pageCount: nat;
    if |payments| == 0 {
      body, pageCount := NoPayments, 1;
    } else {
      var rows;
      rows, pageCount := LayoutRows(payments);
      body := Table(rows);
    }
    var footers := Footers(pageCount);
    report := Report(summary, body, pageCount, footers);
  }
}
