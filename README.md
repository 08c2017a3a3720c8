# PayTrack, modelled in Dafny

PayTrack is a personal debt tracker: a user sets a total debt and a default
installment quota, records payments against it, and follows the progress in
a chart, a quota panel, a searchable payment history and a PDF report.
Authentication and storage are Firebase services; the application around
them is a thin layer of arithmetic, list handling and form state.

This project models that layer:

- the **installment engine** (`calculateRemainingPayments`): remaining
  balance, the quota adjusted down to the remainder, and the number of
  installments left by ceiling division; the **total paid** fold; the record
  `addPayment` stores; and the newest-first read of the ledger in
  `getPayments` (`payment_service.dfy`, with the shared payment record and
  stable sort in `payments.dfy`);
- the **dashboard** handlers (save configuration, update quota, load data,
  add payment, toggle settings), the derived quota figures and the
  "Ajustado automáticamente" note, and the lemmas that tie the engine, the
  chart and the form together (`dashboard.dfy`);
- the **payment form**'s amount check, reset and suggested amount
  (`payment_form.dfy`);
- the **chart**'s pending amount, percentage, pie data and button state
  (`payment_chart.dfy`);
- the **history view**'s case-insensitive search, ordering and sort-button
  state machine (`payment_list.dfy`, with `trim`, `toLowerCase` and
  `includes` in `text.dfy`);
- the **PDF report**'s summary and its row and footer layout
  (`pdf_report.dfy`);
- the **error-code translation** of the authentication service and the
  results of its wrappers (`auth_service.dfy`);
- the **sign-up form**'s checks (`register.dfy`).

Money is kept in integer euro cents (`Types.Cents`), so the arithmetic is
exact: 50.50 € is 5050. `Math.ceil(remaining / quota)` becomes
`(remaining + quota - 1) / quota`, proved to be the fewest installments that
cover the remainder. A form field holds what `parseFloat` makes of its text:
`Some(n)`, or `None` for NaN. Times are integer milliseconds. Firebase calls
are not modelled: what they return is a parameter (the query snapshot, the
stored configuration, the outcome of a sign-in), and what a handler would
write is returned as an out-parameter, so "no call is made" is visible as
`None`.

React state becomes classes whose fields are the `useState` variables
(`DashboardState`, `PaymentFormState`, `PaymentListView`, `RegisterForm`);
their handlers are methods whose postconditions give the whole new state.
The loops of `getPayments` and of the report generator are methods with loop
invariants, proved against reference functions (`FromSnapshot`, `RowPage`,
`RowY`, `PageCount`). JavaScript's `Array.prototype.sort` is stable, and is
modelled by one stable insertion sort keyed by field and order, used by both
`getPayments` (by date, descending) and the history view.

## Model

| member | source | states |
|---|---|---|
| `PaymentService.CalculateRemainingPayments` | src/services/paymentService.js:78-94 | a remainder of 0 or less gives `{0, 0, 0}`; otherwise the remaining amount is exactly `totalDebt - totalPaid`, the adjusted quota is `min(remaining, defaultQuota)`, positive and at most the remainder, at least one installment is left, and exactly one when the remainder is below the quota; defined whenever an outstanding balance comes with a positive quota |
| `PaymentService.CeilDiv` | src/services/paymentService.js:87 | `Math.ceil(a / b)`: a positive balance needs at least one installment, none is needed for a balance of 0 or less, and one installment covers a balance no larger than it |
| `PaymentService.CeilDivBounds` | src/services/paymentService.js:87 | `Math.ceil(a / b)` as `(a + b - 1) / b` is the fewest installments of `b` that cover `a` |
| `PaymentService.CeilDivUnique` | src/services/paymentService.js:87 | no other installment count covers `a` without a spare installment |
| `PaymentService.RemainingPaymentsCoverBalance` | src/services/paymentService.js:86-87 | with a balance outstanding, `remainingPayments` installments of the adjusted quota pay it off and one fewer does not |
| `PaymentService.OverpaymentIsPaidOff` | src/services/paymentService.js:79-83 | paying the debt or more gives `{0, 0, 0}` whatever the quota |
| `PaymentService.EngineScenarios` | src/services/paymentService.test.js:20-44 | (1000, 200, 100) gives (800, 8, 100), (1000, 950, 100) gives (50, 1, 50), (1000, 1000, 100) gives (0, 0, 0), in cents |
| `PaymentService.TotalPaid` | src/services/paymentService.js:99-101 | the empty ledger sums to 0, and a ledger of non-negative amounts to a non-negative total |
| `PaymentService.TotalPaidAppend` | src/services/paymentService.js:100 | the sum over a concatenation is the sum of the two sums |
| `PaymentService.TotalPaidPermutation` | src/services/paymentService.js:99-101 | the total does not depend on the order of the payments |
| `PaymentService.TotalPaidWithout` | src/services/paymentService.js:100 | removing one payment lowers the total by its amount |
| `PaymentService.TotalPaidScenarios` | src/services/paymentService.test.js:5-18 | 100 + 50.50 + 200 sums to 350.50, and the empty list to 0 |
| `PaymentService.NewPaymentDocument` | src/services/paymentService.js:23-31 | the stored record keeps `userId` and the amount, and its concept is the given concept (or '' when absent) with the whitespace at both ends cut off |
| `PaymentService.FromStored` | src/services/paymentService.js:55-61 | a fetched document keeps its id and data, and a missing `createdAt` becomes the current time |
| `PaymentService.FromSnapshot` | src/services/paymentService.js:54-62 | one payment per document of the snapshot, in snapshot order |
| `PaymentService.GetPayments` | src/services/paymentService.js:43-72 | on success the result is a permutation of the snapshot's payments sorted by `createdAt`, newest first, with no error; on failure it is `[]` with the error's message |
| `Payments.Insert` | src/services/paymentService.js:65 | inserting into a sorted list gives a sorted list with the same elements plus the new one |
| `Payments.Sort` | src/components/PaymentList/PaymentList.jsx:23-33 | the comparator sort returns a permutation of its input, ordered by the chosen field ascending for 'asc' and descending otherwise |
| `Payments.SortLength` | src/services/paymentService.js:65 | sorting keeps the number of payments |
| `Text.TrimStart` | src/services/paymentService.js:29 | dropping leading whitespace leaves a suffix that starts with a non-whitespace character, having removed only whitespace |
| `Text.TrimEnd` | src/services/paymentService.js:29 | dropping trailing whitespace leaves a prefix that ends with a non-whitespace character, having removed only whitespace |
| `Text.Trim` | src/services/paymentService.js:29 | `concept.trim()` is a slice of the concept with only whitespace around it and none at its ends |
| `Text.TrimOfPadded` | src/services/paymentService.js:29 | whitespace around a core without edge whitespace trims to exactly that core, so `trim` is determined by its contract |
| `Text.TrimIdempotent` | src/services/paymentService.js:29 | trimming twice is trimming once |
| `Text.LowerChar` | src/components/PaymentList/PaymentList.jsx:17 | each modelled capital (A-Z, À-Þ except ×) becomes its own small letter, 32 code points further on, which is not a capital; every other character is kept |
| `Text.LowerCharSameLetter` | src/components/PaymentList/PaymentList.jsx:17 | two characters lower to the same one exactly when they are equal or one is the capital of the other |
| `Text.ToLower` | src/components/PaymentList/PaymentList.jsx:17 | `toLowerCase` keeps the length and lowers each character in place |
| `Text.ToLowerIdempotent` | src/components/PaymentList/PaymentList.jsx:17 | lowering twice is lowering once |
| `Text.Contains` | src/components/PaymentList/PaymentList.jsx:17 | `includes` holds exactly when the needle occurs at some index of the haystack |
| `PaymentList.Filter` | src/components/PaymentList/PaymentList.jsx:15-19 | every kept payment's concept contains the term, case-insensitively, and each matching payment is kept as often as it occurs |
| `PaymentList.FilteredAndSorted` | src/components/PaymentList/PaymentList.jsx:11-35 | the shown list is sorted by the chosen field and order; with an empty search it is a permutation of the payments, otherwise it holds exactly the matching ones, each as often as it occurs |
| `PaymentList.Matches` | src/components/PaymentList/PaymentList.jsx:17 | the empty term matches every payment, and so does a term equal to the concept up to case |
| `PaymentList.ShownIffMatches` | src/components/PaymentList/PaymentList.jsx:15-19 | a payment is shown exactly when it is in the list and matches the term (or the term is empty) |
| `PaymentList.SearchIgnoresCase` | src/components/PaymentList/PaymentList.jsx:17 | searching for a term or for its lower-case form shows the same list |
| `PaymentList.SortChange` | src/components/PaymentList/PaymentList.jsx:37-44 | choosing the current key flips the order; choosing another key switches to it, descending |
| `PaymentList.SameButtonTwiceRestores` | src/components/PaymentList/PaymentList.jsx:38-40 | pressing the active sort button twice restores the order |
| `PaymentList.PaymentListView.constructor` | src/components/PaymentList/PaymentList.jsx:6-8 | the view starts sorted by date, descending, with an empty search |
| `PaymentList.PaymentListView.HandleSortChange` | src/components/PaymentList/PaymentList.jsx:37-44 | the new `sortBy` and `sortOrder` are those `SortChange` gives |
| `PaymentList.PaymentListView.Shown` | src/components/PaymentList/PaymentList.jsx:11-35 | the list the view shows is sorted by its state and only holds given payments |
| `PaymentChart.Pending` | src/components/PaymentChart/PaymentChart.jsx:6 | what is pending is `max(0, totalDebt - totalPaid)`: never negative |
| `PaymentChart.Percentage` | src/components/PaymentChart/PaymentChart.jsx:7 | 0 when the debt is not positive, with no division; otherwise the share paid, in percent |
| `PaymentChart.PercentageBounds` | src/components/PaymentChart/PaymentChart.jsx:7 | between nothing and everything paid the percentage runs from 0 to 100, and is 100 exactly when the debt is paid in full |
| `PaymentChart.PieData` | src/components/PaymentChart/PaymentChart.jsx:9-12 | two slices, paid then pending, summing to `max(totalDebt, totalPaid)` |
| `PaymentChart.AddPaymentDisabled` | src/components/PaymentChart/PaymentChart.jsx:91 | the add button is disabled exactly when the total paid has reached the debt |
| `PaymentForm.CheckAmount` | src/components/PaymentForm/PaymentForm.jsx:12-22 | an amount is accepted exactly when it is a number with 0 < amount <= remaining; NaN or a non-positive amount is refused as invalid before the upper bound is looked at |
| `PaymentForm.NothingOwedRefusesAll` | src/components/PaymentForm/PaymentForm.jsx:14-22 | with nothing owed, every amount is refused |
| `PaymentForm.PaymentFormState.constructor` | src/components/PaymentForm/PaymentForm.jsx:5-7 | the amount starts as the default quota, the concept empty, not loading |
| `PaymentForm.PaymentFormState.SuggestAmount` | src/components/PaymentForm/PaymentForm.jsx:34-36 | the suggested amount is `min(defaultQuota, remainingAmount)` |
| `PaymentForm.PaymentFormState.Disabled` | src/components/PaymentForm/PaymentForm.jsx:53 | the inputs and the submit button are disabled while loading and whenever nothing is owed |
| `PaymentForm.PaymentFormState.HandleSubmit` | src/components/PaymentForm/PaymentForm.jsx:9-31 | the callback gets `(amount, concept)` exactly when the check accepts, and then 0 < amount <= remaining; afterwards the concept is cleared, the amount kept and loading false; on a refusal nothing changes and the reason is reported |
| `Dashboard.CheckConfig` | src/components/Dashboard/Dashboard.jsx:64-75 | the total is checked before the quota; the configuration is accepted exactly when both are positive numbers, and is then `{amount, quota}` |
| `Dashboard.DerivedStatus` | src/components/Dashboard/Dashboard.jsx:125-130 | the quota section's remaining amount is the chart's pending amount |
| `Dashboard.ShowsAdjustedNote` | src/components/Dashboard/Dashboard.jsx:205 | for a status whose quota is the engine's `min(remaining, defaultQuota)`, the note shows exactly when the remainder is below the default quota; it never shows when nothing is owed |
| `Dashboard.AdjustedNoteIffShortRemainder` | src/components/Dashboard/Dashboard.jsx:205 | the "Ajustado automáticamente" note shows exactly when the remainder is positive and below the default quota |
| `Dashboard.MissingConfigIsPaidOff` | src/components/Dashboard/Dashboard.jsx:125-130 | without a configuration, `debtData` `{0, 0}` makes the engine take its paid-off branch, so the zero quota is never divided by |
| `Dashboard.ChartButtonMatchesForm` | src/components/Dashboard/Dashboard.jsx:192-244 | the chart's add button is disabled exactly when the engine's remaining amount is 0, and then the form refuses every amount |
| `Dashboard.AcceptedPaymentStaysWithinDebt` | src/components/Dashboard/Dashboard.jsx:240-244 | a payment the form accepts against the engine's remaining amount never takes the total paid past the debt, in whatever order the ledger holds it |
| `Dashboard.SuggestedAmountAccepted` | src/components/Dashboard/Dashboard.jsx:240-244 | the amount the form suggests from the adjusted quota is accepted while anything is owed |
| `Dashboard.DashboardState.constructor` | src/components/Dashboard/Dashboard.jsx:15-27 | `debtData` starts at `{0, 0}`, no payments, loading, panels closed, empty fields |
| `Dashboard.DashboardState.LoadData` | src/components/Dashboard/Dashboard.jsx:34-55 | without a user nothing changes; with a stored configuration it is taken over with its fields; without one the config panel opens and `debtData` is kept; the payments are replaced and loading ends |
| `Dashboard.DashboardState.HandleSaveConfig` | src/components/Dashboard/Dashboard.jsx:61-81 | an invalid total or quota changes nothing and writes nothing; a valid one is written, becomes `debtData`, fills the quota field and closes the panel |
| `Dashboard.DashboardState.HandleUpdateQuota` | src/components/Dashboard/Dashboard.jsx:83-97 | an invalid quota changes nothing; a valid one is written and changes only `defaultQuota`, keeping `totalAmount`, and closes the modal |
| `Dashboard.DashboardState.HandleAddPayment` | src/components/Dashboard/Dashboard.jsx:99-103 | the new payment's record is the one `addPayment` builds, the data is reloaded exactly as `loadData` does (a stored configuration replaces `debtData` and the inputs and keeps the settings panel as it was; a missing one opens the panel and keeps `debtData` and the inputs), the ledger becomes the fetched list, and the modal closes |
| `Dashboard.DashboardState.ToggleConfig` | src/components/Dashboard/Dashboard.jsx:140 | the settings button flips `showConfig` |
| `PdfReport.RowPage` | src/utils/pdfGenerator.js:69-87 | every row is on page 1 or later |
| `PdfReport.PageCount` | src/utils/pdfGenerator.js:91 | a report has at least one page |
| `PdfReport.RowInBounds` | src/utils/pdfGenerator.js:73-76 | every row is drawn between y = 20 and y = 270 |
| `PdfReport.RowStep` | src/utils/pdfGenerator.js:73-87 | the next row is 8 lower on the same page, or, exactly when that would pass 270, at y = 20 on the next page |
| `PdfReport.RowPageMonotone` | src/utils/pdfGenerator.js:69-87 | rows fill the pages in order |
| `PdfReport.RowOnAPage` | src/utils/pdfGenerator.js:91-102 | every row of the table is on one of the report's pages |
| `PdfReport.DateCellOf` | src/utils/pdfGenerator.js:78-80 | a missing date is shown as 'N/A', and only then |
| `PdfReport.RowY` | src/utils/pdfGenerator.js:69-86 | rows of the first page are drawn at or below the table header (y ≥ 110); rows of later pages between the top margin and the page-break line |
| `PdfReport.RowFor` | src/utils/pdfGenerator.js:78-84 | the k-th row is on `RowPage(k)` at `RowY(k)`, carries the payment's date and amount, and a concept cell that is never empty and is the concept whenever that is not empty |
| `PdfReport.ConceptCell` | src/utils/pdfGenerator.js:84 | an empty concept is shown as '-', any other as it is |
| `PdfReport.ReportSummary` | src/utils/pdfGenerator.js:37-43 | the total is `totalAmount`, or 0 when missing; the paid figure is `totalPaid`; the percentage is 0 for a debt of 0 or less and otherwise the paid share of the debt in percent; the pending figure is `totalDebt - totalPaid`, not clamped |
| `PdfReport.PendingAgainstChart` | src/utils/pdfGenerator.js:43 | the report's pending figure equals the chart's while the debt is not overpaid, and is negative, where the chart shows 0, once it is |
| `PdfReport.LayoutRows` | src/utils/pdfGenerator.js:69-87 | one row per payment, in input order, the k-th at `RowPage(k)` and `RowY(k)` (the first at y = 110 on page 1), and `PageCount(n)` pages in the end |
| `PdfReport.Footers` | src/utils/pdfGenerator.js:91-102 | pages 1 to n each get the footer "Página i de n", with n the final page count |
| `PdfReport.GeneratePaymentReport` | src/utils/pdfGenerator.js:11-105 | the summary, the placeholder line exactly when there are no payments, otherwise the laid-out table, and one footer per page |
| `AuthService.Message` | src/services/authService.js:17-48 | every case of the `switch` has a non-empty text |
| `AuthService.Classify` | src/services/authService.js:17-48 | a code reaches a specific `case` only when the `switch` lists it |
| `AuthService.MessageInjective` | src/services/authService.js:17-48 | distinct cases have distinct texts |
| `AuthService.UnexpectedOnlyForUnlisted` | src/services/authService.js:46-47 | a code falls to the `default` branch exactly when the `switch` does not list it |
| `AuthService.SharedCases` | src/services/authService.js:22-45 | 'auth/user-not-found' and 'auth/invalid-credential' share a case, and so do the two API-key codes |
| `AuthService.FriendlyErrorMessage` | src/services/authService.js:14-49 | total: every code gets a non-empty message, and unlisted codes the default one |
| `AuthService.SameMessageIffSameCase` | src/services/authService.js:17-48 | two codes get the same message exactly when they fall into the same case |
| `AuthService.DefaultOnlyForUnlisted` | src/services/authService.js:46-47 | the default text is given to exactly the unlisted codes |
| `AuthService.WrapSignIn` | src/services/authService.js:52-82 | a successful call gives `{user, error: null}`; a failed one `{user: null, error}` with the translated code |
| `AuthService.WrapRedirect` | src/services/authService.js:84-94 | a redirect result gives its user (or none) and no error; a failure no user and the translated code |
| `AuthService.WrapSignOut` | src/services/authService.js:97-104 | an error is reported exactly when signing out failed, translated |
| `AuthService.WrappersReportFailure` | src/services/authService.js:52-82 | the wrappers report an error exactly when the call failed, and then no user and a non-empty message |
| `Register.PasswordProblem` | src/components/Auth/Register.jsx:17-25 | the passwords pass exactly when they match and `password.length`, counted in UTF-16 code units, is at least 6; a mismatch is reported as such, and a matching but short password as too short |
| `Text.Utf16Length` | src/components/Auth/Register.jsx:22 | `length` counts each character once and each character beyond U+FFFF twice, so it lies between the number of characters and twice that, and equals it exactly for text within the Basic Multilingual Plane |
| `Text.Utf16LengthAppend` | src/components/Auth/Register.jsx:22 | the length of a concatenation is the sum of the lengths |
| `Register.LengthCountsCodeUnits` | src/components/Auth/Register.jsx:17-25 | three emoji pass the length check (six code units), three letters do not |
| `Register.MismatchReportedFirst` | src/components/Auth/Register.jsx:17-25 | mismatched passwords that are both too short are reported as a mismatch |
| `Register.RegisterForm.constructor` | src/components/Auth/Register.jsx:7-11 | the form starts empty, with no error, not loading |
| `Register.RegisterForm.HandleRegister` | src/components/Auth/Register.jsx:13-36 | the service is called exactly when the checks pass, with `loading` true during the call and false after it, and its error shown verbatim; otherwise the check's message is shown and `loading` is untouched |

## Left out

- Firebase: the Firestore reads and writes (`addDoc`, `getDocs`, `setDoc`, `updateDoc`), the `where('userId', ...)` query filter and the `debtService.js` wrappers, and the Firebase Auth calls are foreign I/O. Their results are parameters of the model, and the writes the handlers issue are returned, not performed.
- Floating point: money is integer cents, so results a JavaScript float would round differently (0.1 + 0.2) are not modelled, nor is `toFixed` formatting (the chart's one decimal, the report's two, the amounts in the alerts and table).
- `parseFloat` on arbitrary text is not modelled: a field holds the number it would read, or `None` for NaN.
- `Text.LowerChar`: lowers only the Basic Latin and Latin-1 letters; the rest of Unicode's case mapping for `toLowerCase` is not modelled.
- `PaymentService.FromSnapshot`: every document without a timestamp gets the same `now`, where the source evaluates `new Date()` once per document.
- `PaymentService.GetPayments`: `console.error` logging is left out.
- `AuthService.FriendlyErrorMessage`: the `console.warn` of the error code on every call is left out.
- `PdfReport.DateCellOf`: the 'N/A' case is modelled, but the report's rows are built from payments read by `getPayments`, which always sets `createdAt`, so in the model it never arises.
- PDF rendering: fonts, colours, the title, the header line, the generation time, date formatting, wrapping the concept at 60 units, the footer's text rendering, and sharing or downloading the file (`sharePaymentReport`, `downloadPaymentReport`) are library and browser calls.
- `Register.RegisterForm.HandleRegister`: `loadingDuringCall` is only meaningful when the call is made. `handleGoogleSignup` is not modelled; it is the same error handling around a different call.
- `Dashboard.DashboardState.LoadData`: the stored configuration is assumed to be one `handleSaveConfig` wrote (both figures positive), and the stored payments ones the form accepted (positive amounts); the source does not check either.
- The async ordering of `loadData` and `handleAddPayment`, the `useEffect` that triggers loading, logout, `handleGenerateReport`'s alerts, the `getCurrentUser` and `onAuthChange` pass-throughs, routing in `App.jsx`, `Modal.jsx`, charts, markup and styling are left out: they hold no computation.
- The expected strings in `src/services/tests/authService.test.js` are not followed: `authService.js` no longer returns them, and the model follows `authService.js`.
