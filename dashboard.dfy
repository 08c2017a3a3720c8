/** The dashboard: the debt configuration and quota handlers, the loading
    of the user's data, the derived quota figures, and how they fit the
    chart, the form and the engine together. */
module Dashboard {
  import opened Types
  import opened Payments
  import opened PaymentService
  import PaymentChart
  import PaymentForm

  const InvalidTotalAlert := "Por favor ingresa un importe total válido"
  const InvalidDefaultQuotaAlert := "Por favor ingresa una cuota por defecto válida"
  const InvalidQuotaAlert := "Por favor ingresa una cuota válida"

  /** `debtData`: the configured total and default quota. */
  datatype DebtData = DebtData(totalAmount: Cents, defaultQuota: Cents)

  /** `handleSaveConfig`'s checks, in their order: the total first, then the
      quota. */
  function CheckConfig(totalAmount: Field, defaultQuota: Field): (r: Result<DebtData, string>)
    ensures r.Ok? <==> IsPositive(totalAmount) && IsPositive(defaultQuota)
    ensures r.Ok? ==> r.value == DebtData(totalAmount.value, defaultQuota.value)
    ensures !IsPositive(totalAmount) ==> r == Err(InvalidTotalAlert)
    ensures IsPositive(totalAmount) && !IsPositive(defaultQuota) ==> r == Err(InvalidDefaultQuotaAlert)
  {
    if !IsPositive(totalAmount) then Err(InvalidTotalAlert)
    else if !IsPositive(defaultQuota) then Err(InvalidDefaultQuotaAlert)
    else Ok(DebtData(totalAmount.value, defaultQuota.value))
  }

  /** The "Ajustado automáticamente" note under the current quota. */
  predicate ShowsAdjustedNote(s: Status, defaultQuota: Cents): (shown: bool)
    ensures s.remainingAmount > 0 && s.adjustedQuota == Min(s.remainingAmount, defaultQuota) ==>
      (shown <==> s.remainingAmount < defaultQuota)
    ensures s.remainingAmount <= 0 ==> !shown
  {
    s.adjustedQuota != defaultQuota && s.remainingAmount > 0
  }

  /** The note shows exactly when what is left is less than the default
      quota. */
  lemma AdjustedNoteIffShortRemainder(totalDebt: Cents, totalPaid: Cents, defaultQuota: Cents)
    requires defaultQuota > 0
    ensures ShowsAdjustedNote(CalculateRemainingPayments(totalDebt, totalPaid, defaultQuota), defaultQuota)
        <==> 0 < totalDebt - totalPaid < defaultQuota
  {
  }

  /** What the handlers keep of `debtData`: it starts at `{0, 0}`, and only
      positive totals and quotas are ever stored into it, so a positive total
      comes with a positive quota. */
  predicate ConfigOk(d: DebtData) {
    d.totalAmount >= 0 && d.defaultQuota >= 0 && (d.totalAmount > 0 ==> d.defaultQuota > 0)
  }

  /** Every payment in the ledger went through the form's check. */
  predicate LedgerOk(payments: seq<Payment>) {
    forall i :: 0 <= i < |payments| ==> payments[i].amount > 0
  }

  /** What the quota section shows, from `debtData` and the payments. */
  function DerivedStatus(debt: DebtData, payments: seq<Payment>): (s: Status)
    requires debt.totalAmount > 0 ==> debt.defaultQuota > 0
    requires LedgerOk(payments)
    ensures s.remainingAmount == PaymentChart.Pending(debt.totalAmount, TotalPaid(payments))
  {
    CalculateRemainingPayments(debt.totalAmount, TotalPaid(payments), debt.defaultQuota)
  }

  /** With no configuration `debtData` stays `{0, 0}` and the engine takes its
      paid-off branch: it never divides by the zero quota. */
  lemma MissingConfigIsPaidOff(payments: seq<Payment>)
    requires LedgerOk(payments)
    ensures DerivedStatus(DebtData(0, 0), payments) == Status(0, 0, 0)
  {
  }

  /** The chart's add button is disabled exactly when the form would refuse
      every amount, because both read the engine's remaining amount. */
  lemma ChartButtonMatchesForm(debt: DebtData, payments: seq<Payment>, amount: Field)
    requires debt.totalAmount > 0 ==> debt.defaultQuota > 0
    requires LedgerOk(payments)
    ensures PaymentChart.AddPaymentDisabled(debt.totalAmount, TotalPaid(payments)) <==>
            DerivedStatus(debt, payments).remainingAmount <= 0
    ensures PaymentChart.AddPaymentDisabled(debt.totalAmount, TotalPaid(payments)) ==>
            PaymentForm.CheckAmount(amount, DerivedStatus(debt, payments).remainingAmount).Err?
  {
  }

  /** A payment the form accepts never takes the total paid past the debt,
      whatever place the new payment takes in the ledger. */
  lemma {:induction false} AcceptedPaymentStaysWithinDebt(debt: DebtData, payments: seq<Payment>, amount: Field, p: Payment, ledger: seq<Payment>)
    requires debt.totalAmount > 0 ==> debt.defaultQuota > 0
    requires LedgerOk(payments)
    requires PaymentForm.CheckAmount(amount, DerivedStatus(debt, payments).remainingAmount).Ok?
    requires p.amount == amount.value
    requires multiset(ledger) == multiset(payments + [p])
    ensures TotalPaid(ledger) <= debt.totalAmount
    ensures LedgerOk(ledger)
  {
    TotalPaidPermutation(ledger, payments + [p]);
    TotalPaidAppend(payments, [p]);
    TotalPaidSingle(p);
    forall i | 0 <= i < |ledger| ensures ledger[i].amount > 0 {
      assert ledger[i] in multiset(payments + [p]);
      assert ledger[i] in payments + [p];
    }
  }

  /** The amount the form suggests (from the adjusted quota the dashboard
      passes as its default) is one the form accepts, while anything is owed. */
  lemma SuggestedAmountAccepted(debt: DebtData, payments: seq<Payment>)
    requires debt.totalAmount > 0 ==> debt.defaultQuota > 0
    requires LedgerOk(payments)
    requires DerivedStatus(debt, payments).remainingAmount > 0
    ensures var s := DerivedStatus(debt, payments);
      PaymentForm.CheckAmount(Some(Min(s.adjustedQuota, s.remainingAmount)), s.remainingAmount) == Ok(s.adjustedQuota)
  {
  }

  class DashboardState {
    var debtData: DebtData
    var payments: seq<Payment>
    var loading: bool
    var showConfig: bool
    var showPaymentModal: bool
    var showQuotaModal: bool
    /** The text fields of the config panel and of the quota modal, as
        `parseFloat` reads them. */
    var totalAmountInput: Field
    var defaultQuotaInput: Field
    var quotaInput: Field

    ghost predicate Valid()
      reads this
    {
      ConfigOk(debtData) && LedgerOk(payments)
    }

    constructor ()
      ensures Valid()
      ensures debtData == DebtData(0, 0) && payments == [] && loading
      ensures !showConfig && !showPaymentModal && !showQuotaModal
      ensures totalAmountInput.None? && defaultQuotaInput.None? && quotaInput.None?
    {
      debtData, payments, loading := DebtData(0, 0), [], true;
      showConfig, showPaymentModal, showQuotaModal := false, false, false;
      totalAmountInput, defaultQuotaInput, quotaInput := None, None, None;
    }

    /** `loadData`, given the signed-in user (if any), the configuration
        `getDebt` found and the list `getPayments` returned. */
    method LoadData(signedIn: bool, debt: Option<DebtData>, fetched: seq<Payment>)
      requires Valid()
      requires debt.Some? ==> ConfigOk(debt.value)
      requires LedgerOk(fetched)
      modifies this`debtData, this`payments, this`loading, this`showConfig,
               this`totalAmountInput, this`defaultQuotaInput, this`quotaInput
      ensures Valid()
      ensures !signedIn ==> unchanged(this)
      ensures signedIn ==> payments == fetched && !loading
      ensures signedIn && debt.Some? ==>
        && debtData == debt.value && showConfig == old(showConfig)
        && totalAmountInput == Some(debt.value.totalAmount)
        && defaultQuotaInput == Some(debt.value.defaultQuota)
        && quotaInput == Some(debt.value.defaultQuota)
      ensures signedIn && debt.None? ==>
        && showConfig && debtData == old(debtData)
        && totalAmountInput == old(totalAmountInput)
        && defaultQuotaInput == old(defaultQuotaInput) && quotaInput == old(quotaInput)
    {
      if !signedIn {
        return;
      }
      loading := true;
      if debt.Some? {
        debtData := debt.value;
        totalAmountInput := Some(debt.value.totalAmount);
        defaultQuotaInput := Some(debt.value.defaultQuota);
        quotaInput := Some(debt.value.defaultQuota);
      } else {
        showConfig := true;
      }
      payments := fetched;
      loading := false;
    }

    /** `handleSaveConfig`. `written` is the configuration passed to
        `createOrUpdateDebt`, `alert` the message shown instead. */
    method HandleSaveConfig() returns (written: Option<DebtData>, alert: Option<string>)
      requires Valid()
      modifies this`debtData, this`quotaInput, this`showConfig
      ensures Valid()
      ensures CheckConfig(totalAmountInput, defaultQuotaInput).Err? ==>
        && written.None? && alert == Some(CheckConfig(totalAmountInput, defaultQuotaInput).error)
        && unchanged(this)
      ensures CheckConfig(totalAmountInput, defaultQuotaInput).Ok? ==>
        && alert.None?
        && written == Some(CheckConfig(totalAmountInput, defaultQuotaInput).value)
        && debtData == DebtData(totalAmountInput.value, defaultQuotaInput.value)
        && quotaInput == defaultQuotaInput && !showConfig
    {
      var checked := CheckConfig(totalAmountInput, defaultQuotaInput);
      if checked.Err? {
        return None, Some(checked.error);
      }
      written := Some(checked.value);
      debtData := checked.value;
      quotaInput := Some(checked.value.defaultQuota);
      showConfig := false;
      alert := None;
    }

    /** `handleUpdateQuota`. `written` is the quota passed to
        `updateDefaultQuota`. */
    method HandleUpdateQuota() returns (written: Option<Cents>, alert: Option<string>)
      requires Valid()
      modifies this`debtData, this`defaultQuotaInput, this`showQuotaModal
      ensures !IsPositive(quotaInput) ==> written.None? && alert == Some(InvalidQuotaAlert) && unchanged(this)
      ensures IsPositive(quotaInput) ==>
        && alert.None? && written == quotaInput
        && debtData == old(debtData).(defaultQuota := quotaInput.value)
        && defaultQuotaInput == quotaInput && !showQuotaModal
      ensures Valid()
    {
      if !IsPositive(quotaInput) {
        return None, Some(InvalidQuotaAlert);
      }
      var quota := quotaInput.value;
      written := Some(quota);
      debtData := debtData.(defaultQuota := quota);
      defaultQuotaInput := Some(quota);
      showQuotaModal := false;
      alert := None;
    }

    /** `handleAddPayment(amount, concept)`, as the form calls it: the
        document `addPayment` stores, then `loadData` with what the reads
        return, then the payment modal closes. */
    method HandleAddPayment(userId: string, amount: Cents, concept: string, debt: Option<DebtData>, fetched: seq<Payment>)
      returns (stored: NewPayment)
      requires Valid()
      requires debt.Some? ==> ConfigOk(debt.value)
      requires LedgerOk(fetched)
      modifies this`debtData, this`payments, this`loading, this`showConfig,
               this`totalAmountInput, this`defaultQuotaInput, this`quotaInput, this`showPaymentModal
      ensures Valid()
      ensures stored == NewPaymentDocument(userId, amount, Some(concept))
      ensures payments == fetched && !loading && !showPaymentModal
      ensures debt.Some? ==>
        && debtData == debt.value && showConfig == old(showConfig)
        && totalAmountInput == Some(debt.value.totalAmount)
        && defaultQuotaInput == Some(debt.value.defaultQuota)
        && quotaInput == Some(debt.value.defaultQuota)
      ensures debt.None? ==>
        && showConfig && debtData == old(debtData)
        && totalAmountInput == old(totalAmountInput)
        && defaultQuotaInput == old(defaultQuotaInput) && quotaInput == old(quotaInput)
    {
      stored := NewPaymentDocument(userId, amount, Some(concept));
      LoadData(true, debt, fetched);
      showPaymentModal := false;
    }

    /** The settings button. */
    method ToggleConfig()
      modifies this`showConfig
      ensures showConfig == !old(showConfig)
    {
      showConfig := !showConfig;
    }
  }
}
