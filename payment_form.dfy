/** The add-payment form: its amount check against what is still owed, the
    reset after a submission, and the suggested amount. */
module PaymentForm {
  import opened Types

  const InvalidAmountAlert := "Por favor ingresa un importe válido"

  /** Why a submitted amount is refused. */
  datatype AmountError = InvalidAmount | ExceedsRemaining(remainingAmount: Cents)

  /** The checks of `handleSubmit`, in their order: a number above zero,
      then no more than the remaining amount. */
  function CheckAmount(amount: Field, remainingAmount: Cents): (r: Result<Cents, AmountError>)
    ensures r.Ok? <==> amount.Some? && 0 < amount.value <= remainingAmount
    ensures r.Ok? ==> r.value == amount.value
    ensures !IsPositive(amount) ==> r == Err(InvalidAmount)
    ensures IsPositive(amount) && amount.value > remainingAmount ==> r == Err(ExceedsRemaining(remainingAmount))
  {
    if !IsPositive(amount) then Err(InvalidAmount)
    else if amount.value > remainingAmount then Err(ExceedsRemaining(remainingAmount))
    else Ok(amount.value)
  }

  /** With nothing owed, every amount is refused. */
  lemma NothingOwedRefusesAll(amount: Field, remainingAmount: Cents)
    requires remainingAmount <= 0
    ensures CheckAmount(amount, remainingAmount).Err?
  {
  }

  class PaymentFormState {
    var amount: Field
    var concept: string
    var loading: bool

    /** `useState(defaultQuota.toString())`, `useState('')`, `useState(false)`. */
    constructor (defaultQuota: Cents)
      ensures amount == Some(defaultQuota) && concept == "" && !loading
    {
      amount, concept, loading := Some(defaultQuota), "", false;
    }

    /** The effect on `[defaultQuota, remainingAmount]`: suggest the smaller. */
    method SuggestAmount(defaultQuota: Cents, remainingAmount: Cents)
      modifies this`amount
      ensures amount == Some(Min(defaultQuota, remainingAmount))
    {
      amount := Some(Min(defaultQuota, remainingAmount));
    }

    /** The inputs and the submit button are disabled while saving and when
        nothing is owed. */
    function Disabled(remainingAmount: Cents): (disabled: bool)
      reads this
      ensures remainingAmount <= 0 ==> disabled
      ensures disabled <==> loading || remainingAmount <= 0
    {
      loading || remainingAmount <= 0
    }

    /** `handleSubmit`. `submitted` is the `(amount, concept)` passed to
        `onPaymentAdd`, when the callback is invoked; `alert` the message
        shown instead. */
    method HandleSubmit(remainingAmount: Cents) returns (submitted: Option<(Cents, string)>, alert: Option<AmountError>)
      modifies this`concept, this`loading
      ensures submitted.Some? <==> CheckAmount(amount, remainingAmount).Ok?
      ensures submitted.Some? ==> 0 < submitted.value.0 <= remainingAmount
      ensures submitted.Some? ==> submitted.value == (amount.value, old(concept))
                                  && concept == "" && !loading && alert.None?
      ensures submitted.None? ==> alert == Some(CheckAmount(amount, remainingAmount).error)
                                  && concept == old(concept) && loading == old(loading)
    {
      var checked := CheckAmount(amount, remainingAmount);
      if checked.Err? {
        return None, Some(checked.error);
      }
      loading := true;
      submitted := Some((checked.value, concept));
      loading := false;
      concept := "";
      alert := None;
    }
  }
}
