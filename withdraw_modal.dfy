/**
 * The withdrawal request form: a payment method picked from a fixed list,
 * an amount and the payment details. Submitting validates the fields and the
 * amount against the balance and inserts one `withdrawals` row; the wallet is
 * not touched (an administrator settles the request later).
 *
 * The amount field is held as the number of minor units it parses to, or
 * None while the text is empty.
 */
module WithdrawModal {
  import opened Common
  import opened Schema
  import opened Store

  /** The ids of the payment-method buttons, in display order. */
  const PaymentMethodIds: seq<string> := ["bank", "mobile", "card"]

  /** `Math.round(parseFloat(amount || '0') * 100)`: an empty field counts as 0. */
  function AmountInCents(amount: Option<int>): int {
    OrZero(amount)
  }

  /** The amount can be withdrawn: positive and within the balance. */
  predicate IsValidAmount(cents: int, balance: int) {
    cents > 0 && cents <= balance
  }

  const ExceedsBalance: string := "Amount exceeds your balance"
  const EnterValidAmount: string := "Please enter a valid amount"

  /** The hint under a non-empty amount that cannot be withdrawn. */
  function AmountHint(amount: Option<int>, balance: int): (r: Option<string>)
    ensures r.Some? <==> amount.Some? && !IsValidAmount(AmountInCents(amount), balance)
    ensures r == Some(ExceedsBalance) <==> amount.Some? && AmountInCents(amount) > balance
  {
    if amount.Some? && !IsValidAmount(AmountInCents(amount), balance) then
      Some(if AmountInCents(amount) > balance then ExceedsBalance else EnterValidAmount)
    else None
  }

  datatype WithdrawOutcome = MissingFields | InvalidAmount | NotAuthenticated | InsertFailed | Requested

  /** What a submission leads to, given the signed-in user and whether the insert fails. */
  function RequestOutcome(selectedMethod: string, amount: Option<int>, paymentDetails: string,
                          balance: int, user: Option<Id>, insertFails: bool): (r: WithdrawOutcome)
    ensures r == MissingFields <==> selectedMethod == "" || amount.None? || paymentDetails == ""
    ensures r == Requested <==>
      selectedMethod != "" && amount.Some? && paymentDetails != "" &&
      IsValidAmount(AmountInCents(amount), balance) && user.Some? && !insertFails
    ensures r == Requested ==> 0 < AmountInCents(amount) <= balance
  {
    if selectedMethod == "" || amount.None? || paymentDetails == "" then MissingFields
    else if !IsValidAmount(AmountInCents(amount), balance) then InvalidAmount
    else if user.None? then NotAuthenticated
    else if insertFails then InsertFailed
    else Requested
  }

  class WithdrawForm {
    var selectedMethod: string
    var amount: Option<int>
    var paymentDetails: string

    /** The selected method is empty or one of the buttons' ids. */
    predicate Valid()
      reads this
    {
      selectedMethod == "" || selectedMethod in PaymentMethodIds
    }

    constructor ()
      ensures Valid()
      ensures selectedMethod == "" && amount == None && paymentDetails == ""
    {
      selectedMethod, amount, paymentDetails := "", None, "";
    }

    /** Clicking the k-th payment-method button. */
    method SelectMethod(k: nat)
      requires k < |PaymentMethodIds|
      modifies this`selectedMethod
      ensures selectedMethod == PaymentMethodIds[k]
      ensures Valid()
    {
      selectedMethod := PaymentMethodIds[k];
    }

    method EditAmount(a: Option<int>)
      modifies this`amount
      ensures amount == a
    {
      amount := a;
    }

    method EditPaymentDetails(d: string)
      modifies this`paymentDetails
      ensures paymentDetails == d
    {
      paymentDetails := d;
    }

    /**
     * `handleSubmit`: on success exactly one pending row with the user, the
     * amount, the method and the details is inserted and the form is cleared;
     * otherwise nothing is written and the form keeps its values.
     */
    method HandleSubmit(st: Store, balance: int, user: Option<Id>, newId: Id, insertFails: bool)
      returns (outcome: WithdrawOutcome)
      requires Valid()
      modifies this, st`withdrawals
      ensures Valid()
      ensures outcome == RequestOutcome(old(selectedMethod), old(amount), old(paymentDetails), balance, user, insertFails)
      ensures outcome == Requested ==>
        st.withdrawals == old(st.withdrawals) +
          [WithdrawalRow(newId, user.value, AmountInCents(old(amount)), old(selectedMethod), old(paymentDetails), Pending)]
      ensures outcome != Requested ==> st.withdrawals == old(st.withdrawals)
      ensures outcome == Requested ==> selectedMethod == "" && amount == None && paymentDetails == ""
      ensures outcome != Requested ==>
        selectedMethod == old(selectedMethod) && amount == old(amount) && paymentDetails == old(paymentDetails)
      ensures st.profiles == old(st.profiles) && st.transactions == old(st.transactions)
    {
      if selectedMethod == "" || amount.None? || paymentDetails == "" {
        return MissingFields;
      }
      var amountInCents := AmountInCents(amount);
      if !IsValidAmount(amountInCents, balance) {
        return InvalidAmount;
      }
      if user.None? {
        return NotAuthenticated;
      }
      if insertFails {
        return InsertFailed;
      }
      st.withdrawals := st.withdrawals + [WithdrawalRow(newId, user.value, amountInCents, selectedMethod, paymentDetails, Pending)];
      amount := None;
      paymentDetails := "";
      selectedMethod := "";
      return Requested;
    }
  }
}
