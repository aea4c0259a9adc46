/** components/wallet/withdraw-form.tsx: the withdrawal form's state and its
    submit handler as written. The amount field holds a number, or nothing
    when the field is empty (`parseFloat("")` is NaN, which passes both
    client checks and would be posted as null if the handler ran; the
    input's own `required`, `min`, `max` and `step` attributes, which stop
    such a submit in the browser, are not part of this model). The server's
    reply is a parameter. */
module WithdrawForm {
  import opened Common
  import WithdrawRoute

  /** The client's minimum, the same figure the server checks. */
  const MinWithdrawal: real := 50.0

  const MinimumMsg := "Minimum withdrawal amount is $50.00"
  const InsufficientMsg := "Insufficient balance"
  const FailedMsg := "Failed to process withdrawal"
  const ExceptionMsg := "An error occurred. Please try again."

  /** The client-side check: an amount under 50 gives the minimum message,
      then an amount over the balance gives "Insufficient balance"; an amount
      equal to the balance, or an empty field, passes. */
  function ValidationError(amount: Option<real>, balance: real): (e: Option<string>)
    ensures e == Some(MinimumMsg) <==> amount.Some? && amount.value < MinWithdrawal
    ensures e == Some(InsufficientMsg) <==> amount.Some? && MinWithdrawal <= amount.value && amount.value > balance
    ensures e.None? <==> amount.None? || MinWithdrawal <= amount.value <= balance
  {
    if amount.Some? && amount.value < MinWithdrawal then Some(MinimumMsg)
    else if amount.Some? && amount.value > balance then Some(InsufficientMsg)
    else None
  }

  /** The message shown for a reply that is not ok. */
  function ReplyError(error: string): (m: string)
    ensures m != ""
    ensures error != "" ==> m == error
    ensures error == "" ==> m == FailedMsg
  {
    if error != "" then error else FailedMsg
  }

  /** The POST the form sends, if any. */
  datatype Request = NoRequest | PostWithdraw(amount: Option<real>)

  class Form {
    /** The `balance` prop. */
    const balance: real
    var amount: Option<real>
    var isLoading: bool
    var error: string

    constructor (balance: real)
      ensures this.balance == balance && amount == None && !isLoading && error == ""
    {
      this.balance := balance;
      amount := None;
      isLoading := false;
      error := "";
    }

    /** The submit button is disabled while a request runs or when the
        balance cannot cover the minimum. */
    predicate SubmitDisabled()
      reads this
    {
      isLoading || balance < MinWithdrawal
    }

    /** Typing in the amount field. */
    method SetAmount(value: Option<real>)
      modifies this
      ensures amount == value && isLoading == old(isLoading) && error == old(error)
    {
      amount := value;
    }

    /** `handleSubmit`: on a validation failure the message is shown, nothing
        is posted and the amount stays; otherwise the amount is posted and the
        reply decides the message. Every exit leaves `isLoading` false, and
        the amount is cleared only by a successful reply. */
    method HandleSubmit(reply: Reply) returns (request: Request)
      modifies this
      ensures !isLoading
      ensures ValidationError(old(amount), balance).Some? ==>
                request == NoRequest && error == ValidationError(old(amount), balance).value && amount == old(amount)
      ensures ValidationError(old(amount), balance).None? ==> request == PostWithdraw(old(amount))
      ensures request.PostWithdraw? && reply.Ok? ==> error == "" && amount == None
      ensures request.PostWithdraw? && reply.NotOk? ==> error == ReplyError(reply.error) && amount == old(amount)
      ensures request.PostWithdraw? && reply.Threw? ==> error == ExceptionMsg && amount == old(amount)
    {
      isLoading := true;
      error := "";
      var withdrawAmount := amount;

      var invalid := ValidationError(withdrawAmount, balance);
      if invalid.Some? {
        error := invalid.value;
        isLoading := false;
        return NoRequest;
      }

      request := PostWithdraw(withdrawAmount);
      match reply {
        case NotOk(e) =>
          error := ReplyError(e);
        case Ok(_) =>
          amount := None;
        case Threw =>
          error := ExceptionMsg;
      }
      isLoading := false;
    }
  }

  /** Client and server agree on the amount: with the wallet the balance
      prop was read from, an amount the form lets through is one the server
      accepts, and an amount the form refuses the server refuses too. */
  lemma AgreesWithServer(user: string, amount: real, wallets: map<string, real>)
    requires user != "" && user in wallets
    ensures ValidationError(Some(amount), wallets[user]).None? <==>
              WithdrawRoute.RequestWithdrawal(Some(user), Some(amount), wallets).Requested?
    ensures ValidationError(Some(amount), wallets[user]) == Some(MinimumMsg) <==>
              WithdrawRoute.RequestWithdrawal(Some(user), Some(amount), wallets) == WithdrawRoute.Failure(400, WithdrawRoute.MinimumMsg)
  {
  }
}
