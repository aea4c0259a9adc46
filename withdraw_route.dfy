/** app/api/wallet/withdraw/route.ts, `POST`: the minimum and balance checks
    in front of a withdrawal request. The wallet read is a lookup in a
    snapshot; `createWithdrawalRequest` is not part of this model, so a
    success is the call the handler would make. */
module WithdrawRoute {
  import opened Common

  /** The smallest amount that can be withdrawn, in dollars. */
  const MinWithdrawal: real := 50.0

  const UnauthorizedMsg := "Unauthorized"
  const MinimumMsg := "Minimum withdrawal amount is $50"
  const InsufficientMsg := "Insufficient balance"

  datatype Response = Failure(status: int, message: string) | Requested(userId: string, amount: real)

  /** The handler's answer: no session 401; a missing or zero amount, or one
      below 50, 400 with the minimum message (checked first); no wallet or a
      balance below the amount 400; otherwise the request for the session
      user and the unchanged amount. 50 and the whole balance are allowed. */
  function RequestWithdrawal(session: Option<string>, amount: Option<real>, wallets: map<string, real>): (r: Response)
    ensures r.Failure? ==> r.status in {400, 401}
    ensures r == Failure(401, UnauthorizedMsg) <==> !Present(session)
    ensures r == Failure(400, MinimumMsg) <==>
              Present(session) && (amount.None? || amount.value < MinWithdrawal)
    ensures r == Failure(400, InsufficientMsg) <==>
              Present(session) && amount.Some? && amount.value >= MinWithdrawal
              && (session.value !in wallets || wallets[session.value] < amount.value)
    ensures r.Requested? <==>
              Present(session) && amount.Some? && MinWithdrawal <= amount.value
              && session.value in wallets && amount.value <= wallets[session.value]
    ensures r.Requested? ==> r.userId == session.value && r.amount == amount.value && r.amount > 0.0
  {
    if !Present(session) then Failure(401, UnauthorizedMsg)
    else if !NonZero(amount) || amount.value < MinWithdrawal then Failure(400, MinimumMsg)
    else if session.value !in wallets || wallets[session.value] < amount.value then Failure(400, InsufficientMsg)
    else Requested(session.value, amount.value)
  }

  /** A request below the minimum is refused with the minimum message even
      when it also exceeds the balance. */
  lemma MinimumCheckedFirst(user: string, amount: real, wallets: map<string, real>)
    requires user != "" && amount < MinWithdrawal
    requires user !in wallets || wallets[user] < amount
    ensures RequestWithdrawal(Some(user), Some(amount), wallets) == Failure(400, MinimumMsg)
  {
  }
}
