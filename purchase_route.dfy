/** app/api/transactions/create/route.ts, `POST`: the checks a purchase
    must pass before the escrow transaction is requested, the 10% commission
    and the fields of the request. The two database reads are lookups in
    snapshots passed in; `createTransaction` itself is not part of this
    model, so a success is the request the handler would make. */
module PurchaseRoute {
  import opened Common

  /** Platform commission, a fixed tenth of the price. */
  const CommissionRate: real := 0.1

  const UnauthorizedMsg := "Unauthorized"
  const MissingIdMsg := "Listing ID is required"
  const NotFoundMsg := "Listing not found"
  const NotAvailableMsg := "Listing is not available for purchase"
  const OwnListingMsg := "Cannot purchase your own listing"
  const InsufficientMsg := "Insufficient wallet balance. Please add funds to your wallet first."

  /** The arguments passed to `createTransaction`. */
  datatype TransactionRequest = TransactionRequest(
    listingId: string, buyerId: string, sellerId: string, amount: real, commission: real)

  datatype Response = Failure(status: int, message: string) | Requested(tx: TransactionRequest)

  /** The commission on a price: never negative and never more than the
      price for a price that is not negative; the seller keeps nine tenths. */
  function Commission(price: real): (c: real)
    ensures price >= 0.0 ==> 0.0 <= c <= price
    ensures price - c == price * 9.0 / 10.0
    ensures 10.0 * c == price
  {
    price * CommissionRate
  }

  /** Every check passes: a signed-in buyer, a listing id, an ACTIVE listing
      owned by someone else, and a wallet holding at least the price. */
  predicate Eligible(session: Option<string>, listingId: Option<string>,
                     listings: map<string, Listing>, wallets: map<string, real>)
  {
    && Present(session) && Present(listingId) && listingId.value in listings
    && listings[listingId.value].status == Active
    && listings[listingId.value].userId != session.value
    && session.value in wallets && wallets[session.value] >= listings[listingId.value].price
  }

  /** The handler's answer. Checks run in order and the first failure is
      reported: no session 401, no id 400, unknown listing 404, not ACTIVE
      400 (before the ownership check), own listing 400, no wallet or too
      small a balance 400 (a balance equal to the price is enough). */
  function CreateTransaction(session: Option<string>, listingId: Option<string>,
                             listings: map<string, Listing>, wallets: map<string, real>): (r: Response)
    ensures r.Requested? <==> Eligible(session, listingId, listings, wallets)
    ensures r.Failure? ==> r.status in {400, 401, 404}
    ensures r == Failure(401, UnauthorizedMsg) <==> !Present(session)
    ensures r == Failure(400, MissingIdMsg) <==> Present(session) && !Present(listingId)
    ensures r == Failure(404, NotFoundMsg) <==>
              Present(session) && Present(listingId) && listingId.value !in listings
    ensures r == Failure(400, NotAvailableMsg) <==>
              Present(session) && Present(listingId) && listingId.value in listings
              && listings[listingId.value].status != Active
    ensures r == Failure(400, OwnListingMsg) <==>
              Present(session) && Present(listingId) && listingId.value in listings
              && listings[listingId.value].status == Active
              && listings[listingId.value].userId == session.value
    ensures r == Failure(400, InsufficientMsg) <==>
              Present(session) && Present(listingId) && listingId.value in listings
              && listings[listingId.value].status == Active
              && listings[listingId.value].userId != session.value
              && (session.value !in wallets || wallets[session.value] < listings[listingId.value].price)
    ensures r.Requested? ==>
              var listing := listings[listingId.value];
              && r.tx.listingId == listing.id
              && r.tx.buyerId == session.value && r.tx.sellerId == listing.userId
              && r.tx.buyerId != r.tx.sellerId
              && r.tx.amount == listing.price
              && 10.0 * r.tx.commission == r.tx.amount
              && r.tx.amount <= wallets[r.tx.buyerId]
              && (r.tx.amount >= 0.0 ==> 0.0 <= r.tx.commission <= r.tx.amount)
  {
    if !Present(session) then Failure(401, UnauthorizedMsg)
    else if !Present(listingId) then Failure(400, MissingIdMsg)
    else if listingId.value !in listings then Failure(404, NotFoundMsg)
    else
      var listing := listings[listingId.value];
      if listing.status != Active then Failure(400, NotAvailableMsg)
      else if listing.userId == session.value then Failure(400, OwnListingMsg)
      else if session.value !in wallets || wallets[session.value] < listing.price then Failure(400, InsufficientMsg)
      else
        Requested(TransactionRequest(listing.id, session.value, listing.userId, listing.price, Commission(listing.price)))
  }
}
