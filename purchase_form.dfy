/** components/listings/purchase-form.tsx: who may buy, which button the
    card shows, and the state changes of the purchase handler. The router is
    modelled by the path it was last asked to open; the server's reply is a
    parameter. */
module PurchaseForm {
  import opened Common
  import PurchaseRoute

  const SignInPath := "/auth/signin"
  const FailedMsg := "Failed to create transaction"
  const ExceptionMsg := "An error occurred. Please try again."

  /** `currentUserId === listing.userId`: a signed-out visitor owns nothing. */
  predicate IsOwnListing(currentUserId: Option<string>, listing: Listing) {
    currentUserId == Some(listing.userId)
  }

  /** A signed-in visitor, not the owner, looking at an ACTIVE listing. */
  predicate CanPurchase(currentUserId: Option<string>, listing: Listing) {
    Present(currentUserId) && !IsOwnListing(currentUserId, listing) && listing.status == Active
  }

  datatype PurchaseButton = SignInToPurchase | YourOwnListing | NotAvailable | BuyNow

  /** The button the card shows; the choices are tried in order and exactly
      one applies. */
  function ButtonFor(currentUserId: Option<string>, listing: Listing): (b: PurchaseButton)
    ensures b == SignInToPurchase <==> !Present(currentUserId)
    ensures b == YourOwnListing <==> Present(currentUserId) && currentUserId.value == listing.userId
    ensures b == NotAvailable <==>
              Present(currentUserId) && currentUserId.value != listing.userId && listing.status != Active
    ensures b == BuyNow <==> CanPurchase(currentUserId, listing)
  {
    if !Present(currentUserId) then SignInToPurchase
    else if IsOwnListing(currentUserId, listing) then YourOwnListing
    else if listing.status != Active then NotAvailable
    else BuyNow
  }

  /** A visitor the card lets buy passes the server's status and ownership
      checks for the same listing; with a wallet that covers the price the
      server requests the transaction, at the listing's price. */
  lemma CanPurchaseAgreesWithServer(user: string, listing: Listing,
                                    listings: map<string, Listing>, wallets: map<string, real>)
    requires CanPurchase(Some(user), listing)
    requires listing.id != "" && listing.id in listings && listings[listing.id] == listing
    ensures var r := PurchaseRoute.CreateTransaction(Some(user), Some(listing.id), listings, wallets);
      && r != PurchaseRoute.Failure(400, PurchaseRoute.NotAvailableMsg)
      && r != PurchaseRoute.Failure(400, PurchaseRoute.OwnListingMsg)
      && (r.Requested? <==> user in wallets && wallets[user] >= listing.price)
      && (r.Requested? ==> r.tx.amount == listing.price && r.tx.sellerId == listing.userId)
      && (!r.Requested? ==> r == PurchaseRoute.Failure(400, PurchaseRoute.InsufficientMsg))
  {
  }

  class Form {
    const listing: Listing
    const currentUserId: Option<string>
    var isLoading: bool
    var error: string
    /** The last path handed to `router.push`, if any. */
    var route: Option<string>

    constructor (listing: Listing, currentUserId: Option<string>)
      ensures this.listing == listing && this.currentUserId == currentUserId
      ensures !isLoading && error == "" && route == None
    {
      this.listing := listing;
      this.currentUserId := currentUserId;
      isLoading := false;
      error := "";
      route := None;
    }

    /** `handlePurchase`: a signed-out visitor is sent to sign in and nothing
        else changes. Otherwise the listing id is posted, the error is cleared
        first and set from a failed reply, a successful reply opens the new
        transaction's page, and `isLoading` ends false. */
    method HandlePurchase(reply: Reply) returns (posted: Option<string>)
      modifies this
      ensures !Present(currentUserId) ==>
                posted == None && route == Some(SignInPath)
                && isLoading == old(isLoading) && error == old(error)
      ensures Present(currentUserId) ==> posted == Some(listing.id) && !isLoading
      ensures Present(currentUserId) && reply.Ok? ==>
                error == "" && route == Some("/transactions/" + reply.id)
      ensures Present(currentUserId) && reply.NotOk? ==>
                error == (if reply.error != "" then reply.error else FailedMsg) && route == old(route)
      ensures Present(currentUserId) && reply.Threw? ==> error == ExceptionMsg && route == old(route)
    {
      if !Present(currentUserId) {
        route := Some(SignInPath);
        return None;
      }

      isLoading := true;
      error := "";
      posted := Some(listing.id);
      match reply {
        case NotOk(e) =>
          error := if e != "" then e else FailedMsg;
        case Ok(id) =>
          route := Some("/transactions/" + id);
        case Threw =>
          error := ExceptionMsg;
      }
      isLoading := false;
    }
  }
}
