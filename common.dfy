/** Values shared by every part of the marketplace model: optional values,
    JavaScript truthiness of the inputs the handlers test, the listing
    record of lib/types.ts and the outcome of a browser `fetch`. */
module Common {

  datatype Option<+T> = None | Some(value: T) {
    /** `x ?? d`: the value, or `d` when absent. */
    function GetOr(d: T): T {
      match this
      case Some(v) => v
      case None => d
    }
  }

  /** A string value that JavaScript treats as true: present and not empty. */
  predicate Present(s: Option<string>) {
    s.Some? && s.value != ""
  }

  /** A number that JavaScript treats as true: present and not zero
      (NaN is not part of this model). */
  predicate NonZero(x: Option<real>) {
    x.Some? && x.value != 0.0
  }

  /** Listing status, lib/types.ts line 28. */
  datatype ListingStatus = Draft | Pending | Active | Sold | Deactivated | Rejected

  /** The fields of a listing row that the handlers read. */
  datatype Listing = Listing(id: string, userId: string, price: real, status: ListingStatus)

  /** What a client handler gets back from `fetch` followed by `response.json()`:
      an ok response carrying the id the server created, a response that is
      not ok carrying `data.error` ("" when the body had none), or an exception. */
  datatype Reply = Ok(id: string) | NotOk(error: string) | Threw
}
