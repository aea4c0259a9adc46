/** app/listings/create/page.tsx: the create-listing form. Its text fields,
    screenshot list and flags are the state of a class; the screenshot
    removal is a pure index filter. The browser prompt, `parseFloat` and the
    server's reply come in as parameters. */
module CreateListing {
  import opened Common
  import ListingsRoute

  const RequiredMsg := "Please fill in all required fields"
  const InvalidPriceMsg := "Please enter a valid price"
  const FailedMsg := "Failed to create listing"
  const ExceptionMsg := "An error occurred. Please try again."
  const DashboardPath := "/dashboard"

  /** The text fields `handleInputChange` is called with. */
  datatype Field = Title | Description | Niche | Type | Price

  /** `list.filter((_, i) => i !== index)`, written over the positions from
      `start` on: keep every element whose position is not `index`. */
  function KeepOthers<T>(s: seq<T>, index: int, start: int): (r: seq<T>)
    ensures |r| <= |s|
    decreases |s|
  {
    if s == [] then []
    else (if start == index then [] else [s[0]]) + KeepOthers(s[1..], index, start + 1)
  }

  function RemoveAt<T>(s: seq<T>, index: int): seq<T> {
    KeepOthers(s, index, 0)
  }

  lemma {:induction false} KeepOthersSpec<T>(s: seq<T>, index: int, start: int)
    ensures start <= index < start + |s| ==>
              KeepOthers(s, index, start) == s[..index - start] + s[index - start + 1..]
    ensures !(start <= index < start + |s|) ==> KeepOthers(s, index, start) == s
    decreases |s|
  {
    if s != [] {
      KeepOthersSpec(s[1..], index, start + 1);
      if start == index {
        assert s[..0] + s[1..] == s[1..];
      } else if start < index < start + |s| {
        assert [s[0]] + (s[1..][..index - start - 1] + s[1..][index - start..]) ==
               s[..index - start] + s[index - start + 1..];
      } else {
        assert [s[0]] + s[1..] == s;
      }
    }
  }

  /** Removing position `index` drops exactly that element and keeps the
      others in order; an index outside the list changes nothing. */
  lemma RemoveAtSpec<T>(s: seq<T>, index: int)
    ensures 0 <= index < |s| ==> RemoveAt(s, index) == s[..index] + s[index + 1..]
    ensures 0 <= index < |s| ==> |RemoveAt(s, index)| == |s| - 1
    ensures !(0 <= index < |s|) ==> RemoveAt(s, index) == s
  {
    KeepOthersSpec(s, index, 0);
  }

  /** The message `handleSubmit` stops with, if any: an empty required field
      first, then a price that does not parse or is not positive. */
  function SubmitError(title: string, description: string, niche: string, listingType: string,
                       price: string, parseFloat: string -> Option<real>): (e: Option<string>)
    ensures e == Some(RequiredMsg) <==>
              title == "" || description == "" || niche == "" || listingType == "" || price == ""
    ensures e == Some(InvalidPriceMsg) <==>
              title != "" && description != "" && niche != "" && listingType != "" && price != ""
              && (parseFloat(price).None? || parseFloat(price).value <= 0.0)
    ensures e.None? <==>
              title != "" && description != "" && niche != "" && listingType != "" && price != ""
              && parseFloat(price).Some? && parseFloat(price).value > 0.0
  {
    if title == "" || description == "" || niche == "" || listingType == "" || price == "" then Some(RequiredMsg)
    else if parseFloat(price).None? || parseFloat(price).value <= 0.0 then Some(InvalidPriceMsg)
    else None
  }

  /** The body the form posts, in the server's terms. */
  function Body(title: string, description: string, niche: string, listingType: string,
                price: real, screenshots: seq<string>): ListingsRoute.ListingBody
  {
    ListingsRoute.ListingBody(Some(title), Some(description), Some(niche), Some(listingType),
                              Some(price), Some(screenshots))
  }

  /** A form that passes the client checks posts a body the server's
      required-field check accepts, for a signed-in user, with the same
      fields, the parsed price and the screenshot list. */
  lemma ClientCheckPassesServer(user: string, title: string, description: string, niche: string,
                                listingType: string, price: string, parseFloat: string -> Option<real>,
                                screenshots: seq<string>)
    requires user != ""
    requires SubmitError(title, description, niche, listingType, price, parseFloat).None?
    ensures var r := ListingsRoute.CreateListing(Some(user),
                       Body(title, description, niche, listingType, parseFloat(price).value, screenshots));
      r.Create? && r.listing.price == parseFloat(price).value > 0.0 && r.listing.screenshots == screenshots
      && r.listing.title == title && r.listing.userId == user
  {
  }

  class Form {
    var title: string
    var description: string
    var niche: string
    var listingType: string
    var price: string
    var screenshots: seq<string>
    var isLoading: bool
    var error: string
    /** The last path handed to `router.push`, if any. */
    var route: Option<string>

    constructor ()
      ensures title == "" && description == "" && niche == "" && listingType == "" && price == ""
      ensures screenshots == [] && !isLoading && error == "" && route == None
    {
      title, description, niche, listingType, price := "", "", "", "", "";
      screenshots := [];
      isLoading, error, route := false, "", None;
    }

    /** `handleInputChange(field, value)`: that field takes the value; every
        other field, the screenshots and the flags are unchanged. */
    method HandleInputChange(field: Field, value: string)
      modifies this
      ensures title == (if field == Title then value else old(title))
      ensures description == (if field == Description then value else old(description))
      ensures niche == (if field == Niche then value else old(niche))
      ensures listingType == (if field == Type then value else old(listingType))
      ensures price == (if field == Price then value else old(price))
      ensures screenshots == old(screenshots) && isLoading == old(isLoading)
      ensures error == old(error) && route == old(route)
    {
      match field {
        case Title => title := value;
        case Description => description := value;
        case Niche => niche := value;
        case Type => listingType := value;
        case Price => price := value;
      }
    }

    /** `addScreenshot`: a non-empty answer to the prompt goes at the end of
        the list; an empty or cancelled prompt leaves it as it was. */
    method AddScreenshot(url: Option<string>)
      modifies this`screenshots
      ensures Present(url) ==> screenshots == old(screenshots) + [url.value]
      ensures !Present(url) ==> screenshots == old(screenshots)
    {
      if Present(url) {
        screenshots := screenshots + [url.value];
      }
    }

    /** `removeScreenshot(index)`: drops the screenshot at that position,
        keeping the others in order; an out-of-range index changes nothing. */
    method RemoveScreenshot(index: int)
      modifies this`screenshots
      ensures 0 <= index < |old(screenshots)| ==>
                screenshots == old(screenshots)[..index] + old(screenshots)[index + 1..]
      ensures !(0 <= index < |old(screenshots)|) ==> screenshots == old(screenshots)
    {
      RemoveAtSpec(screenshots, index);
      screenshots := RemoveAt(screenshots, index);
    }

    /** `handleSubmit`: a failed check shows its message and posts nothing;
        otherwise the listing is posted with the parsed price, a failed reply
        shows its message and a successful one opens the dashboard. Every
        exit leaves `isLoading` false and the fields unchanged. */
    method HandleSubmit(parseFloat: string -> Option<real>, reply: Reply)
      returns (request: Option<ListingsRoute.ListingBody>)
      modifies this`isLoading, this`error, this`route
      ensures !isLoading
      ensures var e := SubmitError(title, description, niche, listingType, price, parseFloat);
        e.Some? ==> request == None && error == e.value && route == old(route)
      ensures var e := SubmitError(title, description, niche, listingType, price, parseFloat);
        e.None? ==> request == Some(Body(title, description, niche, listingType, parseFloat(price).value, screenshots))
      ensures request.Some? && reply.Ok? ==> error == "" && route == Some(DashboardPath)
      ensures request.Some? && reply.NotOk? ==>
                error == (if reply.error != "" then reply.error else FailedMsg) && route == old(route)
      ensures request.Some? && reply.Threw? ==> error == ExceptionMsg && route == old(route)
    {
      isLoading := true;
      error := "";

      var invalid := SubmitError(title, description, niche, listingType, price, parseFloat);
      if invalid.Some? {
        error := invalid.value;
        isLoading := false;
        return None;
      }

      var parsed := parseFloat(price);

      request := Some(Body(title, description, niche, listingType, parsed.value, screenshots));
      match reply {
        case NotOk(e) =>
          error := if e != "" then e else FailedMsg;
        case Ok(_) =>
          route := Some(DashboardPath);
        case Threw =>
          error := ExceptionMsg;
      }
      isLoading := false;
    }
  }
}
