/** app/api/listings/route.ts: the listing search endpoint's defaults and
    paging figures (`GET`) and the required-field check of listing creation
    (`POST`). Query-string values arrive already parsed; `None` stands for a
    parameter that is absent or empty. */
module ListingsRoute {
  import opened Common
  import ListingQuery

  const DefaultPage := 1
  const DefaultLimit := 20
  const DefaultSort := "newest"

  const UnauthorizedMsg := "Unauthorized"
  const MissingFieldsMsg := "Missing required fields"

  /** The query string of `GET /api/listings`, each value parsed. */
  datatype SearchParams = SearchParams(
    page: Option<int>, limit: Option<int>, search: Option<string>, listingType: Option<string>,
    niche: Option<string>, minPrice: Option<real>, maxPrice: Option<real>, sortBy: Option<string>)

  /** The `pagination` object of the response; `pages` is `None` where the
      division gives a non-finite number, which JSON writes as null. */
  datatype Pagination = Pagination(page: int, limit: int, total: nat, pages: Option<int>)

  function Page(p: SearchParams): int { p.page.GetOr(DefaultPage) }
  function Limit(p: SearchParams): int { p.limit.GetOr(DefaultLimit) }

  /** The rows to skip for a page: the pages before it, `limit` rows each. */
  function Offset(p: SearchParams): (n: int)
    ensures Page(p) >= 1 && Limit(p) >= 0 ==> n >= 0
    ensures n + Limit(p) == Page(p) * Limit(p)
  {
    (Page(p) - 1) * Limit(p)
  }

  /** The options the handler passes to `getActiveListings`: limit and offset
      always given, empty text filters dropped, sort defaulting to "newest". */
  function QueryOptions(p: SearchParams): (o: ListingQuery.Options)
    ensures o.limit == Some(Limit(p)) && o.offset == Some(Offset(p))
    ensures o.sortBy.Some? && o.sortBy.value != ""
    ensures o.sortBy.value == (if Present(p.sortBy) then p.sortBy.value else DefaultSort)
    ensures o.search.Some? ==> o.search.value != ""
    ensures o.listingType.Some? ==> o.listingType.value != ""
    ensures o.niche.Some? ==> o.niche.value != ""
    ensures Present(p.search) ==> o.search == p.search
    ensures Present(p.listingType) ==> o.listingType == p.listingType
    ensures Present(p.niche) ==> o.niche == p.niche
    ensures !Present(p.search) ==> o.search.None?
    ensures !Present(p.listingType) ==> o.listingType.None?
    ensures !Present(p.niche) ==> o.niche.None?
    ensures o.minPrice == p.minPrice && o.maxPrice == p.maxPrice
  {
    ListingQuery.Options(
      Some(Limit(p)), Some(Offset(p)),
      if Present(p.search) then p.search else None,
      if Present(p.listingType) then p.listingType else None,
      if Present(p.niche) then p.niche else None,
      p.minPrice, p.maxPrice,
      Some(if Present(p.sortBy) then p.sortBy.value else DefaultSort))
  }

  /** `Math.ceil(total / limit)`, or `None` for a zero limit. */
  function Pages(total: nat, limit: int): (r: Option<int>)
    ensures r.None? <==> limit == 0
    ensures limit > 0 ==> r.Some? && (r.value - 1) * limit < total <= r.value * limit
    ensures limit < 0 ==> r.Some? && r.value * limit <= total < (r.value - 1) * limit
  {
    if limit == 0 then None
    else if limit > 0 then Some((total + limit - 1) / limit)
    else Some(-(total / -limit))
  }

  /** The paging figures for `rows` returned rows: the total is the number of
      rows in this page, not a count of all matches. */
  function Paginate(p: SearchParams, rows: nat): (pg: Pagination)
    ensures pg.page == Page(p) && pg.limit == Limit(p) && pg.total == rows
    ensures pg.pages == Pages(rows, Limit(p))
  {
    Pagination(Page(p), Limit(p), rows, Pages(rows, Limit(p)))
  }

  /** Since one query returns at most `limit` rows, the reported page count
      is 0 or 1 whatever the number of listings. */
  lemma PagesAtMostOne(p: SearchParams, rows: nat)
    requires Limit(p) > 0 && rows <= Limit(p)
    ensures Paginate(p, rows).pages == Some(if rows == 0 then 0 else 1)
  {
    var limit := Limit(p);
    var n := rows + limit - 1;
    assert Pages(rows, limit) == Some(n / limit);
    if rows == 0 {
      assert 0 <= n < limit;
    } else {
      assert limit <= n < 2 * limit;
    }
  }

  /** The body of `POST /api/listings`; price arrives as a JSON number. */
  datatype ListingBody = ListingBody(
    title: Option<string>, description: Option<string>, niche: Option<string>,
    listingType: Option<string>, price: Option<real>, screenshots: Option<seq<string>>)

  /** The arguments passed to `createListing`. */
  datatype NewListing = NewListing(
    userId: string, title: string, description: string, niche: string,
    listingType: string, price: real, screenshots: seq<string>)

  datatype CreateResponse = Failure(status: int, message: string) | Create(listing: NewListing)

  /** Every required field is truthy: the four texts non-empty and the price
      present and not zero. */
  predicate Complete(b: ListingBody) {
    Present(b.title) && Present(b.description) && Present(b.niche) && Present(b.listingType) && NonZero(b.price)
  }

  /** The handler's answer: no session 401; any missing or falsy required
      field 400 (a price of 0 included); otherwise the listing to create, for
      the session user, with the body's values and no screenshots when the
      body has none. */
  function CreateListing(session: Option<string>, b: ListingBody): (r: CreateResponse)
    ensures r == Failure(401, UnauthorizedMsg) <==> !Present(session)
    ensures r == Failure(400, MissingFieldsMsg) <==> Present(session) && !Complete(b)
    ensures r.Create? <==> Present(session) && Complete(b)
    ensures r.Create? ==>
              && r.listing.userId == session.value
              && r.listing.title == b.title.value && r.listing.description == b.description.value
              && r.listing.niche == b.niche.value && r.listing.listingType == b.listingType.value
              && r.listing.price == b.price.value && r.listing.price != 0.0
              && r.listing.screenshots == (if b.screenshots.Some? then b.screenshots.value else [])
  {
    if !Present(session) then Failure(401, UnauthorizedMsg)
    else if !Complete(b) then Failure(400, MissingFieldsMsg)
    else Create(NewListing(session.value, b.title.value, b.description.value, b.niche.value,
                           b.listingType.value, b.price.value, b.screenshots.GetOr([])))
  }
}
