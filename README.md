# Marketplace rules — a Dafny model

This project models the decision logic of a WhatsApp marketplace, where
sellers list WhatsApp groups and channels and buyers pay for them from a
wallet. It covers the following parts:

- **`getActiveListings` query builder** (`listing_query.dfy`). Optional
  filters become numbered `$n` placeholders, in a fixed clause order after the
  `status = 'ACTIVE'` guard. The sort key picks an ORDER BY clause. LIMIT and
  OFFSET take the last two placeholders.
- **Listings API** (`listings_route.dfy`). The GET side turns search
  parameters into query options and computes the pagination block. The POST
  side checks the session and the required fields, then builds the new
  listing.
- **Purchase API** (`purchase_route.dfy`). It applies the ordered guards:
  session, listing id, existence, ACTIVE status, not one's own listing, enough
  balance. It then computes the 10% commission and the transaction request.
- **Withdrawal API** (`withdraw_route.dfy`). It checks the session, the $50
  minimum and the balance.
- **Client forms.** The withdrawal form (`withdraw_form.dfy`), the purchase
  card (`purchase_form.dfy`), the marketplace search filters
  (`search_filters.dfy`) and the create-listing page (`create_listing.dfy`)
  are classes. Their fields are the component's state, and the handlers are
  methods that say exactly what they change.
- **Wallet page summary** (`wallet_page.dfy`). It computes the balance, the
  pending withdrawals, their total, the "total earned" figure, and the
  sign, colour and badge of each entry.
- **Helpers.** `truncateText` is in `text_util.dfy`. `common.dfy` and
  `decimal.dfy` hold the shared values: an option type, JavaScript
  truthiness of strings and numbers, the listing record, and decimal
  rendering of placeholder numbers.

How the outside world appears in the model:

- Money is an exact `real`.
- A database lookup is a `map` snapshot passed in: listings by id, wallet
  balances by user.
- The session is an `Option<string>` holding the user id.
- A write the route would perform is returned as a request value:
  `createTransaction`, `createWithdrawalRequest` and `createListing`.
- A `fetch` made by a form is returned as the request it would post. The
  server's answer is a `Reply` parameter: ok with an id, not ok with an
  error text, or an exception.
- `parseFloat` on the create page is a parameter of type
  `string -> Option<real>`, where `None` stands for NaN.

## Model

| member | source | states |
|---|---|---|
| ListingQuery.BuildQuery | lib/db.ts:85-160 | The query binds exactly the present filters. The guard comes first, then one clause per filter numbered `$1..$k` in order, each bound to its value. The limit (default 20) and offset (default 0) follow as `$k+1` and `$k+2`. Each of the five sort keys maps to its ORDER BY, and anything else gives newest first. |
| ListingQuery.AddFilterIf | lib/db.ts:103-131 | One optional clause. When its option is set, it appends a clause numbered with the running index, pushes the value, and moves the index one on. Otherwise nothing changes. Either way the numbering invariant is kept. |
| ListingQuery.CondSql | lib/db.ts:99-131 | The SQL text of each WHERE clause, with its `$n` placeholder. It has no contract of its own; `WhereStartsWithActive` and `PlaceholdersDistinct` are stated about it. |
| ListingQuery.OrderSql | lib/db.ts:133-147 | The ORDER BY text for each sort order. It has no contract of its own; `BuildQuery` states which order each sort key picks. |
| ListingQuery.LimitSql | lib/db.ts:157 | `LIMIT $n OFFSET $m` for the query's two last placeholders. It has no contract of its own; `BoundPlaceholders` states what they bind. |
| ListingQuery.Part | lib/db.ts:103-131 | One `if` block: at most one filter, and of that block's own kind. `FiltersOrderAndPresence` states when each part is present and what value it holds. |
| ListingQuery.Collect | lib/db.ts:103-131 | The blocks for the given kinds run one after another: no more filters than kinds tried. `CollectOrdered` and `CollectMembers` characterise it. |
| ListingQuery.Filters | lib/db.ts:103-131 | The reference list of filters the builder is proved against: `Collect` over the five clauses in source order. It has no contract of its own; `FiltersOrderAndPresence` characterises it. |
| ListingQuery.WhereSql | lib/db.ts:99-131 | The WHERE text built by `whereClause +=`, one clause's text after another. `WhereStartsWithActive` is stated about it. |
| ListingQuery.FiltersOrderAndPresence | lib/db.ts:103-131 | A filter appears if and only if its option is set: a non-empty string for search, type and niche, any number for the price bounds. The search value is wrapped in `%…%`. Filters always come in the order search, type, niche, min price, max price. |
| ListingQuery.CollectOrdered | lib/db.ts:103-131 | Appending the clauses in a fixed order keeps every filter's kind among those tried, in strictly increasing clause order. |
| ListingQuery.CollectMembers | lib/db.ts:103-131 | A filter is in the collected list exactly when one of the tried clauses produced it. |
| ListingQuery.FiltersInClauseOrder | lib/db.ts:103-131 | The filters are the five optional clauses concatenated in source order. |
| ListingQuery.BoundPlaceholders | lib/db.ts:99-160 | In a query built this way, placeholders are `$1..$n` with no gaps, and each WHERE clause's placeholder holds its own filter's value. LIMIT takes the second-to-last parameter and OFFSET the last. |
| ListingQuery.Defaults | lib/db.ts:97 | With no options there are no filters. The WHERE clause is only the ACTIVE guard, and the parameters are exactly `[20, 0]` at `$1` and `$2`. |
| ListingQuery.WhereStartsWithActive | lib/db.ts:99 | The rendered WHERE text always starts with `WHERE l.status = 'ACTIVE'`. |
| ListingQuery.PlaceholdersDistinct | lib/db.ts:104-128 | Different placeholder numbers render as different `$n` texts. |
| Decimal.NatToString | lib/db.ts:104 | How a template literal renders a natural number: at least one character, all decimal digits, and no leading zero. `ParseNatToString` shows that it reads back. |
| Decimal.ParseNatToString | lib/db.ts:104 | The decimal text of a placeholder number reads back as that number. |
| Decimal.NatToStringInjective | lib/db.ts:104 | Distinct numbers have distinct decimal texts. |
| Decimal.IntToString | components/marketplace/search-filters.tsx:45 | An integer's text is non-empty and starts with `-` exactly when it is negative. |
| Decimal.IntToStringDigits | components/marketplace/search-filters.tsx:45 | After the optional `-`, the text is `NatToString` of the magnitude (digits only, no leading zero), and those digits read back as the magnitude. |
| TextUtil.Truncate | lib/utils.ts:27-30 | Text is a sequence of UTF-16 code units, which is what JavaScript's `length` and `substring` count. Text within the limit is returned unchanged. Longer text keeps its first `length` code units followed by `...`, so a surrogate pair can be cut in half as in the source. A negative length gives just `...`. |
| TextUtil.TruncateIdempotent | lib/utils.ts:27-30 | Truncating a second time with the same length changes nothing. |
| ListingsRoute.Page | app/api/listings/route.ts:9 | The requested page, 1 when none is given. It has no contract of its own. |
| ListingsRoute.Limit | app/api/listings/route.ts:10 | The requested page size, 20 when none is given. It has no contract of its own. |
| ListingsRoute.Offset | app/api/listings/route.ts:18 | `offset + limit == page * limit`. The offset is non-negative for page ≥ 1 and a non-negative limit. |
| ListingsRoute.QueryOptions | app/api/listings/route.ts:9-29 | The limit and offset are passed through. A non-empty search, type or niche is passed through unchanged, and an empty or missing one becomes absent. Price bounds pass through as given. The sort key defaults to "newest". |
| ListingsRoute.Pages | app/api/listings/route.ts:37 | `pages` is the ceiling of `total / limit`, stated by integer bounds for both signs of the limit. It is absent only for a zero limit. |
| ListingsRoute.Paginate | app/api/listings/route.ts:31-38 | The pagination block echoes page and limit. Its total is the number of rows returned, and its page count is `Pages` of those. |
| ListingsRoute.PagesAtMostOne | app/api/listings/route.ts:36-37 | The total counts only this page's rows, so for a positive limit the page count is never more than 1 (0 for no rows). |
| ListingsRoute.Complete | app/api/listings/route.ts:58 | The required-field test: title, description, niche and type non-empty, and price present and not zero. It has no contract of its own; `CreateListing` states its role. |
| ListingsRoute.CreateListing | app/api/listings/route.ts:48-72 | Without a session the reply is 401. Otherwise a missing or empty field (title, description, niche, type, price) gives 400 "Missing required fields". Otherwise the listing is created for the session user from the body's fields, with screenshots defaulting to an empty list. |
| PurchaseRoute.Commission | app/api/transactions/create/route.ts:46 | The commission is a tenth of the price. The seller keeps nine tenths. A non-negative price gives a commission between 0 and the price. |
| PurchaseRoute.Eligible | app/api/transactions/create/route.ts:10-36 | Every guard passes: a signed-in buyer, a listing id, a stored ACTIVE listing owned by someone else, and a wallet holding at least the price. `CreateTransaction` makes a request if and only if it holds. |
| PurchaseRoute.CreateTransaction | app/api/transactions/create/route.ts:8-54 | A request is made if and only if all guards pass. Each failure status and message appears if and only if every earlier guard passed and its own guard fails, in the source's order: 401, 400 for a missing id, 404, 400 for not active, 400 "Cannot purchase your own listing", 400 for no wallet or a balance below the price. A request has buyer ≠ seller, amount = price ≤ balance, and commission = amount / 10. |
| WithdrawRoute.RequestWithdrawal | app/api/wallet/withdraw/route.ts:8-26 | 401 without a session. Then 400 for a missing, zero or under-$50 amount. Then 400 "Insufficient balance" for no wallet or a balance below the amount. Otherwise a request for the session user and that amount, which is positive. |
| WithdrawRoute.MinimumCheckedFirst | app/api/wallet/withdraw/route.ts:16-24 | An amount that is both below the minimum and above the balance gets the minimum message. |
| WithdrawForm.ValidationError | components/wallet/withdraw-form.tsx:31-43 | Under 50 gives the minimum message. Then more than the balance gives "Insufficient balance". An amount equal to the balance, or an empty field (NaN), passes. |
| WithdrawForm.ReplyError | components/wallet/withdraw-form.tsx:55 | The server's error text is shown when non-empty, else "Failed to process withdrawal". |
| WithdrawForm.Form.SubmitDisabled | components/wallet/withdraw-form.tsx:96 | The submit button is disabled while a request runs or when the balance is under the $50 minimum. It has no contract of its own. |
| WithdrawForm.Form.constructor | components/wallet/withdraw-form.tsx:18-21 | The form starts empty, not loading and without an error. |
| WithdrawForm.Form.SetAmount | components/wallet/withdraw-form.tsx:19 | Only the amount changes. |
| WithdrawForm.Form.HandleSubmit | components/wallet/withdraw-form.tsx:26-68 | A client-side error is shown without posting. Otherwise the amount is posted. An ok reply clears the field. A failed reply or exception shows its message and keeps the field. The form is never left loading. |
| WithdrawForm.AgreesWithServer | components/wallet/withdraw-form.tsx:33-43 | For a signed-in user whose wallet balance is the prop, the form lets an amount through exactly when the server would accept it. The form shows its minimum error exactly when the server answers with its minimum error. |
| PurchaseForm.IsOwnListing | components/listings/purchase-form.tsx:25 | A visitor owns the listing when their id equals its seller's id. A signed-out visitor owns nothing. It has no contract of its own. |
| PurchaseForm.CanPurchase | components/listings/purchase-form.tsx:26 | A signed-in visitor who is not the owner, looking at an ACTIVE listing. `ButtonFor` and `CanPurchaseAgreesWithServer` state its role. |
| PurchaseForm.ButtonFor | components/listings/purchase-form.tsx:83-109 | The button shown, for each case: sign in when signed out, "Your Own Listing" for the seller, "Not Available" when not ACTIVE, else Buy Now exactly when `canPurchase`. |
| PurchaseForm.CanPurchaseAgreesWithServer | components/listings/purchase-form.tsx:25-26 | When the card offers Buy Now and the listing is the stored one, the server makes a request if and only if the wallet covers the price. Otherwise its only answer is 400 for insufficient balance. |
| PurchaseForm.Form.constructor | components/listings/purchase-form.tsx:19-21 | The card keeps its props and starts idle. |
| PurchaseForm.Form.HandlePurchase | components/listings/purchase-form.tsx:28-61 | Signed out: it navigates to sign-in and posts nothing. Signed in: it posts the listing id. An ok reply goes to `/transactions/<id>`. A failure shows its message, and so does an exception. Loading always ends. |
| SearchFilters.Chip.Key | components/marketplace/search-filters.tsx:40-43 | The `key` of each chip: "type", "niche" or "price". `KeysDistinct` and `ActiveFilterKeys` are stated about it. |
| SearchFilters.PriceNarrowed | components/marketplace/search-filters.tsx:42 | The price chip's test: the low end above 0 or the high end below 1000. It has no contract of its own. |
| SearchFilters.Chip.Label | components/marketplace/search-filters.tsx:40-45 | A chip's label: `Type: <type>`, `Niche: <niche>`, or `Price: $<low> - $<high>` with the numbers in decimal (see `Decimal.IntToStringDigits`). It has no contract of its own. |
| SearchFilters.ActiveFilters | components/marketplace/search-filters.tsx:39-47 | There is a type chip if and only if the type is not "ALL_TYPES", a niche chip if and only if the niche is not "ALL_NICHES", and a price chip if and only if the range is narrower than 0–1000. There are no other chips, and they appear in that order. |
| SearchFilters.ActiveFilterKeys | components/marketplace/search-filters.tsx:39-47 | Chip keys are "type", "niche", "price", each present exactly under its chip's condition. |
| SearchFilters.ResetOnlyRemovesChips | components/marketplace/search-filters.tsx:59-71 | Resetting some filters to their "all" values leaves only chips that were already shown. |
| SearchFilters.ClearedKeyAbsent | components/marketplace/search-filters.tsx:59-71 | Once the filter a key names is at its "all" value, no chip carries that key. |
| SearchFilters.Filters.constructor | components/marketplace/search-filters.tsx:18-22 | The filters start at their initial values, with no chips. |
| SearchFilters.Filters.SetSearchQuery | components/marketplace/search-filters.tsx:18 | Only the search text changes, and the chips stay the same. |
| SearchFilters.Filters.SetSelectedType | components/marketplace/search-filters.tsx:19 | Only the type changes. |
| SearchFilters.Filters.SetSelectedNiche | components/marketplace/search-filters.tsx:20 | Only the niche changes. |
| SearchFilters.Filters.SetPriceRange | components/marketplace/search-filters.tsx:21 | Only the price range changes. |
| SearchFilters.Filters.SetSortBy | components/marketplace/search-filters.tsx:22 | Only the sort key changes, and the chips stay the same. |
| SearchFilters.Filters.HandleSearch | components/marketplace/search-filters.tsx:49-57 | The selection passed to the `onFiltersChange` callback is the current search, type, niche, price range and sort. |
| SearchFilters.Filters.ClearFilter | components/marketplace/search-filters.tsx:59-71 | Only the named filter is reset, and an unknown key changes nothing. Afterwards no chip carries that key, and every remaining chip was already shown. |
| SearchFilters.Filters.ClearAllFilters | components/marketplace/search-filters.tsx:73-79 | Every filter is back at its initial value and no chip is shown. |
| CreateListing.KeepOthersSpec | app/listings/create/page.tsx:72 | Filtering out one position removes exactly that element. A position outside the list leaves it unchanged. |
| CreateListing.RemoveAtSpec | app/listings/create/page.tsx:69-74 | Removing an index in range gives `s[..i] + s[i+1..]`, one element shorter. Any other index leaves the list as it was. |
| CreateListing.RemoveAt | app/listings/create/page.tsx:72 | The list without position `index`, through `KeepOthers`. `RemoveAtSpec` states what it computes. |
| CreateListing.SubmitError | app/listings/create/page.tsx:82-93 | An empty required field gives the required-fields message. Then a price that does not parse, or is not positive, gives the invalid-price message. There is no error if and only if every field is filled and the price parses to a positive number. |
| CreateListing.Body | app/listings/create/page.tsx:101-108 | The posted body: the form's texts, the parsed price and the screenshot list. `ClientCheckPassesServer` states what the server makes of it. |
| CreateListing.ClientCheckPassesServer | app/listings/create/page.tsx:82-108 | A form that passes the client checks, posted with a session, is always created by the server with the form's fields and the parsed price. |
| CreateListing.Form.constructor | app/listings/create/page.tsx:39-48 | All fields start empty, with no screenshots, not loading and with no error. |
| CreateListing.Form.HandleInputChange | app/listings/create/page.tsx:55-57 | Only the named field takes the new value. |
| CreateListing.Form.AddScreenshot | app/listings/create/page.tsx:59-67 | A non-empty answer is appended, and an empty or cancelled prompt changes nothing. |
| CreateListing.Form.RemoveScreenshot | app/listings/create/page.tsx:69-74 | The screenshot at that index is removed, and the others keep their order. |
| CreateListing.Form.HandleSubmit | app/listings/create/page.tsx:76-127 | A client error is shown without posting. Otherwise the body is posted. An ok reply goes to `/dashboard`. A failure or exception shows its message. Loading always ends. |
| WalletPage.Balance | app/wallet/page.tsx:35 | A missing wallet counts as balance 0. |
| WalletPage.IsPendingWithdrawal | app/wallet/page.tsx:36 | The filter's test: type WITHDRAWAL and status PENDING. It has no contract of its own. |
| WalletPage.PendingWithdrawals | app/wallet/page.tsx:36 | The entries of type WITHDRAWAL and status PENDING, in history order, never more than the history holds. `PendingMembers` and `PendingOfConcat` characterise it. |
| WalletPage.SumAmounts | app/wallet/page.tsx:37 | The sum of the amounts, starting from 0. `SumOfConcat` characterises it. |
| WalletPage.Summarize | app/wallet/page.tsx:35-37 | The summary's pending count and total are those of the pending withdrawals. Total earned is balance plus pending. |
| WalletPage.PendingMembers | app/wallet/page.tsx:36 | An entry is a pending withdrawal if and only if it is in the history with type WITHDRAWAL and status PENDING. |
| WalletPage.PendingOfConcat | app/wallet/page.tsx:36 | The filter distributes over concatenation of histories. |
| WalletPage.SumOfConcat | app/wallet/page.tsx:37 | The sum distributes over concatenation. |
| WalletPage.PendingIdempotent | app/wallet/page.tsx:36 | Filtering the pending withdrawals again changes nothing. |
| WalletPage.PendingTotalStep | app/wallet/page.tsx:37 | A new entry raises the pending total by its amount exactly when it is a pending withdrawal. |
| WalletPage.TotalEarnedAtLeastBalance | app/wallet/page.tsx:65-76 | With non-negative amounts, the pending total is non-negative and total earned is at least the balance. |
| WalletPage.Sign | app/wallet/page.tsx:131 | `-` exactly for withdrawals, `+` for every other kind. |
| WalletPage.AmountColour | app/wallet/page.tsx:122-129 | Green exactly for deposits, sales and referrals. Red for the rest. |
| WalletPage.Badge | app/wallet/page.tsx:134-144 | COMPLETED gives the default variant, PENDING secondary, anything else destructive. |

## Left out

- `getWalletTransactions` does not exist. app/wallet/page.tsx imports it from lib/db.ts and calls it inside `Promise.all`, but lib/db.ts neither defines nor exports it, and the build is set to ignore type errors. As the source stands, the page fails before it computes any figure. `WalletPage` describes the page for a caller that supplies the wallet and its history.
- The marketplace page renders `<SearchFilters />` without an `onFiltersChange` callback. As the source stands, every Search click or Enter throws. `SearchFilters.Filters.HandleSearch` describes the component for a caller that supplies the callback: its result is the selection the callback would receive.
- WalletPage.Balance: the balance is taken to be a number. `getWalletByUserId` returns the row without `parseFloat`, unlike the other money columns in lib/db.ts. If the driver delivers numeric columns as strings, the page's `balance + totalPending` would join text instead of adding.
- WithdrawForm.Form.HandleSubmit: the model is the handler as written. The amount input's `required`, `min`, `max` and `step` attributes are not modelled. In a browser they stop a submit with an empty, under-50, over-balance or off-step amount before the handler runs.
- CreateListing.Form.HandleSubmit: the model is the handler as written. The `required` attributes on title, description and price, and the price input's `min="0"` and `step`, are not modelled. In a browser only an empty type or niche, or a price of 0, reaches the handler's checks.
- The escrow and ledger engine is not modelled.
- `createTransaction` and `createWithdrawalRequest` do not exist. The purchase and withdrawal routes import them from lib/db.ts, which neither defines nor exports them. With the source as it stands, the call fails, and the route's `catch` answers 500 whenever every guard passes. The model ends each route with the request it would hand to these functions, which is the behaviour the routes are written for.
- Every other function in lib/db.ts (users, reviews, referrals, admin queries), row-to-object mapping and the database driver: these are not decision logic.
- The `catch` branches that answer 500 in the three routes are not modelled. They fire when the database throws, when the request body is not JSON, and, in the purchase and withdrawal routes, when the missing function is called.
- Authentication (`getServerSession`, NextAuth) is reduced to an optional user id. The create page's redirect while rendering without a session is not modelled.
- Floating point is not modelled. Money is an exact real, so `price * 0.1` has no rounding. NaN appears only as an absent number.
- `parseInt`/`parseFloat` of query-string values, and the create route's `parseFloat(price)`, are not modelled. The search parameters arrive already parsed, and the body's price is already a number.
- `formatPrice`, `formatDate`, `cn` and `generateReferralCode` are presentation or randomness. The price chip's label uses the model's own integer rendering.
- `toast` notifications and all JSX layout other than the button, chip, colour, sign and badge choices are not modelled.
- The intermediate render while a request is in flight is not modelled. Each handler is one atomic step from before the request to after the reply.
- Two submits racing, and the check-then-act gap between reading a balance and creating a request, are not modelled.
- CreateListing.Form.HandleInputChange: the field is one of the five named fields rather than an arbitrary string key, because the page only ever passes those five.
- WalletPage.Sign: entry kinds are limited to deposit, withdrawal, sale, referral and purchase.
- ListingsRoute.Pages: a zero limit yields an absent page count, where JavaScript gives NaN or Infinity.
- ListingsRoute.QueryOptions: the page and limit are whatever integers `parseInt` produced. A non-numeric value (NaN in the source) is not represented.
