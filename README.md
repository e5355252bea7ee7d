# CampusCloset decision logic in Dafny

CampusCloset is a client-side marketplace where students rent and buy clothing. This project models the few parts of its UI that make decisions, and proves what they do:

- **Catalog filter and search** (`src/App.jsx`). A non-empty search query is matched case-insensitively against title and category, and as a plain substring against tags. It overrides the category/tag filter. With an empty query, the filter `"all"` shows everything. Any other filter shows items that carry it as a tag or whose lower-cased category equals it.
- **Page state handlers** (`src/App.jsx`): login, opening the listing form, adding a listing, adding to cart, and typing a query. They are methods on the `AppState` class.
- **Listing intake** (`src/components/ListingModal.jsx`): the tiered deposit, the new catalog record built from the form, the simulated upload and the form reset.
- **Login gate** (`src/components/AuthModal.jsx`): the email acceptance test and the error message.
- **Price breakdown** (`src/components/ProductModal.jsx`): the base price, deposit, platform fee and total due, for renting and for buying.

Modules: `Text` (ASCII lower-casing, `includes`, `endsWith`), `Wrappers` (`Option`), `Catalog`, `Listing`, `Auth`, `Pricing` and `App`.

Modelling choices:
- Prices and deposits are whole euros (`nat`). The form's price inputs are `type="number" min="1"` with the default step, so they only accept whole numbers. The fee and the total due are exact `real`s.
- `toLowerCase` is ASCII lower-casing.
- `Date.now()` and the `Number(...)` parsing of the price fields become parameters of `ListingForm.Submit`.
- `Math.random` in the simulated upload becomes a nondeterministic choice (`:|`) among the four images.
- The timer that opens the locker dashboard after checkout is recorded as the `lockerPending` flag.
- The stored or seeded catalog is the constructor's `initialItems` parameter.

The email test is modelled exactly as written: `regex.test(email) || email.endsWith('@edu.escp.eu')`. Every regex match also ends with the domain, so `AcceptsIffDomainSuffix` proves that the regex has no effect. Acceptance is the case-sensitive suffix test alone. So the submit handler's test accepts `"@edu.escp.eu"` and addresses whose local part has characters outside the regex's class. The browser's own `type="email"` validation, which runs before the handler, is not modelled.

## Model

| member | source | states |
|---|---|---|
| `Text.LowerChar` | src/App.jsx:77 | the result is never an upper-case letter; upper-case letters move by 32 code points and every other character is unchanged |
| `Text.Lower` | src/App.jsx:77-80 | the result has the input's length and lower-cases it character by character |
| `Text.Contains` | src/App.jsx:78-80 | `includes`: some occurrence of the pattern; a containing string is at least as long as the pattern, and every string contains the empty string and itself |
| `Text.EndsWith` | src/components/AuthModal.jsx:19 | `endsWith`: the suffix occurs at the last position of the string |
| `Text.LowerOfLowerCase` | src/App.jsx:77 | a string with no upper-case letter is unchanged by lower-casing |
| `Text.LowerIdempotent` | src/App.jsx:77 | lower-casing twice equals lower-casing once |
| `Catalog.MatchesQuery` | src/App.jsx:76-81 | the search branch: lower(query) is a substring of lower(title), of some tag as written, or of lower(category); a query equal to the title, or whose lower-cased form is a tag, always matches |
| `Catalog.MatchesFilter` | src/App.jsx:85 | the category branch: the filter is one of the tags or equals lower(category) |
| `Catalog.Keeps` | src/App.jsx:74-86 | the `items.filter` callback: search branch for a non-empty query, otherwise everything for "all" and the category branch for any other filter |
| `Catalog.FilteredItems` | src/App.jsx:74-86 | an item is in the visible list iff it is in the catalog and passes the filter callback; the list is never longer than the catalog |
| `Catalog.FilteredIsSubsequence` | src/App.jsx:74-86 | the visible list is an order-preserving subsequence of the catalog |
| `Catalog.FilteredAllKept` | src/App.jsx:74-86 | when every item passes, the visible list is the whole catalog |
| `Catalog.EmptyQueryAllFilterShowsEverything` | src/App.jsx:76-84 | with an empty query and filter "all", the visible list equals the catalog |
| `Catalog.SearchIgnoresFilter` | src/App.jsx:76-81 | with a non-empty query, the visible list is the same whatever the category/tag filter is |
| `Catalog.SearchMembership` | src/App.jsx:76-81 | with a non-empty query q, an item is visible iff it is in the catalog and lower(q) is a substring of lower(title), of some tag as written, or of lower(category) |
| `Catalog.CategoryMembership` | src/App.jsx:83-85 | with an empty query and a filter f other than "all", an item is visible iff it is in the catalog and f is one of its tags or equals lower(category) |
| `Catalog.FilteredPrepend` | src/App.jsx:47 | putting an item at the front of the catalog puts it at the front of the visible list when it passes the filter, and changes nothing else |
| `Listing.SuggestedDeposit` | src/components/ListingModal.jsx:21-25 | the deposit is 75, 30 or 10: 75 exactly for "Formal"/"Gala", 30 exactly for "Outerwear"/"Coat", 10 otherwise |
| `Listing.SelectableDeposits` | src/components/ListingModal.jsx:125-128 | the four selectable categories get Casual 10, Formal 75, Outerwear 30, Accessories 10 |
| `Listing.NewItem` | src/components/ListingModal.jsx:43-55 | the new record's image is never empty, it has two tags including "new-arrival", and its deposit is one of the three tiers |
| `Listing.NewItemCopiesForm` | src/components/ListingModal.jsx:44-49 | the id is the given id; title, category, size, condition and description come from the form unchanged; the prices are the given parsed values |
| `Listing.NewItemSeller` | src/components/ListingModal.jsx:52-54 | seller, rating and batch are the constants "You (Student)", 5.0 and "Batch 2025" |
| `Listing.NewItemDepositAndTags` | src/components/ListingModal.jsx:41-51 | the deposit is the category's tier and the tags are exactly [lower(category), "new-arrival"] |
| `Listing.NewItemImage` | src/components/ListingModal.jsx:47 | the image is the form's when it is non-empty, the fixed placeholder otherwise |
| `Listing.NewItemMatchesOwnFilters` | src/components/ListingModal.jsx:51 | with an empty query, a new listing passes the filter of its own lower-cased category and the "new-arrival" filter |
| `Listing.NavyBlazerExample` | src/components/ListingModal.jsx:39-55 | a "Navy Blazer" in "Formal" at 10/50 gets deposit 75, tags ["formal", "new-arrival"] and the placeholder image |
| `Listing.ListingForm.constructor` | src/components/ListingModal.jsx:6-15 | the form starts as Casual, M, Good and empty strings |
| `Listing.ListingForm.SimulateUpload` | src/components/ListingModal.jsx:27-37 | the image becomes one of the four fixed URLs and every other field is unchanged |
| `Listing.ListingForm.Submit` | src/components/ListingModal.jsx:39-68 | returns the record built from the form as it was, and the form is back to its initial state |
| `Auth.MatchesEscpRegex` | src/components/AuthModal.jsx:17 | the regex: a non-empty local part from `[a-zA-Z0-9._%+-]`, then exactly "@edu.escp.eu"; every match is longer than the domain, ends with it, and has no '@' in its local part |
| `Auth.Accepts` | src/components/AuthModal.jsx:19 | the submit condition: the regex matches or the email ends with "@edu.escp.eu" |
| `Auth.AcceptsIffDomainSuffix` | src/components/AuthModal.jsx:17-19 | an email is accepted iff it ends with "@edu.escp.eu"; the regex branch adds nothing |
| `Auth.EmptyLocalPartAccepted` | src/components/AuthModal.jsx:17-19 | "@edu.escp.eu" is accepted even though the regex rejects it |
| `Auth.SchoolAddressAccepted` | src/components/AuthModal.jsx:19 | "x@edu.escp.eu" is accepted and matches the regex |
| `Auth.OtherDomainRejected` | src/components/AuthModal.jsx:19 | "x@gmail.com" is rejected |
| `Auth.UpperCaseDomainRejected` | src/components/AuthModal.jsx:17-19 | the test is case-sensitive: "x@EDU.ESCP.EU" is rejected |
| `Auth.Decide` | src/components/AuthModal.jsx:14-24 | login happens iff the email ends with the domain and carries that email; otherwise the outcome is the fixed rejection message |
| `Auth.DecideIgnoresPassword` | src/components/AuthModal.jsx:8-24 | the outcome does not depend on the password |
| `Auth.AuthForm.constructor` | src/components/AuthModal.jsx:7-9 | email, password and error start empty |
| `Auth.AuthForm.ChangeEmail` | src/components/AuthModal.jsx:50 | editing the email stores it and clears the error |
| `Auth.AuthForm.ChangePassword` | src/components/AuthModal.jsx:61 | editing the password stores it and leaves email and error alone |
| `Auth.AuthForm.Submit` | src/components/AuthModal.jsx:14-24 | the outcome is the decision for the current email; on rejection the error becomes the fixed message, otherwise it is unchanged; email and password are unchanged |
| `Pricing.FeeRate` | src/components/ProductModal.jsx:9 | the rate is 2% exactly when renting, otherwise 4% |
| `Pricing.BasePrice` | src/components/ProductModal.jsx:68 | the displayed base price is the daily rate when renting and the purchase price when buying |
| `Pricing.DepositDue` | src/components/ProductModal.jsx:7 | the deposit charged is the item's deposit when renting and zero when buying |
| `Pricing.Total` | src/components/ProductModal.jsx:7 | the pre-fee total is the base price plus the deposit due, so daily rate plus deposit when renting and purchase price when buying |
| `Pricing.Fee` | src/components/ProductModal.jsx:9 | the fee is the base price times the mode's rate, between zero and the base price |
| `Pricing.FeeLabel` | src/components/ProductModal.jsx:10 | the label is "2% Platform Fee" or "4% Platform Fee" |
| `Pricing.TotalDue` | src/components/ProductModal.jsx:93 | the total due is never less than the base price |
| `Pricing.BreakdownPerMode` | src/components/ProductModal.jsx:7-9 | per mode: base, deposit due, pre-fee total and fee are daily rate, deposit, their sum and 2% of the daily rate when renting; purchase price, 0, purchase price and 4% of it when buying |
| `Pricing.TotalDueBreakdown` | src/components/ProductModal.jsx:7-9 | total due = base price + deposit due + base price times the rate |
| `Pricing.FeeLabelMatchesRate` | src/components/ProductModal.jsx:9-10 | the label names the rate actually charged |
| `Pricing.RentTotalDue` | src/components/ProductModal.jsx:7-9 | renting costs 1.02 times the daily rate plus the deposit |
| `Pricing.BuyTotalDue` | src/components/ProductModal.jsx:7-9 | buying costs 1.04 times the purchase price, and the deposit has no effect |
| `App.AppState.constructor` | src/App.jsx:20-38 | the catalog is the initial one, the filter is "all", the query is empty, there is no session, no modal is open, nothing is selected and there are no rentals |
| `App.AppState.Visible` | src/App.jsx:74-86 | the grid shows exactly the catalog items that pass the filter for the current query and filter |
| `App.AppState.HandleLogin` | src/App.jsx:41-44 | authenticated and login form closed; nothing else changes |
| `App.AppState.HandleAddItem` | src/App.jsx:46-55 | the catalog becomes [new item] + old catalog and the filter is "all"; with an empty query the new item is visible and the grid is the whole catalog; nothing else changes |
| `App.AppState.HandleAddToCart` | src/App.jsx:57-66 | the selection is cleared; without a session the rentals are unchanged and the login form opens; with one the item is appended to the rentals and the locker is scheduled to open |
| `App.AppState.ChangeSearch` | src/App.jsx:149 | the query is stored, and a non-empty query resets the filter to "all" |
| `App.AppState.OpenListing` | src/App.jsx:275 | a "List Item" button opens the listing form with a session and the login form without one; nothing else changes |
| `App.AppState.SetFilter` | src/App.jsx:355-357 | a filter chip sets the filter and nothing else |
| `App.AppState.SelectItem` | src/App.jsx:373 | clicking a card selects that item and nothing else |
| `App.SubmitLogin` | src/App.jsx:91-95 | a login-form submit authenticates and closes the form iff the email is accepted; otherwise it sets the error and leaves the session as it was; the form's email and password and every other page field are unchanged |
| `App.PublishListing` | src/App.jsx:118-122 | a listing-form submit puts the record built from the form at the head of the catalog, resets the filter to "all", resets and closes the form, and with an empty query makes the new item visible; query, session, login form, selection, rentals and the locker flag are unchanged |

## Left out

- Reading and writing the catalog in browser local storage, and the JSON parsing (src/App.jsx:20-23, 49): browser I/O. The initial catalog is a constructor parameter.
- Scroll listeners, `scrollIntoView` and `scrollTo`: DOM effects and the presentation-only `scrolled` flag (src/App.jsx:68-72).
- The 300 ms timer before the locker dashboard opens: only the `lockerPending` flag records that it was started. Opening and closing the dashboard is not modelled.
- `toFixed(2)` and `parseFloat` in the price breakdown: floating-point rounding. The fee and total due are exact.
- `Date.now()` ids, `Math.random()` and `Number(...)` parsing: the id and the parsed prices are parameters, and the random pick is a nondeterministic choice.
- Browser form validation (`required`, `min="1"`, `type="email"`): it runs before the handlers; the model takes the handlers' inputs as given.
- Unicode case mapping: `Text.Lower` only lower-cases ASCII letters.
- The rent/buy tab (`activeTab`), the mobile menu, the seller profile, and the open/close toggles of the modals other than those the modelled handlers set (`OpenListing` models the session-gated "List Item" buttons): presentation state with no decision logic.
- `src/components/LockerDashboard.jsx`, `src/components/SellerModal.jsx` and `src/components/Logo.jsx` only render their inputs. The dashboard shows every rental as ready for pickup with a fixed code, and there is no pickup action, so no rental lifecycle exists to model.
- The listing form's per-field `onChange` edits (src/components/ListingModal.jsx:91-179): plain field assignments. Only the simulated upload is modelled as a separate transition.
- `src/data/*` (the seed catalog and collections) is not part of this model.
