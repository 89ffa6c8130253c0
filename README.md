# Sakila rental client: checkout core in Dafny

The rental client is the point-of-sale front end of a video-rental shop: a
staff member starts a shift at a store, picks a customer, fills a cart with
films and checks the cart out; the backend then records one rental per
physical copy. This project models the logic of that checkout that runs in
the client, and proves what it guarantees.

- **Inventory allocation** (`resolveInventoryIds` in `src/lib/api/sakila.ts`).
  Given the store, the cart lines, the inventory ids of the open rentals the
  client fetched, and each film's inventory units in listing order, the allocator
  walks the cart. It clamps each quantity at zero and skips empty lines.
  For every other line it takes the first `qty` units of that film that are
  at the store, not on an open rental and not already taken by an earlier
  line. If too few are free, the whole call fails naming the film.
  `Inventory.Allocation` is the specification function. `Inventory.AllocateLines`
  is the source's loop, with its reserved set and result list, and is proved
  equal to it; `Inventory.TakeUnits` is the inner loop.
- **Checkout checks** (`checkoutRental`). The three ids are validated first.
  An empty allocation is refused before the commit request. After the commit,
  a reply without rental ids is refused; otherwise the first rental id is the
  invoice id. The commit reply is a parameter of `Inventory.CheckoutRental`.
- **Helpers** of the same file:
  - `parseId`, on top of a model of `Number.parseInt(s, 10)`: white space,
    then an optional sign, then the longest run of digits;
  - `toCustomerName`, on top of `trim` with the ECMAScript white-space set;
  - `filterRentalsByQuery`, on top of ASCII `toLowerCase` and `includes`.
- **The cart of the checkout page** (`src/routes/checkout.tsx`):
  - the Add and Remove updaters;
  - `cartCount` and `cartQtyMap`;
  - the rule that disables a film's Add button;
  - `canSubmit`, and the guard the checkout mutation runs before calling
    `checkoutRental`.

Modules:
- `Results`: Option and Result.
- `Sequences`: two facts about concatenation, used by the order lemmas.
- `JsText`: the JavaScript string and number built-ins used.
- `Sakila`: the errors and the pure helpers.
- `Inventory`: allocation and checkout.
- `Cart`: the checkout page.

A negative quantity is not rejected: `Math.max(qty, 0)` turns it into zero,
so the line is skipped like an empty one (`Inventory.Clamp`,
`Inventory.ZeroLinesAreSkipped`).

## Model

| member | source | states |
|---|---|---|
| JsText.ParseInt | src/lib/api/sakila.ts:133 | `Number.parseInt(s, 10)` yields a number exactly when, after leading white space, the text starts with a digit or a sign followed by a digit; a negative result needs a minus sign there |
| JsText.IntToString | src/lib/api/sakila.ts:374 | `String(id)` is non-empty, starts with a minus sign exactly for negative numbers, and is otherwise all digits |
| JsText.ToLower | src/lib/api/sakila.ts:534 | ASCII `toLowerCase` keeps the length of the text; with `JsText.ToLowerLowers` and `JsText.ToLowerMapsLetters` every character is fixed: a capital becomes its small letter, anything else stays |
| JsText.ToLowerLowers | src/lib/api/sakila.ts:542 | after lower-casing no upper-case letter is left, and every other character is unchanged |
| JsText.LowerCharMapsLetters | src/lib/api/sakila.ts:542 | each of the 26 capital letters becomes its own small letter |
| JsText.ToLowerMapsLetters | src/lib/api/sakila.ts:542 | lower-casing a text turns every capital at every position into the matching small letter |
| JsText.ToLowerIdempotent | src/lib/api/sakila.ts:534 | lower-casing twice is lower-casing once |
| JsText.Trim | src/lib/api/sakila.ts:164 | the trimmed text has no white space at either end and is no longer than the input |
| JsText.TrimKeepsMiddle | src/lib/api/sakila.ts:164 | trim removes only white space: the result is the middle slice of the input, with only white space before and after it |
| JsText.TrimIdempotent | src/lib/api/sakila.ts:534 | trimming twice is trimming once |
| JsText.TrimLowerCommute | src/lib/api/sakila.ts:534 | trimming and ASCII lower-casing commute |
| JsText.Includes | src/lib/api/sakila.ts:543 | `includes` holds exactly when the needle occurs at some index of the text |
| JsText.ParseIntReadsLeadingNumber | src/lib/api/sakila.ts:133 | `parseInt` reads back the integer `String(n)` wrote, whatever non-digit text follows it |
| JsText.ParseIntOfIntToString | src/lib/api/sakila.ts:133 | `parseInt(String(n))` is `n` for every integer, negative ones included |
| JsText.ParseIntWithoutDigits | src/lib/api/sakila.ts:133 | text without a digit parses to NaN |
| Sakila.Message | src/lib/api/sakila.ts:328 | the invalid-id message starts with the field's name, and the insufficient-stock message contains the film id as decimal text |
| Sakila.Status | src/lib/api/sakila.ts:377-379 | the HTTP status is 500 exactly for the missing-rental-ids error, and 400 for every other error |
| Sakila.ParseId | src/lib/api/sakila.ts:132-140 | succeeds exactly when `parseInt` gives a positive number, and returns that number; otherwise fails with the field's invalid-id error |
| Sakila.ParseIdAcceptsPositive | src/lib/api/sakila.ts:132-140 | every positive id written in decimal is accepted as itself, even with non-numeric text after it |
| Sakila.ParseIdRejectsNonPositive | src/lib/api/sakila.ts:135-137 | zero and negative numbers are refused with the field's error |
| Sakila.ParseIdRejectsDigitless | src/lib/api/sakila.ts:133-137 | text without a digit is refused with the field's error |
| Sakila.ToCustomerName | src/lib/api/sakila.ts:163-165 | the display name has no white space at either end and is at most first + 1 + last characters long |
| Sakila.JoinsTrimmedNames | src/lib/api/sakila.ts:163-165 | two non-empty names without padding are joined by exactly one space |
| Sakila.EmptyLastName | src/lib/api/sakila.ts:163-165 | an empty last name leaves the first name alone, without a trailing space |
| Sakila.NormalizeQuery | src/lib/api/sakila.ts:534 | the normalised query is the lower-cased query with its surrounding white space trimmed; it has no white space at either end, is already lower case, and is no longer than the query |
| Sakila.KeepMatching | src/lib/api/sakila.ts:540-544 | keeps exactly the rentals whose lower-cased id, title and customer name contain the query |
| Sakila.KeepMatchingConcat | src/lib/api/sakila.ts:540-544 | the filter works rental by rental: filtering a concatenation is concatenating the filtered parts, so order and repeats are kept |
| Sakila.FilterRentalsByQuery | src/lib/api/sakila.ts:533-545 | a blank query returns the list unchanged; otherwise the result is the rental-by-rental filter by the normalised query, in list order, and a rental is kept exactly when it matches |
| Sakila.FilterIdempotent | src/lib/api/sakila.ts:533-545 | searching a search result again with the same query changes nothing |
| Sakila.QueryIsNormalized | src/lib/api/sakila.ts:534 | upper-case letters and surrounding white space in the query do not change the result |
| Sakila.FindsRentalById | src/lib/api/sakila.ts:540-544 | searching for a rental's own numeric id always finds that rental |
| Inventory.Clamp | src/lib/api/sakila.ts:315 | `Math.max(qty, 0)`: zero exactly for non-positive quantities, the quantity itself otherwise |
| Inventory.UnitsOf | src/lib/api/sakila.ts:321 | a listed film gives back its whole listing, in order; a film without a listing has no units |
| Inventory.Available | src/lib/api/sakila.ts:321-325 | a unit stays exactly when it is listed for the film, is at the store, is not on an open rental and is not reserved |
| Inventory.AvailableOfOne | src/lib/api/sakila.ts:322-325 | a single unit stays exactly when it is at the store, not on an open rental and not reserved |
| Inventory.AvailableConcat | src/lib/api/sakila.ts:322-325 | the three filters work unit by unit: filtering a concatenation is concatenating the filtered parts, so listing order and repeats are kept |
| Inventory.Allocation | src/lib/api/sakila.ts:313-340 | the cart walk can only fail with an insufficient-stock error |
| Inventory.Allocate | src/lib/api/sakila.ts:313-340 | a successful allocation holds one id per requested copy, the sum of the clamped quantities; a failure names the film of a cart line that asked for a positive quantity |
| Inventory.Resolution | src/lib/api/sakila.ts:292 | a bad film id fails with the film-id error before any allocation; otherwise the result is the allocation of the parsed lines against the open rentals, one id per requested copy |
| Inventory.ParseCart | src/lib/api/sakila.ts:292 | every film id is validated before anything else; success exactly when all parse, one line per cart entry, else the film-id error |
| Inventory.AllocationLength | src/lib/api/sakila.ts:313-337 | a successful allocation has exactly the sum of the clamped quantities as length, after what was allocated before |
| Inventory.FailureNamesCartFilm | src/lib/api/sakila.ts:327-331 | a failure is always insufficient stock for the film of a cart line that asked for a positive quantity |
| Inventory.TakeUnits | src/lib/api/sakila.ts:333-337 | the inner loop reserves the first `qty` free units and appends their ids in listing order |
| Inventory.AllocateLines | src/lib/api/sakila.ts:307-340 | the loop with its reserved set and result list computes the specified allocation |
| Inventory.ResolveInventoryIds | src/lib/api/sakila.ts:304-340 | validating the cart and then running the loop gives the specified resolution |
| Inventory.AvailableKeepsIdsDistinct | src/lib/api/sakila.ts:322-325 | filtering a listing with distinct ids keeps them distinct |
| Inventory.AvailableShrinks | src/lib/api/sakila.ts:325 | reserving more ids never frees more units |
| Inventory.AllocationNeverDoubleBooks | src/lib/api/sakila.ts:325-335 | no inventory id is allocated twice, within a line or across lines, when each listing names a unit once |
| Inventory.AllocationDrawsFromStore | src/lib/api/sakila.ts:322-324 | every allocated id is a unit of a cart film, at the requested store, and not on an open rental |
| Inventory.PositiveLines | src/lib/api/sakila.ts:315-319 | keeps exactly the lines with a positive quantity, is no longer than the cart, and keeps none when every quantity is non-positive |
| Inventory.PositiveLinesConcat | src/lib/api/sakila.ts:315-319 | skipping works line by line: the kept lines stay in cart order, repeats included |
| Inventory.ZeroLinesAreSkipped | src/lib/api/sakila.ts:315-319 | dropping every line with a non-positive quantity does not change the outcome: they add, reserve and fail nothing |
| Inventory.AllZeroCartAllocatesNothing | src/lib/api/sakila.ts:315-319 | a cart whose quantities are all zero or negative allocates nothing and never fails |
| Inventory.ShortLineFails | src/lib/api/sakila.ts:313-331 | a line asking for more units than its film has free at the store makes the whole call fail, naming the film of that line or of an earlier line with a positive quantity |
| Inventory.EmptyAllocationMeansNothingAsked | src/lib/api/sakila.ts:315-337 | a successful allocation is empty exactly when no line asked for a positive quantity |
| Inventory.FirstLineTakesFrontUnits | src/lib/api/sakila.ts:333-337 | the first positive line takes the front units of its film's free list, in listing order, right after the earlier result |
| Inventory.ExampleTwoCopiesFromOneStore | src/lib/api/sakila.ts:322-323 | two copies at store 1 serve a line for two; the copy at store 2 is not used |
| Inventory.ExampleOpenRentalCausesShortage | src/lib/api/sakila.ts:324-331 | a copy out on an open rental leaves too few, and the call fails naming the film |
| Inventory.ExampleZeroLineSkipped | src/lib/api/sakila.ts:317-319 | a zero line before a real one is skipped |
| Inventory.ExampleRepeatedFilmTakesNextUnit | src/lib/api/sakila.ts:325-335 | two lines for the same film get different copies |
| Inventory.ExampleRepeatedListingEntry | src/lib/api/sakila.ts:333-337 | a listing that names one unit twice makes one line take that unit twice |
| Inventory.RequireAllocation | src/lib/api/sakila.ts:360-362 | an empty allocation is refused as an empty cart, and any other allocation passes unchanged |
| Inventory.RentalIdStrings | src/lib/api/sakila.ts:374 | each rental id becomes its decimal text, in order |
| Inventory.ReceiptFromReply | src/lib/api/sakila.ts:374-387 | fails exactly when the reply has no rental ids or an empty list; otherwise the receipt lists every id as text, the invoice is the first, and the message defaults |
| Inventory.InvoiceIdIsFirstRental | src/lib/api/sakila.ts:385 | the invoice id parses back to the first rental id of the reply |
| Inventory.CommitFor | src/lib/api/sakila.ts:354-372 | the commit is requested exactly when all three ids parse and the cart's resolution at the parsed store succeeds with a non-empty list; it then posts the parsed customer, staff and store ids and exactly that list |
| Inventory.EmptyCartMeansNothingAsked | src/lib/api/sakila.ts:358-362 | with valid ids and film ids, the empty-cart error occurs exactly when no line asks for a positive quantity |
| Inventory.CheckoutRental | src/lib/api/sakila.ts:343-388 | the commit is sent exactly when all pre-commit checks pass, and the outcome is then the reply check, otherwise the first failing check |
| Cart.Find | src/routes/checkout.tsx:273 | finds a line exactly when the cart has a line for the film, and the line found is for that film |
| Cart.FindIsFirst | src/routes/checkout.tsx:273 | the line found is the first line for the film |
| Cart.AddToCart | src/routes/checkout.tsx:272-287 | a new film is appended with one copy; otherwise only that film's line changes, to one more copy capped at the stock, and nothing else changes |
| Cart.RemoveFromCart | src/routes/checkout.tsx:206 | keeps exactly the lines for other films, and no line for the film remains |
| Cart.RemoveAbsent | src/routes/checkout.tsx:206 | removing a film the cart does not hold changes nothing |
| Cart.RemoveConcat | src/routes/checkout.tsx:206 | removal works line by line, so the remaining lines keep their order |
| Cart.RemoveUndoesAdd | src/routes/checkout.tsx:272-287 | removing a film after adding it gives what removing it alone gives |
| Cart.RemoveAfterAddingNewFilm | src/routes/checkout.tsx:286 | adding a new film and removing it again gives back the cart |
| Cart.AddKeepsFilmsUnique | src/routes/checkout.tsx:273-286 | Add keeps at most one line per film |
| Cart.RemoveKeepsFilmsUnique | src/routes/checkout.tsx:206 | Remove keeps at most one line per film |
| Cart.Reduce | src/routes/checkout.tsx:125 | the left fold adds the cart's total quantity to its start value |
| Cart.CartCount | src/routes/checkout.tsx:124-127 | the count is the sum of the line quantities, and not negative when no quantity is |
| Cart.CartQtyMap | src/routes/checkout.tsx:128-131 | the map has a key exactly for the films in the cart |
| Cart.CartQtyOf | src/routes/checkout.tsx:245 | `cartQtyMap[film.id] ?? 0`: a film without a line counts as zero copies |
| Cart.CartQtyOfUnique | src/routes/checkout.tsx:128-131 | with one line per film, each film maps to its line's quantity |
| Cart.CartQtyOfLastLine | src/routes/checkout.tsx:129 | with repeated lines, the last line for a film decides its quantity |
| Cart.AddDisabled | src/routes/checkout.tsx:246-248 | Add is enabled exactly when stock is positive and the cart holds fewer copies than the stock |
| Cart.EnabledAddAddsOneCopy | src/routes/checkout.tsx:244-287 | pressing an enabled Add adds exactly one copy within the stock, raises the count by one and keeps one line per film |
| Cart.AddNeverExceedsStock | src/routes/checkout.tsx:280 | no line for the film ends above the available stock after Add, even a line that was above it before |
| Cart.RemoveSubtractsQty | src/routes/checkout.tsx:206 | Remove lowers the count by the film's quantity and clears it from the map |
| Cart.CanSubmit | src/routes/checkout.tsx:133-139 | Submit is enabled exactly when a customer is selected, the cart has a line, store and staff ids are non-empty and nothing is pending |
| Cart.ToRequests | src/routes/checkout.tsx:97 | the API cart carries each line's film id and quantity, in order |
| Cart.CheckoutRequest | src/routes/checkout.tsx:85-98 | the mutation refuses without a customer or an active shift, and otherwise passes the customer, staff, store and cart through |
| Cart.SubmitPassesGuard | src/routes/checkout.tsx:133-139 | whenever Submit is enabled, the mutation's guard lets the checkout through with a non-empty cart |
| Cart.AllocationMatchesCartCount | src/routes/checkout.tsx:93-98 | a successful checkout allocates as many copies as the cart's item count |

## Left out

- Network I/O is not modelled: `requestApi`, `requestData`, the `ky` client and the error-envelope decoding in `src/lib/api/client.ts`.
- The open rentals and the inventory listings are each fetched as one page of at most `MAX_LIMIT` = 100 rows (src/lib/api/sakila.ts:130, 270-277, 280-285). The model takes whatever was fetched as given. So "not on an open rental" in `Inventory.AllocationDrawsFromStore` covers only the rentals on that page, and a film's units beyond the first 100 are never offered.
- The concurrent `Promise.all` fetches of open rentals and inventories are not modelled. Their results are parameters: a sequence of open-rental inventory ids, and a map from film id to units in listing order.
- Inventory.ResolveInventoryIds: the film ids are parsed once, by `ParseCart`, and the loop reuses them. The source parses each id a second time inside the loop, which gives the same value.
- Inventory.CommitReply: a missing `data` and a missing `rental_ids` both become None.
- Dates and late status (`addDays`, `formatDueDate`, `isLate`) and the `rental_duration || 3` default are not modelled. They depend on JavaScript `Date`, the time zone and the clock.
- Payments are not modelled; their amounts are floating point.
- Browser storage, the zustand store and the React contexts are not modelled.
- The unused mock backend (`src/lib/mock-api.ts`) is not modelled.
- Routing, JSX rendering, query caching and debouncing are not modelled.
- Quantities are integers. A fractional or NaN `qty` from JavaScript is not modelled.
- JsText.ParseInt: reads exact integers. The loss of precision above 2^53 and the `Infinity` case of JavaScript numbers are not modelled.
- JsText.IntToString: writes every integer in plain decimal. JavaScript's exponent notation from 1e21 up is not modelled.
- JsText.ToLower: maps only ASCII letters. The Unicode case mapping of `toLowerCase` is not modelled.
- Inventory.AllocationNeverDoubleBooks: assumes each film's listing names a unit at most once. The allocator itself does not check this, as `Inventory.ExampleRepeatedListingEntry` shows.
- Cart.EnabledAddAddsOneCopy: assumes the cart holds at most one line per film. The Add and Remove updaters keep that property (`Cart.AddKeepsFilmsUnique`, `Cart.RemoveKeepsFilmsUnique`).
- The stock figures on the checkout page come from an availability query and are a parameter of `Cart.AddToCart` and `Cart.AddDisabled`.
