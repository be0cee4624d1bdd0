# Fuel Express: order store, auth store and page rules in Dafny

Fuel Express is a small fuel-delivery ordering web application. It keeps everything in
browser local storage: an order collection with an ownership check on every update,
a user table with a single session slot, and a few page-level rules (an order search
filter, local list updates after paying or cancelling, the buttons of the order dialog,
and the guards on the login and signup forms). This project models that logic and
proves what it promises.

Modules, one per source file plus three shared ones:

- `Common` (common.dfy): `Option`, `Result`, `Outcome` and `Timestamp` (milliseconds).
- `Seqs` (seqs.dfy): `Filter`, `FirstIndex` and subsequences. These are the
  `Array.prototype` methods the source relies on.
- `Text` (text.dfy): ASCII lower-casing, `includes`, JavaScript's `trim` and the UTF-16
  `length`.
- `OrderService` (order_service.dfy): src/services/orderService.ts. Each operation has a pure
  rule (`NewOrder`, `UserOrders`, `UpdateStatusStep`, `PayStep`). The `OrderStore` class
  holds the `fuelOrders` slot as a `seq<Order>` field. Its methods load the collection, change
  their copy, and write it back. Each method is proved equal to its rule.
- `AuthContext` (auth_context.dfy): src/contexts/AuthContext.tsx. The pure transitions
  `RestoreStep`, `LoginStep`, `SignupStep` and `LogoutStep` work over an `AuthState`. The
  `AuthStore` class holds the `users` and `currentUser` slots and the `currentUser` and
  `isLoading` state. Its methods update these step by step and are proved against the
  transitions.
- `OrderHistory` (order_history.dfy): src/pages/OrderHistory.tsx. It holds the search filter,
  the local `map` updates and the dialog gating as functions. The `OrderHistoryPage` class holds
  the page's state. Its handlers call an `OrderStore`.
- `LoginPage` (login.dfy): src/pages/Login.tsx. The guard chains are validators that return
  the first failing guard. The submit handlers call an `AuthStore`.

Modelling choices:

- Money is in cents and quantity in whole litres. For a whole number of litres,
  `parseFloat((price * quantity).toFixed(2))` is the exact product in cents for the form's
  quantities (whole litres from 1 to 50, src/pages/OrderForm.tsx:143-147).
- Ids and clock readings are parameters. `createOrder` reads the clock twice, once for
  `createdAt` and once for `updatedAt`, so it takes two timestamps.
- The `currentUser` slot is one of four cases: missing, the empty string, text that does not
  parse, or a saved user. The code skips the empty string because it is falsy, and only
  removes the slot when parsing throws.
- React runs the search effect whenever `orders` changes. The order history handlers therefore
  end with `ApplySearch`, which is that effect.

## Model

| member | source | states |
|---|---|---|
| `OrderService.UnitPrice` | src/services/orderService.ts:37-43 | petrol costs 150, diesel 130 and premium 180 cents per litre; any other fuel type costs 150 |
| `OrderService.CalculatePrice` | src/services/orderService.ts:36-45 | the total is never negative for a non-negative quantity, and a fuel type outside the table is charged the default price times the quantity |
| `OrderService.TenLitresOfPetrol` | src/services/orderService.ts:36-45 | 10 litres of petrol cost 1500 cents |
| `OrderService.UnknownFuelPricedAsPetrol` | src/services/orderService.ts:43 | a fuel type the table does not name is priced exactly like petrol |
| `OrderService.CalculatePriceAsWritten` | src/services/orderService.ts:37-44 | the lookup as written gives NaN for every key inherited from Object.prototype |
| `OrderService.ConstructorFuelIsNaN` | src/services/orderService.ts:43-44 | fuel type "constructor" prices as NaN as written, and as 1500 cents for 10 litres after correction |
| `OrderService.AsWrittenAgreesElsewhere` | src/services/orderService.ts:43-44 | outside the inherited keys, the code as written and the corrected price agree |
| `OrderService.NewOrder` | src/services/orderService.ts:53-66 | a new order is pending and unpaid; owner, fuel type, quantity and address are copied; the total is the corrected `CalculatePrice`, so the Object.prototype names price at 150 cents per litre instead of NaN |
| `OrderService.OrderStore.CreateOrder` | src/services/orderService.ts:48-73 | returns the new order and appends exactly it to the end of the collection (priced by the corrected `CalculatePrice`) |
| `OrderService.SortNewestFirst` | src/services/orderService.ts:90 | the result never increases in `createdAt` and is a permutation of the input |
| `OrderService.UserOrders` | src/services/orderService.ts:86-90 | newest first; a permutation of the user's filtered orders; an order is listed iff it is stored with exactly that `userId` |
| `OrderService.UserOrdersCount` | src/services/orderService.ts:88-89 | each listed order appears as many times as it is stored for that user, and orders of other users never appear |
| `OrderService.TwoUsersSeparate` | src/services/orderService.ts:87-89 | when two users each have one order, each user's listing is exactly their own order |
| `OrderService.OrderStore.GetUserOrders` | src/services/orderService.ts:81-90 | returns the user's listing and changes nothing |
| `OrderService.OrderStore.constructor` | src/services/orderService.ts:25-28 | the store starts holding the orders saved in the `fuelOrders` slot |
| `OrderService.ErrorMessage` | src/services/orderService.ts:111-149 | each service error has a non-empty message |
| `OrderService.ErrorToastShowsMessage` | src/services/orderService.ts:129-163 | the catch blocks show the thrown message rather than their fallback, and the two errors have different messages |
| `OrderService.Authorize` | src/services/orderService.ts:107-117 | "not found" iff no order has the id; "unauthorized" iff the first order with the id has another owner; otherwise that first slot |
| `OrderService.ChangeOwned` | src/services/orderService.ts:107-127 | on error the collection is unchanged; on success only the first slot with the id changes and the length is kept |
| `OrderService.UpdateStatusStep` | src/services/orderService.ts:107-127 | on success the first owned slot gets the new status and timestamp, and every other field and order stays the same |
| `OrderService.PayStep` | src/services/orderService.ts:140-161 | on success the first owned slot becomes paid and processing with a new timestamp, whatever its prior status; nothing else changes |
| `OrderService.PayReopensCancelled` | src/services/orderService.ts:152-157 | paying for a cancelled order succeeds and sets it to processing |
| `OrderService.CreateShowsToOwner` | src/services/orderService.ts:68-70 | after a create, the new order is in its owner's listing |
| `OrderService.CreateHiddenFromOthers` | src/services/orderService.ts:68-70 | after a create, every other user's listing is unchanged |
| `OrderService.ChangeHiddenFromOthers` | src/services/orderService.ts:115-123 | changing an owned order keeps the owner, so no other user's listing changes |
| `OrderService.UpdatesHiddenFromOthers` | src/services/orderService.ts:148-157 | a status update or a payment never changes another user's listing |
| `OrderService.OrderStore.UpdateOrderStatus` | src/services/orderService.ts:98-131 | returns the result of `UpdateStatusStep` and stores its collection; it writes nothing on an error |
| `OrderService.OrderStore.PayForOrder` | src/services/orderService.ts:135-165 | returns the result of `PayStep` and stores its collection; it writes nothing on an error |
| `Seqs.Filter` | src/services/orderService.ts:89 | no longer than the input, and every kept element satisfies the predicate |
| `Seqs.FilterMembership` | src/services/orderService.ts:89 | an element is kept iff it is in the input and satisfies the predicate |
| `Seqs.FilterCount` | src/services/orderService.ts:89 | every copy of a satisfying element is kept, and no copy of any other |
| `Seqs.FirstIndex` | src/services/orderService.ts:108 | the least index whose element satisfies the predicate, or none iff no element does |
| `Seqs.FilterIsSubsequence` | src/pages/OrderHistory.tsx:69-73 | the filtered sequence keeps the input's order |
| `Text.LowerChar` | src/pages/OrderHistory.tsx:68 | ASCII capitals map to their lower-case letters; every other character is unchanged |
| `Text.Lower` | src/pages/OrderHistory.tsx:68 | keeps the length, and lower-cases every position |
| `Text.IncludesIffOccurs` | src/pages/OrderHistory.tsx:70-72 | `includes` holds iff the needle occurs at some position |
| `Text.TrimEmptyIffBlank` | src/pages/OrderHistory.tsx:63 | a string trims to empty iff every character is JavaScript white space |
| `Text.Utf16Length` | src/pages/Login.tsx:64 | the length counts UTF-16 code units, at least one per character |
| `Text.Utf16LengthOfBmp` | src/pages/Login.tsx:64 | inside the Basic Multilingual Plane, the length is the number of characters |
| `AuthContext.ErrorMessage` | src/contexts/AuthContext.tsx:68-101 | each provider error has a non-empty message |
| `AuthContext.ErrorToastShowsMessage` | src/contexts/AuthContext.tsx:82-130 | the catch blocks show the thrown message rather than their fallback, and the two errors have different messages |
| `AuthContext.Initial` | src/contexts/AuthContext.tsx:34-35 | the provider mounts with no user and loading |
| `AuthContext.RestoreStep` | src/contexts/AuthContext.tsx:37-49 | a saved user becomes current; a malformed slot is removed; a missing or blank slot is left alone; loading ends; slot and state then agree |
| `AuthContext.LoginStep` | src/contexts/AuthContext.tsx:53-87 | succeeds iff some record matches both email and password; the session becomes the first match, sanitized; a failure leaves the session unchanged; loading ends |
| `AuthContext.SignupStep` | src/contexts/AuthContext.tsx:89-135 | fails iff the email is already present, and then only with "email exists"; a failure changes nothing; a success appends a single record and signs in its sanitized user; distinct emails stay distinct |
| `AuthContext.LogoutStep` | src/contexts/AuthContext.tsx:137-141 | no current user and an empty slot, the table unchanged |
| `AuthContext.SignupThenLogin` | src/contexts/AuthContext.tsx:100-115 | after a successful signup, a login with the same email and password succeeds as the new user |
| `AuthContext.SecondSignupRefused` | src/contexts/AuthContext.tsx:100-102 | a second signup with the same email fails with the duplicate-email error |
| `AuthContext.AuthStore.constructor` | src/contexts/AuthContext.tsx:33-35 | the store starts in the mount state over the saved slots |
| `AuthContext.AuthStore.Restore` | src/contexts/AuthContext.tsx:37-49 | the mount effect follows `RestoreStep` |
| `AuthContext.AuthStore.Login` | src/contexts/AuthContext.tsx:53-87 | returns the outcome and leaves the state of `LoginStep` |
| `AuthContext.AuthStore.Signup` | src/contexts/AuthContext.tsx:89-135 | returns the outcome and leaves the state of `SignupStep` |
| `AuthContext.AuthStore.Logout` | src/contexts/AuthContext.tsx:137-141 | leaves the state of `LogoutStep` |
| `AuthContext.SignupThenLoginAgain` | src/contexts/AuthContext.tsx:63-79 | a client that signs up, logs out and logs in again is signed in as the new user whenever the signup succeeded |
| `OrderHistory.SearchFilter` | src/pages/OrderHistory.tsx:62-76 | a blank query gives the whole list; otherwise an order is kept iff the lower-cased query occurs in its lower-cased fuel type, address or status, as many times as it is stored; always an order-preserving subsequence |
| `OrderHistory.SpacesShowEverything` | src/pages/OrderHistory.tsx:63-66 | a query of spaces shows every order |
| `OrderHistory.UpperCaseQueryFindsPetrol` | src/pages/OrderHistory.tsx:68-70 | "PETROL" finds a petrol order |
| `OrderHistory.MapById` | src/pages/OrderHistory.tsx:102-111 | the length is kept; orders with the id are rewritten, all others are identical |
| `OrderHistory.AfterLocalPay` | src/pages/OrderHistory.tsx:102-111 | exactly the orders with the paid id become paid and processing, every other field of theirs and every other order unchanged |
| `OrderHistory.AfterLocalCancel` | src/pages/OrderHistory.tsx:140-148 | exactly the orders with the id become cancelled, every other field and order unchanged |
| `OrderHistory.LocalUpdatesIdempotent` | src/pages/OrderHistory.tsx:102-148 | applying a local pay or cancel twice equals applying it once |
| `OrderHistory.LocalPayMirrorsService` | src/pages/OrderHistory.tsx:99-111 | the local paid copy equals the service's stored record except `updatedAt` |
| `OrderHistory.LocalCancelMirrorsService` | src/pages/OrderHistory.tsx:137-148 | the local cancelled copy equals the service's stored record except `updatedAt` |
| `OrderHistory.DialogActions` | src/pages/OrderHistory.tsx:350-405 | exactly one footer group shows: Cancel and Pay iff pending and unpaid; Cancel alone iff pending and paid; Close iff not pending |
| `OrderHistory.DialogOffers` | src/pages/OrderHistory.tsx:351-398 | Cancel is offered iff the order is pending; Pay iff it is pending and unpaid; Close never appears beside either |
| `OrderHistory.LocalUpdatesOnlyClose` | src/pages/OrderHistory.tsx:102-157 | after a local pay or cancel, that order's dialog offers only Close |
| `OrderHistory.Reselect` | src/pages/OrderHistory.tsx:116-122 | a selection with the id becomes its changed copy, any other selection is kept, and it is never cleared |
| `OrderHistory.OrderHistoryPage.constructor` | src/pages/OrderHistory.tsx:34-41 | the page mounts with empty lists, loading, an empty query, no selection, the dialog closed and no handler running |
| `OrderHistory.OrderHistoryPage.ApplySearch` | src/pages/OrderHistory.tsx:62-76 | the shown list becomes `SearchFilter` of the list and the query |
| `OrderHistory.OrderHistoryPage.SetSearchQuery` | src/pages/OrderHistory.tsx:191-196 | stores the query and refilters |
| `OrderHistory.OrderHistoryPage.FetchOrders` | src/pages/OrderHistory.tsx:43-60 | with no user nothing changes; otherwise the list is the user's listing and loading ends |
| `OrderHistory.OrderHistoryPage.ViewDetails` | src/pages/OrderHistory.tsx:78-81 | selects the order and opens the dialog |
| `OrderHistory.OrderHistoryPage.ShowLocalUpdate` | src/pages/OrderHistory.tsx:102-124 | rewrites the list and the selection by id, closes the dialog and refilters |
| `OrderHistory.OrderHistoryPage.HandlePayment` | src/pages/OrderHistory.tsx:94-130 | the store follows `PayStep`; only on success does the list become `AfterLocalPay` and the dialog close; on failure the page keeps its list, selection and dialog |
| `OrderHistory.OrderHistoryPage.HandleCancelOrder` | src/pages/OrderHistory.tsx:132-166 | the store follows a status update to cancelled; only on success does the list become `AfterLocalCancel`; on failure the page is unchanged |
| `LoginPage.FormErrorMessage` | src/pages/Login.tsx:40-65 | each guard's toast is non-empty |
| `LoginPage.FormErrorMessagesDistinct` | src/pages/Login.tsx:40-65 | different guards show different toasts |
| `LoginPage.ValidateLogin` | src/pages/Login.tsx:39-42 | passes iff both email and password are non-empty; otherwise "fill in all fields" |
| `LoginPage.ValidateSignup` | src/pages/Login.tsx:54-67 | any empty field gives "fill in all fields" first, then a mismatch gives "do not match", then fewer than 6 code units gives "too short"; passes iff all three guards pass |
| `LoginPage.SixCharactersIsEnough` | src/pages/Login.tsx:64-67 | a 5-character password is refused and a 6-character one passes |
| `LoginPage.LongEnoughPasswordPasses` | src/pages/Login.tsx:64-67 | any confirmed BMP password of six or more characters passes |
| `LoginPage.HandleLogin` | src/pages/Login.tsx:37-50 | a failed guard reports its error, skips `login` and does not navigate; otherwise the provider follows `LoginStep`, and the page navigates iff it succeeded |
| `LoginPage.HandleSignup` | src/pages/Login.tsx:52-75 | a failed guard reports its error, skips `signup` and does not navigate; otherwise the provider follows `SignupStep`, and the page navigates iff it succeeded |

## Left out

- Local storage, `JSON.parse` and `JSON.stringify` are not modelled. Each slot is a field
  holding already parsed records. A `users` or `fuelOrders` slot that fails to parse (the
  source then throws from inside the operation) is not modelled. Neither is a session slot
  holding valid JSON that is not a user.
- Toasts, `console.error`, the simulated `setTimeout` delays and `navigate` are not modelled.
  Navigation is a returned flag.
- The redirect effect of src/pages/Login.tsx:31-35 is not modelled. It navigates home whenever
  a user is signed in.
- `Date.now()`, `Math.random()` and `new Date().toISOString()` are parameters. Timestamps are
  integers. Unparseable dates, which `getTime()` turns into NaN, are not modelled.
- `CalculatePrice`: quantity is a whole number of litres, so fractional litres and the
  floating-point rounding of `toFixed(2)` are not modelled.
- `Text.Lower`: lower-cases ASCII only. JavaScript's `toLowerCase` also maps non-ASCII letters.
- `SortNewestFirst`: the result is stable, as JavaScript's sort is, but no lemma states this.
  The proved contract is order and permutation only.
- `isLoading` is set and cleared inside one call, so the model states only its final value.
  There is no concurrency, so the interleavings of two calls are outside the model.
- `isPaymentProcessing` and `isCancelling` are cleared at the end of each handler. The
  disabled state they give the buttons is rendering and is not modelled.
- The other files of the repository are not part of this model. They contain only rendering,
  simulated payment screens and hard-coded station prices. The order form prices through a
  `getFuelPrices` that is not defined in the order service shown.

## Findings

| source | as written | input that shows it | evidently intended | confidence | as-written member | corrected member |
|---|---|---|---|---|---|---|
| src/services/orderService.ts:43 | `pricePerLiter[fuelType] \|\| 1.5` looks the fuel type up as a property of a plain object. Keys inherited from Object.prototype find a function or an object, which is truthy, so the fallback is skipped and the price is NaN | fuel type `"constructor"`, 10 litres | every fuel type outside the table falls back to 1.5 per litre | not executed | `OrderService.CalculatePriceAsWritten` (with `OrderService.ConstructorFuelIsNaN`) | `OrderService.CalculatePrice` (with `OrderService.UnknownFuelPricedAsPetrol`) |
