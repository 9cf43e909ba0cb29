# jkart1 checkout and admin routes, modelled in Dafny

This project models the server core of the jkart1 multi-seller shop.

- **Checkout** (`POST /api/orders`):
  - checks the caller and the request body;
  - validates an optional coupon;
  - prices every cart line from the catalogue and groups the lines by the store that owns each product;
  - writes one order per store, each with its rounded total;
  - then opens a card-payment session or empties the shopper's cart.
- **Order listing** (`GET /api/orders`): shows the shopper's cash-on-delivery orders and paid card orders.
- **Admin coupon table** (`/api/admin/coupon`): add, delete and list coupons.
- **Admin store approval** (`/api/admin/approve-store`): approve or reject a store, and list the stores awaiting review.
- **Admin check** (`authAdmin`): the test the admin routes rely on.
- **Client rating store** (`ratingSlice`).
- **Seller product route** (`/api/product`): the validator and product record for `POST`, the store filter for `GET`.

## How the model is organised

| file | module | models |
|---|---|---|
| `js.dfy` | `Js` | optional values, string truthiness, ASCII `toUpperCase`, `split`/`join` on one character |
| `money.dfy` | `Money` | `parseFloat(x.toFixed(2))` as `Round2` (round to cents, halves away from zero) and `Math.round` |
| `entities.dfy` | `Entities` | the database rows: coupon, product, order, order line, store, cart |
| `grouping.dfy` | `Grouping` | the group-by-store loop (`GroupByStore`), its specification `GroupSpec`, partition and subtotal lemmas |
| `orders.dfy` | `Orders` | the `Database` class; `PlaceOrder` is proved to implement the pure `Checkout` function; the `GET` filter |
| `orders_props.dfy` | `CheckoutProperties` | what the checkout guarantees, proved about `Checkout` |
| `coupons.dfy` | `CouponAdmin` | the coupon table as a class; each handler is proved against a specification function |
| `approve_store.dfy` | `StoreApproval` | the stores table as a class; the status transition and the review list |
| `ratings.dfy` | `RatingSlice` | the slice state as a class, with its reducers and a replay of dispatched actions |
| `auth_admin.dfy` | `AuthAdmin` | `authAdmin` as a pure function of the identity lookup and the `ADMIN_EMAIL` value |
| `products.dfy` | `ProductRoute` | `Number(...)` on form text, the required-field gate, the product record, the `GET` filter |

### Modelling decisions

- **Database tables.** The database is a class with `map`/`seq` fields. Each operation runs as a method that updates those fields.
- **Order ids.** The database generates order ids; here an order's id is its position in the orders table.
- **Newest first.** "Newest first" in `GET /api/orders` is the reverse of the order in which rows were written.
- **Money.** Money is an exact `real`. The two roundings the checkout performs are written out explicitly.
- **Foreign services become inputs.** The caller's identity, the plus-plan flag and the seller's store id are inputs. So are the identity lookup for `authAdmin`, the `ADMIN_EMAIL` value, whether the event service accepted an event, whether the payment gateway created a card-payment session, and the image-upload function.
- **What the code does at checkout:**
  - A checkout with missing details answers **401**, as the code does.
  - At checkout, a coupon's expiry date is **not** checked; the code has no such check.
  - The orders of one checkout are written **one at a time**, not in a transaction. So when clearing the cart fails because the user row is missing, the response is an error but the orders stay written. `Settlement` and `CashOnDeliveryClearsCart` state this.

## Model

| member | source | states |
|---|---|---|
| Orders.Database.PlaceOrder | app/api/orders/route.js:11-229 | the handler's response and its new order and cart tables are exactly `Checkout` of the tables before it; it never changes the catalogue or the coupons |
| Orders.Checkout | app/api/orders/route.js:11-229 | the specification of `POST /api/orders` as a function of the tables: the guards in the handler's order, then the grouping, then `Settlement` of the orders `NewOrders` builds; what it guarantees is stated by the `CheckoutProperties` lemmas |
| Orders.Settlement | app/api/orders/route.js:113-213 | the specification of what follows the grouping: the new orders are appended; a card payment answers the session (or a 400 when the gateway creates none) with the carts untouched; cash on delivery empties the shopper's cart or answers a 400 when there is no user row, keeping the orders |
| Orders.CheckCoupon | app/api/orders/route.js:44-89 | the coupon guards as a function: upper-cased lookup, then the new-user rule, then the members-only rule; pinned down by `CouponRules` |
| Orders.PriorOrders | app/api/orders/route.js:63-66 | the number of the shopper's orders already in the table, which the new-user rule compares with 0 |
| Orders.OrderFor | app/api/orders/route.js:121-167 | the order written for the store at one position: its fields and its rounded total are stated by `OrdersOfStoreMap` and `OrdersArePriced` |
| Orders.NewOrders | app/api/orders/route.js:121-167 | the orders of one checkout, one per store key in key order; `CreateStoreOrders` is proved to append exactly these |
| Orders.VisibleOrders | app/api/orders/route.js:245-257 | the shopper's listed orders, newest first; stated by `ListedExactly`, `ListedNewestFirst` and `VisibleIdsBelow` |
| Orders.ListOrders | app/api/orders/route.js:236-259 | `GET /api/orders`: 401 without a user, otherwise `VisibleOrders` of the table |
| Orders.Database.Settle | app/api/orders/route.js:113-213 | once the cart is grouped, the orders are appended in store order; then a card payment opens a session for the rounded sum (a 400 with the orders kept when the gateway creates none), or the shopper's cart is emptied (a 400 with the orders kept when there is no user row) |
| Orders.Database.CreateStoreOrders | app/api/orders/route.js:113-170 | the per-store loop appends exactly one order per key of the store map, in key order; `orderIds` lists their ids and `fullAmount` is the sum of their rounded totals; no other table changes |
| Orders.Database.StoreOrder | app/api/orders/route.js:121-167 | the order written for a store carries its lines, the shopper, the address, the payment method, the coupon snapshot, unpaid, and the rounded discounted total plus the fee when the store is the first one |
| Orders.Database.PriceStore | app/api/orders/route.js:122-137 | a store's raw total is the sum of price times quantity, less the coupon percentage, plus 5 when the fee applies |
| Grouping.GroupSpec | app/api/orders/route.js:94-111 | the reference grouping, built independently of the loop: the distinct stores of the cart in first-encounter order, each mapped to its priced lines; stated by `GroupSpecWellFormed`, `GroupSpecGroups` and `GroupingIsPartition` |
| Grouping.GroupByStore | app/api/orders/route.js:94-111 | the grouping loop fails exactly when some cart line names no catalogue product, and otherwise yields `GroupSpec`: distinct stores in first-encounter order, each with its priced lines |
| Grouping.GroupKeys | app/api/orders/route.js:94-105 | group keys are distinct, every cart line's store is a key, every key is the store of some cart line, and keys are ordered by first occurrence in the cart |
| Grouping.GroupSpecWellFormed | app/api/orders/route.js:103-105 | the grouping's keys are distinct and are exactly the keys that have entries |
| Grouping.GroupSpecGroups | app/api/orders/route.js:94-111 | the grouping satisfies `GroupedBy`: distinct keys, each key's entry is the lines of that store, stores of the cart and keys coincide |
| Grouping.GroupingIsPartition | app/api/orders/route.js:94-111 | the groups together hold exactly the priced cart lines, each as often as in the cart, and their sizes add up to the cart length |
| Grouping.FlattenIsPartition | app/api/orders/route.js:103-110 | for any distinct key sequence covering the cart's stores, the concatenated groups are a permutation of the priced cart lines |
| Grouping.LineInItsGroup | app/api/orders/route.js:101-110 | every priced cart line is in the group of its own product's store |
| Grouping.LinesForFromCatalogue | app/api/orders/route.js:107-110 | each line of store k's group names a catalogue product of store k at its catalogue price |
| Grouping.LinesForAbsentStore | app/api/orders/route.js:103-107 | a store that owns none of the cart's products has no lines |
| Grouping.DistinctMembers | app/api/orders/route.js:103-105 | the distinct stores are exactly the stores that occur |
| Grouping.DistinctNoDuplicates | app/api/orders/route.js:103-105 | each store occurs once among the keys |
| Grouping.DistinctFirstEncounterOrder | app/api/orders/route.js:103-105 | keys are ordered by the position of their first occurrence |
| Grouping.SubtotalPermutation | app/api/orders/route.js:122-125 | the sum of price times quantity does not depend on the order of the lines |
| Grouping.SubtotalConcat | app/api/orders/route.js:122-125 | the subtotal of two runs of lines is the sum of their subtotals |
| Grouping.LinesLength | app/api/orders/route.js:96-111 | one priced line per cart line |
| CheckoutProperties.UnauthenticatedRejected | app/api/orders/route.js:17-19 | no signed-in user: 401 and no table changes, whatever the request |
| CheckoutProperties.IncompleteRequestRejected | app/api/orders/route.js:26-36 | no address, no payment method, no items or an empty item list: "missing order details." and no table changes |
| CheckoutProperties.UnknownCouponRejected | app/api/orders/route.js:44-57 | a code whose upper-cased form is not in the coupon table: "Coupon not found", status 400, no changes |
| CheckoutProperties.CouponRules | app/api/orders/route.js:44-89 | the coupon checks in order (existence, new-user rule, members-only rule), first failure wins; a coupon is applied exactly when it exists and passes both rules; no code applies none |
| CheckoutProperties.CouponLookupIgnoresCase | app/api/orders/route.js:45-49 | the coupon outcome is the same for a code and its upper-cased form |
| CheckoutProperties.WritesOnlyWhenChecksPass | app/api/orders/route.js:11-170 | existing orders are never changed; new orders are written exactly when every check passes, and then they are `Created`; a failed check leaves the carts alone |
| CheckoutProperties.OrdersOfStoreMap | app/api/orders/route.js:121-167 | one order per key in key order, each with its key's lines, a consecutive id, the shopper, the address, the payment method, unpaid |
| CheckoutProperties.OrdersCoverStores | app/api/orders/route.js:94-169 | orders built from a grouping have distinct stores, every cart line's store has an order and every order's store is a cart line's store |
| CheckoutProperties.OneOrderPerStore | app/api/orders/route.js:94-169 | a passing checkout creates exactly one order per distinct store of the cart, with fresh consecutive ids, all for the shopper |
| CheckoutProperties.OrderItemsFromCatalogue | app/api/orders/route.js:107-110 | every stored order line is a catalogue product of its order's store at the catalogue price, and together the orders hold exactly the priced cart lines |
| CheckoutProperties.GroupedLinesFromCatalogue | app/api/orders/route.js:107-164 | the same for the orders built from any grouping of the cart |
| CheckoutProperties.GroupedOrdersFromCatalogue | app/api/orders/route.js:158-164 | each order line is a product of the order's store at its catalogue price |
| CheckoutProperties.GroupedOrdersHoldCart | app/api/orders/route.js:158-164 | the orders' lines together are a permutation of the priced cart lines |
| CheckoutProperties.ItemsAreFlatten | app/api/orders/route.js:121-165 | orders holding the groups, one per key, hold the groups one after the other |
| CheckoutProperties.OrdersArePriced | app/api/orders/route.js:121-155 | every order's total is its rounded discounted subtotal plus the fee exactly at the first position for a non-member, and it records the coupon |
| CheckoutProperties.FeeCharged | app/api/orders/route.js:116-137 | for orders priced as the loop prices them, a non-member's first order total includes the 5.00 fee and every other total has no fee; a member's totals have none; so exactly one order, or none, carries it |
| CheckoutProperties.ShippingFeeAtMostOnce | app/api/orders/route.js:116-137 | a passing checkout prices its orders that way, and the fee is charged once to a non-member and never to a member |
| CheckoutProperties.SumOfWholeCents | app/api/orders/route.js:139 | a sum of totals rounded to cents is a whole number of cents |
| CheckoutProperties.RoundedTotals | app/api/orders/route.js:139-149 | the sum of the created orders' totals is a whole number of cents |
| CheckoutProperties.CardPaymentSession | app/api/orders/route.js:172-203 | with STRIPE the orders are written and no cart changes; when the gateway creates the session it asks for exactly the sum of the rounded order totals in cents, quantity 1, and lists the new ids in processing order with the shopper; when it does not, the answer is a 400 and the unpaid orders stay |
| CheckoutProperties.CashOnDeliveryClearsCart | app/api/orders/route.js:207-219 | otherwise the orders are appended and the shopper's cart becomes empty with every other cart kept; without a user row the answer is an error and the orders stay |
| CheckoutProperties.TotalsReconcile | app/api/orders/route.js:121-149 | the sum of the order totals is within half a cent per order of the discounted cart subtotal plus one shipping fee (none for members) |
| CheckoutProperties.GroupedTotalsReconcile | app/api/orders/route.js:121-149 | the same for orders built from any grouping of the cart |
| CheckoutProperties.SumsReconcile | app/api/orders/route.js:121-149 | orders priced as the checkout prices them reconcile prefix by prefix |
| CheckoutProperties.ReconcileStep | app/api/orders/route.js:139 | one more order within half a cent of its discounted subtotal keeps the running sums reconciled |
| CheckoutProperties.SubtotalSumIsSubtotal | app/api/orders/route.js:122-125 | the orders' subtotals add up to the subtotal of all their lines |
| CheckoutProperties.DiscountedAdds | app/api/orders/route.js:129-131 | the percentage discount distributes over a sum |
| CheckoutProperties.CheckoutKeepsIds | app/api/orders/route.js:144-169 | a checkout keeps every order's id equal to its position, so ids stay unique |
| CheckoutProperties.ListedExactly | app/api/orders/route.js:245-251 | `GET` lists exactly the shopper's orders that are cash on delivery, or card orders that are paid |
| CheckoutProperties.VisibleIdsBelow | app/api/orders/route.js:245-257 | listed orders carry ids below the table size |
| CheckoutProperties.ListedNewestFirst | app/api/orders/route.js:256 | listed orders come newest first |
| CheckoutProperties.VisibleOrdersAppendHidden | app/api/orders/route.js:247-250 | appending unlisted orders changes no listing |
| CheckoutProperties.CardOrdersHiddenUntilPaid | app/api/orders/route.js:144-203 | a STRIPE checkout changes nobody's listing, since its orders are unpaid |
| CheckoutProperties.ExampleGrouping | app/api/orders/route.js:94-111 | a two-product cart from two stores groups into the two stores in cart order |
| CheckoutProperties.ExampleOrders | app/api/orders/route.js:121-149 | that grouping yields orders of 25.00 (with the fee) and 20.00 for a non-member without coupon |
| CheckoutProperties.ExampleTwoStores | app/api/orders/route.js:11-219 | the whole cash-on-delivery checkout of that cart places the two orders and empties the cart |
| Money.Cents | app/api/orders/route.js:139 | the cents `toFixed(2)` denotes: the nearest whole number of cents, halves away from zero |
| Money.Round2 | app/api/orders/route.js:139-149 | `parseFloat(x.toFixed(2))` as that many cents; stated by `Round2Close`, `CentsOfWholeCents` and `Round2Idempotent` |
| Money.MathRound | app/api/orders/route.js:187 | `Math.round`: the nearest integer, halves rounded up; stated by `MathRoundWhole` |
| Money.Round2Close | app/api/orders/route.js:139 | rounding to cents moves a value by at most half a cent |
| Money.CentsOfWholeCents | app/api/orders/route.js:149 | a whole number of cents is left unchanged by rounding |
| Money.Round2Idempotent | app/api/orders/route.js:139-149 | rounding twice is rounding once |
| Money.MathRoundWhole | app/api/orders/route.js:187 | `Math.round` leaves whole numbers unchanged |
| Js.Upper | app/api/admin/coupon/route.js:19 | upper-casing keeps the length and maps each character to its upper-case form |
| Js.Split | middlewares/authAdmin.js:17 | a split always yields at least one piece |
| Js.UpperIsUpper | app/api/admin/coupon/route.js:19 | an upper-cased code has no lower-case letter, and upper-casing is idempotent |
| Js.UpperFixesExactlyUpper | app/api/admin/coupon/route.js:19 | upper-casing leaves a string unchanged exactly when it has no lower-case letter |
| Js.SplitPiecesHaveNoSeparator | middlewares/authAdmin.js:17 | no piece of a split contains the separator |
| Js.JoinSplit | middlewares/authAdmin.js:17 | joining the pieces of a split gives the string back |
| Js.SplitJoin | middlewares/authAdmin.js:17 | splitting the join of separator-free pieces gives the pieces back |
| Js.SplitSeparatorPrefix | middlewares/authAdmin.js:17 | a separator-free piece followed by the separator splits off as its own piece |
| Js.SplitNoSeparator | middlewares/authAdmin.js:17 | a string without the separator splits to itself |
| CouponAdmin.AddSpec | app/api/admin/coupon/route.js:9-56 | the specification of `POST`: 401 for a non-admin, 400 without a coupon, "already exists" for a taken code, otherwise the upper-cased coupon is saved and one expiry event is sent (a 400 after the save when the event is not accepted) |
| CouponAdmin.DeleteSpec | app/api/admin/coupon/route.js:59-81 | the specification of `DELETE`: 401 for a non-admin, 400 for a missing or unknown code, otherwise exactly that row removed |
| CouponAdmin.CouponTable.Add | app/api/admin/coupon/route.js:9-56 | the admin test is `authAdmin` of the caller; the response, coupon table and event log after `POST` are `AddSpec` of the ones before, and the table stays upper-keyed |
| CouponAdmin.CouponTable.Delete | app/api/admin/coupon/route.js:59-81 | the admin test is `authAdmin` of the caller; the response and table after `DELETE` are `DeleteSpec` of the table before; the event log is unchanged |
| CouponAdmin.CouponTable.List | app/api/admin/coupon/route.js:84-106 | a caller `authAdmin` accepts gets every coupon of the table, anyone else 401 |
| CouponAdmin.Normalised | app/api/admin/coupon/route.js:19 | the saved coupon has the upper-cased code and every other field as given |
| CouponAdmin.AddKeepsUpperKeyed | app/api/admin/coupon/route.js:19-34 | after any `POST`, every stored code is upper case and stored under itself |
| CouponAdmin.NonAdminChangesNothing | app/api/admin/coupon/route.js:12-16 | a non-admin gets 401 from `POST` and `DELETE` and nothing changes |
| CouponAdmin.DuplicateRejected | app/api/admin/coupon/route.js:22-31 | a code taken in any letter case is refused with "already exists" (400), nothing changes |
| CouponAdmin.AddInsertsExactlyOne | app/api/admin/coupon/route.js:34-47 | a successful add inserts exactly the normalised coupon, keeps every other row and emits exactly one expiry event with its code and expiry |
| CouponAdmin.AddedCouponFoundAtCheckout | app/api/admin/coupon/route.js:19-34 | the checkout finds an added coupon when its code is typed in any letter case |
| CouponAdmin.AddThenDeleteRestores | app/api/admin/coupon/route.js:34-70 | deleting by the stored code after adding gives the table back |
| CouponAdmin.DeleteIsCaseSensitive | app/api/admin/coupon/route.js:69-79 | `DELETE` does not upper-case: a code with a lower-case letter matches nothing and answers 400 |
| CouponAdmin.DeleteRemovesExactlyOne | app/api/admin/coupon/route.js:69-71 | a delete removes exactly the named row and keeps the table upper-keyed |
| StoreApproval.StoreTable.Review | app/api/admin/approve-store/route.js:7-58 | a caller `authAdmin` rejects gets 401 and nothing changes; "approved" or "rejected" updates exactly the named store (an error if it does not exist); any other status changes nothing yet reports success |
| StoreApproval.StoreTable.ListAwaiting | app/api/admin/approve-store/route.js:63-92 | a caller `authAdmin` accepts gets the stores awaiting review, anyone else 401 |
| StoreApproval.AwaitingReview | app/api/admin/approve-store/route.js:80-85 | exactly the stores whose status is "pending" or "rejected", with their records |
| StoreApproval.Transition | app/api/admin/approve-store/route.js:27-44 | a transition keeps the store's name and owner |
| StoreApproval.ApproveActivates | app/api/admin/approve-store/route.js:27-34 | approving sets the status to "approved" and activates the store |
| StoreApproval.RejectKeepsActivity | app/api/admin/approve-store/route.js:37-43 | rejecting sets the status to "rejected" and keeps the active flag |
| StoreApproval.OtherStatusIsNoOp | app/api/admin/approve-store/route.js:27-47 | any other status changes nothing and still answers 200 with the status followed by " successfully" |
| StoreApproval.TransitionIdempotent | app/api/admin/approve-store/route.js:27-44 | reviewing twice with the same status is reviewing once |
| StoreApproval.ReviewMovesStore | app/api/admin/approve-store/route.js:27-44 | an approved store leaves the review list, a rejected one is on it, and no other store's membership changes |
| RatingSlice.FetchPayload | lib/features/rating/ratingSlice.js:19 | the fetch yields the response's ratings when there is data and the empty list otherwise |
| RatingSlice.Slice.constructor | lib/features/rating/ratingSlice.js:31-33 | the initial state has no ratings |
| RatingSlice.Slice.AddRating | lib/features/rating/ratingSlice.js:35-37 | the payload is appended: one longer, the earlier ratings unchanged and in order |
| RatingSlice.Slice.FetchFulfilled | lib/features/rating/ratingSlice.js:40-42 | the list becomes the payload, whatever it held |
| RatingSlice.Slice.Dispatch | lib/features/rating/ratingSlice.js:29-44 | dispatching an action gives the reducer's result on the old list |
| RatingSlice.Reduce | lib/features/rating/ratingSlice.js:29-44 | the slice's reducer: an add appends the payload, a fulfilled fetch replaces the list |
| RatingSlice.Replay | lib/features/rating/ratingSlice.js:29-44 | the list after a run of dispatched actions; stated by `AddsAppend`, `ReplayConcat` and `LastFetchWins` |
| RatingSlice.AddsAppend | lib/features/rating/ratingSlice.js:35-37 | a run of adds keeps the earlier list as a prefix and appends the ratings in dispatch order |
| RatingSlice.ReplayConcat | lib/features/rating/ratingSlice.js:29-44 | replaying a concatenation is replaying one part after the other |
| RatingSlice.LastFetchWins | lib/features/rating/ratingSlice.js:35-42 | after the last fulfilled fetch, the list is its payload followed by the ratings added since |
| RatingSlice.EmptyFetchClears | lib/features/rating/ratingSlice.js:19-42 | a fetch without response data empties the list |
| AuthAdmin.IsAdmin | middlewares/authAdmin.js:4-25 | an admin always has a non-empty user id, a successful lookup with an address, and a configured variable |
| AuthAdmin.IsAdminCaller | app/api/admin/coupon/route.js:11-12 | the admin handlers' test: `authAdmin` of the caller's id, with the lookup and `ADMIN_EMAIL` as inputs; `CouponTable` and `StoreTable` decide with it |
| AuthAdmin.AdminExactlyWhenListed | middlewares/authAdmin.js:17 | with the variable set to a comma-joined list, a found user is an admin exactly when their first address is in it |
| AuthAdmin.OnlyFirstAddressCounts | middlewares/authAdmin.js:17 | only the first address is compared |
| AuthAdmin.NoTrimming | middlewares/authAdmin.js:17 | the pieces are compared untrimmed |
| AuthAdmin.NoCaseFolding | middlewares/authAdmin.js:17 | the comparison is case-sensitive |
| AuthAdmin.FailuresAreNotAdmin | middlewares/authAdmin.js:19-24 | a failed lookup, a user without addresses or an unset variable yields false, never an error |
| ProductRoute.Get | app/api/product/route.js:30-34 | a form field read gives its first entry, or nothing when it has none |
| ProductRoute.PostProduct | app/api/product/route.js:11-102 | the specification of `POST /api/product`; stated by `NoStoreNoAccess`, `MissingDetailsExactly` and `AddedProductRecord` |
| ProductRoute.ListProducts | app/api/product/route.js:105-121 | the specification of `GET /api/product`; stated by `NoStoreNoAccess` and `ListedExactly` |
| ProductRoute.DetailsPresent | app/api/product/route.js:40 | the required-field gate: name, description, mrp, price and category truthy and at least one image |
| ProductRoute.StringToNumber | app/api/product/route.js:32-33 | `Number` on text: trimmed, empty is 0, an optional sign, then a decimal literal or `Infinity`, anything else NaN; stated by `NumberOfDigits`, `NumberOfPaddedNegative` and `NumberOfDecimalText` |
| ProductRoute.ToNumber | app/api/product/route.js:32-33 | `Number` on a form entry: a missing entry is 0, a file NaN, text as `StringToNumber` |
| ProductRoute.NoStoreNoAccess | app/api/product/route.js:20-25 | without a seller store, `POST` and `GET` answer 401 whatever the form |
| ProductRoute.MissingDetailsExactly | app/api/product/route.js:40-42 | a seller's form is refused as missing details exactly when a required field is falsy or there is no image |
| ProductRoute.AddedProductRecord | app/api/product/route.js:48-91 | a product is built exactly when the fields are text, the prices finite and the images files; it has the seller's store, the submitted name, description and category, the parsed prices and one upload URL per image in order |
| ProductRoute.ZeroOrUnparsablePriceIsMissing | app/api/product/route.js:32-40 | a price that is blank, zero or unparsable counts as missing |
| ProductRoute.NoImageIsMissing | app/api/product/route.js:37-40 | a form without images counts as missing details |
| ProductRoute.TrimStart | app/api/product/route.js:32-33 | trimming leaves no leading white space and never lengthens the text |
| ProductRoute.TrimEnd | app/api/product/route.js:32-33 | trimming leaves no trailing white space and never lengthens the text |
| ProductRoute.TrimStartDropsOnlySpace | app/api/product/route.js:32-33 | the start-trimmed text is a suffix of the input and everything dropped before it is white space |
| ProductRoute.TrimEndDropsOnlySpace | app/api/product/route.js:32-33 | the end-trimmed text is a prefix of the input and everything dropped after it is white space |
| ProductRoute.UnsignedOfDigits | app/api/product/route.js:32-33 | a digit string is read as its value, negated when a minus sign preceded it |
| ProductRoute.NumberOfDigits | app/api/product/route.js:32-33 | `Number` reads a digit string as its value |
| ProductRoute.NumberOfPaddedNegative | app/api/product/route.js:32-33 | `Number` reads a space-padded negative digit string as its negation |
| ProductRoute.NumberOfDecimalText | app/api/product/route.js:32-33 | `Number` reads back the decimal text of every whole number, with or without a minus sign and spaces |
| ProductRoute.NegativePriceAccepted | app/api/product/route.js:33-40 | the check asks only for a non-zero price, so a negative price passes |
| ProductRoute.ListedExactly | app/api/product/route.js:112-121 | `GET` lists exactly the seller's store's products |

## Left out

- **Foreign services and time.** Identity, payment, image storage, background events and database calls are not modelled. Their results are inputs or uninterpreted functions. Clock values are dropped: the session expiry and the origin header.
- Orders.Database.CreateStoreOrders: a database write that throws part-way through the loop is not modelled. In the source the orders written before it stay and the answer is a 400; in the model every write succeeds, so `WritesOnlyWhenChecksPass` speaks only of checkouts whose writes all succeed.
- **The card session.** Whether the gateway creates the session is an input (`sessionCreated`); why it fails (a missing key, a rejected request) is not modelled. Only the amount, quantity, currency, order ids, shopper and application tag are kept. The ids are a sequence where the source sends them comma-joined.
- **Floating point.** Money is exact `real`. `toFixed(2)` is rounded to cents with halves away from zero, and binary floating-point artefacts are not modelled.
- **`toUpperCase`.** Only the ASCII letters are modelled; letters outside ASCII are left unchanged.
- **`Number(...)`.** Decimal literals with an optional fraction, a sign and `Infinity` are modelled. Exponents and hexadecimal, octal or binary literals are not: those strings read as NaN in the model.
- **White space.** The white space that `Number` trims is the set of characters in `IsJsSpace`.
- **Order ids and creation times.** Order ids are table positions rather than generated strings. Creation-time ties are not modelled; newest first means the reverse order of writing.
- **Returned records.** The listing's included product and address records and the store listing's included user records are not modelled.
- **Payment method.** A payment method other than COD or STRIPE is rejected by the database schema. It is outside the model.
- **Store status values.** `StoreApproval.StoreTable.Review`: a status value that is not a string is not modelled. It answers like any unknown string.
- **Empty fetch data.** `RatingSlice.FetchPayload`: a truthy response without a `ratings` field, which the source stores as `undefined`, is not modelled.
- **Rejected fetch.** The rejected case of the rating fetch has no reducer in the slice, so it changes nothing. The thunk's network call is not modelled.
- **`authSeller`.** It is not part of this model. Its store id is an input.
- **Concurrency.** Concurrent requests are not modelled.
